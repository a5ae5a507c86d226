/** reconcilers/resourcemanager.go: Manage decides between create, update and delete,
    orders the finalizer calls around them, and keeps the mutation cache. */
module ResourceManagers {
  import opened Basics
  import opened Api
  import opened Patches
  import opened Finalizers

  /** merged are the fields MergeBeforeUpdate copies, immutable those that
      HarmonizeImmutableFields copies the other way; trackable says whether the
      tracker accepts a reference to the child. */
  datatype Manager = Manager(
    finalizer: string,
    merged: set<string>,
    immutable: set<string>,
    tracks: bool,
    trackable: bool)

  datatype Worker = Worker(session: Session, cache: map<Uid, Patch>)

  datatype Did<+T> = Did(worker: Worker, out: Outcome<T>)

  // ---------- specification

  function CopyFields(into: map<string, string>, from: map<string, string>, which: set<string>): map<string, string> {
    map f | f in into.Keys + from.Keys && (if f in which then f in from else f in into) ::
      if f in which then from[f] else into[f]
  }

  function Merge(m: Manager, current: Obj, desired: Obj): Obj {
    current.(fields := CopyFields(current.fields, desired.fields, m.merged))
  }

  function Harmonize(m: Manager, desired: Obj, actual: Obj): Obj {
    desired.(fields := CopyFields(desired.fields, actual.fields, m.immutable))
  }

  function Remembered(cache: map<Uid, Patch>, u: Uid, desired: Obj): Obj {
    if u in cache && Applies(cache[u], desired) then Applied(cache[u], desired) else desired
  }

  /** What an update would send. */
  function Proposal(m: Manager, cache: map<Uid, Patch>, a: Found, d: Desired): Obj {
    Merge(m, a.child.obj, Remembered(cache, a.uid, Harmonize(m, d.obj, a.child.obj)))
  }

  function OnCluster(w: Worker, c: Cluster): Worker {
    w.(session := w.session.(cluster := c))
  }

  function Removing(w: Worker, a: Found): Did<Option<Found>> {
    if a.child.terminating then Did(w, Ok(None))
    else
      var (c, reply) := DeleteChild(w.session.cluster, a.uid);
      Did(OnCluster(w, c), if reply.Err? then Err(reply.error) else Ok(None))
  }

  function Creating(m: Manager, w: Worker, d: Desired): Did<Option<Found>> {
    var (c, reply) := CreateChild(w.session.cluster, d);
    Did(OnCluster(w, c),
        if reply.Err? then Err(reply.error)
        else if m.tracks && !m.trackable then Err(Other)
        else Ok(Some(reply.value)))
  }

  function Updating(m: Manager, w: Worker, a: Found, d: Desired): Did<Option<Found>> {
    var current := Proposal(m, w.cache, a, d);
    if m.tracks && !m.trackable then Did(w, Err(Other))
    else if current == a.child.obj then Did(w, Ok(Some(a)))
    else
      var (c, reply) := UpdateChild(w.session.cluster, a.uid, a.child.version, current);
      match reply
      case Err(e) => Did(OnCluster(w, c), Err(e))
      case Ok(stored) =>
        var base := Merge(m, stored.child.obj, Harmonize(m, d.obj, a.child.obj));
        Did(OnCluster(w, c).(cache := w.cache[a.uid := NewPatch(base, stored.child.obj)]), Ok(Some(stored)))
  }

  function Managed(m: Manager, w: Worker, actual: Option<Found>, desired: Option<Desired>): Did<Option<Found>> {
    if desired.None? then
      if actual.None? then
        var r := Ensure(w.session, m.finalizer, false);
        Did(w.(session := r.session), if r.out.Err? then Err(r.out.error) else Ok(None))
      else Removing(w, actual.value)
    else
      var r := Ensure(w.session, m.finalizer, true);
      var w1 := w.(session := r.session);
      if r.out.Err? then Did(w1, Err(r.out.error))
      else if actual.None? then Creating(m, w1, desired.value)
      else Updating(m, w1, actual.value, desired.value)
  }

  // ---------- the code

  class ResourceManager {
    const config: Manager
    var mutationCache: map<Uid, Patch>

    constructor (m: Manager)
      ensures config == m && mutationCache == map[]
    {
      config := m;
      mutationCache := map[];
    }

    function Working(server: Server, resource: Resource): Worker
      reads this, server, resource
    {
      Worker(Session(server.cluster, resource.Copy()), mutationCache)
    }

    method Manage(server: Server, resource: Resource, actual: Option<Found>, desired: Option<Desired>)
      returns (out: Outcome<Option<Found>>)
      modifies this, server, resource
      ensures Did(Working(server, resource), out) == old(Managed(config, Working(server, resource), actual, desired))
    {
      if actual.None? && desired.None? {
        var cleared := EnsureFinalizer(server, resource, config.finalizer, false);
        return if cleared.Err? then Err(cleared.error) else Ok(None);
      }
      if desired.None? {
        if !actual.value.child.terminating {
          var deleted := server.Delete(actual.value.uid);
          if deleted.Err? {
            return Err(deleted.error);
          }
        }
        return Ok(None);
      }
      var added := EnsureFinalizer(server, resource, config.finalizer, true);
      if added.Err? {
        return Err(added.error);
      }
      if actual.None? {
        var created := server.Create(desired.value);
        if created.Err? {
          return Err(created.error);
        }
        if config.tracks && !config.trackable {
          return Err(Other);
        }
        return Ok(Some(created.value));
      }
      out := Update(server, resource, actual.value, desired.value);
    }

    method Update(server: Server, resource: Resource, actual: Found, desired: Desired)
      returns (out: Outcome<Option<Found>>)
      modifies this, server
      ensures Did(Working(server, resource), out) == old(Updating(config, Working(server, resource), actual, desired))
    {
      var u := actual.uid;
      var harmonized := Harmonize(config, desired.obj, actual.child.obj);
      var desiredPatched := new Target(harmonized);
      if u in mutationCache {
        var applied := ApplyTo(mutationCache[u], desiredPatched);
      }
      if config.tracks && !config.trackable {
        return Err(Other);
      }
      var current := Merge(config, actual.child.obj, desiredPatched.obj);
      if current == actual.child.obj {
        return Ok(Some(actual));
      }
      var reply := server.Update(u, actual.child.version, current);
      if reply.Err? {
        return Err(reply.error);
      }
      var base := Merge(config, reply.value.child.obj, harmonized);
      mutationCache := mutationCache[u := NewPatch(base, reply.value.child.obj)];
      return Ok(Some(reply.value));
    }
  }

  // ---------- the cache fails open

  /** A remembered patch that does not apply, because the generation differs or an
      operation misses its field, makes no difference to what is sent or returned. */
  lemma CacheFailsOpen(m: Manager, w: Worker, a: Found, d: Desired)
    requires a.uid in w.cache && !Applies(w.cache[a.uid], Harmonize(m, d.obj, a.child.obj))
    ensures var without := w.(cache := w.cache - {a.uid});
      && Managed(m, w, Some(a), Some(d)).worker.session == Managed(m, without, Some(a), Some(d)).worker.session
      && Managed(m, w, Some(a), Some(d)).out == Managed(m, without, Some(a), Some(d)).out
  {
    assert Proposal(m, w.cache, a, d) == Proposal(m, w.cache - {a.uid}, a, d);
  }

  /** The desired value of a field, once immutable fields are harmonized. */
  function Harmonized(m: Manager, actual: Obj, desired: Obj, f: string): Option<string> {
    Lookup(if f in m.immutable then actual.fields else desired.fields, f)
  }

  /** The value of a field in an update: what is remembered for it goes before what is
      desired, and fields that are not merged stay as they are. */
  function Sent(m: Manager, cache: map<Uid, Patch>, a: Found, d: Desired, f: string): Option<string> {
    if f !in m.merged then Lookup(a.child.obj.fields, f)
    else if a.uid in cache && Applies(cache[a.uid], Harmonize(m, d.obj, a.child.obj)) && f in cache[a.uid].changes then
      if cache[a.uid].changes[f].Removed? then None else Some(cache[a.uid].changes[f].value)
    else Harmonized(m, a.child.obj, d.obj, f)
  }

  lemma ProposalFields(m: Manager, cache: map<Uid, Patch>, a: Found, d: Desired)
    ensures forall f :: Lookup(Proposal(m, cache, a, d).fields, f) == Sent(m, cache, a, d, f)
    ensures Proposal(m, cache, a, d).generation == a.child.obj.generation
  {
    var h := Harmonize(m, d.obj, a.child.obj);
    CopyLookup(d.obj.fields, a.child.obj.fields, m.immutable);
    CopyLookup(a.child.obj.fields, Remembered(cache, a.uid, h).fields, m.merged);
    if a.uid in cache && Applies(cache[a.uid], h) {
      AppliedLookups(cache[a.uid].changes, h.fields);
    }
  }

  /** An undisturbed Manage that succeeds sends these fields unless nothing would change,
      stores what admission makes of them, and touches no other child. */
  lemma ManageStores(m: Manager, w: Worker, a: Found, d: Desired)
    requires WellFormed(w.session.cluster) && Quiet(w.session.cluster)
    requires a.uid in w.session.cluster.children && w.session.cluster.children[a.uid] == a.child
    requires FinalizerHeld(m, w) && Managed(m, w, Some(a), Some(d)).out.Ok?
    ensures var did := Managed(m, w, Some(a), Some(d));
      var children, sent := did.worker.session.cluster.children, Proposal(m, w.cache, a, d);
      && did.out.value.Some? && did.out.value.value.uid == a.uid
      && a.uid in children && children[a.uid].obj == did.out.value.value.child.obj
      && children[a.uid].obj == (if sent == a.child.obj then sent else Admission(w.session.cluster, sent))
      && (forall f :: Lookup(sent.fields, f) == Sent(m, w.cache, a, d, f))
      && children - {a.uid} == w.session.cluster.children - {a.uid}
  {
    QuietBegin(w.session.cluster);
    ProposalFields(m, w.cache, a, d);
  }

  lemma CopyLookup(into: map<string, string>, from: map<string, string>, which: set<string>)
    ensures forall f ::
      Lookup(CopyFields(into, from, which), f) == (if f in which then Lookup(from, f) else Lookup(into, f))
  {
    forall f ensures Lookup(CopyFields(into, from, which), f) == if f in which then Lookup(from, f) else Lookup(into, f) {
      assert f in into.Keys + from.Keys <==> f in into || f in from;
    }
  }

  /** Whatever the tape, the same calls and the same answers. */
  ghost predicate Alike(w: Worker, v: Worker, u: Uid, d: Desired) {
    && w.session == v.session
    && (w.cache == v.cache || (u in w.cache && w.cache[u].generation != d.obj.generation && v.cache == w.cache - {u}))
  }

  lemma ManagedAlike(m: Manager, w: Worker, v: Worker, a: Found, d: Desired)
    requires Alike(w, v, a.uid, d)
    ensures var r, s := Managed(m, w, Some(a), Some(d)), Managed(m, v, Some(a), Some(d));
      Alike(r.worker, s.worker, a.uid, d) && r.out == s.out
  {
    assert Proposal(m, w.cache, a, d) == Proposal(m, v.cache, a, d);
  }

  /** A patch remembered from another generation never makes a difference: over any number
      of Manage calls, under any tape, the cluster and the outcome are those without it. */
  lemma {:induction false} StaleEntryNeverMatters(m: Manager, w: Worker, v: Worker, u: Uid, d: Desired, n: nat)
    requires Alike(w, v, u, d)
    ensures var r, s := ManagedRepeatedly(m, w, Some(u), d, n), ManagedRepeatedly(m, v, Some(u), d, n);
      r.worker.session == s.worker.session && r.out == s.out
    decreases n
  {
    if n > 0 && u in w.session.cluster.children {
      var a := Found(u, w.session.cluster.children[u]);
      ManagedAlike(m, w, v, a, d);
      ManagedSameUid(m, w, a, d);
      var r, s := Managed(m, w, Some(a), Some(d)), Managed(m, v, Some(a), Some(d));
      if r.out.Ok? {
        StaleEntryNeverMatters(m, r.worker, s.worker, u, d, n - 1);
      }
    }
  }

  lemma ManagedSameUid(m: Manager, w: Worker, a: Found, d: Desired)
    ensures var r := Managed(m, w, Some(a), Some(d));
      r.out.Ok? ==> r.out.value.Some? && r.out.value.value.uid == a.uid
  {
  }

  // ---------- the cache converges

  /** Another Manage would find the child in sync. */
  predicate InSync(m: Manager, w: Worker, u: Uid, d: Desired) {
    u in w.session.cluster.children &&
    Proposal(m, w.cache, Found(u, w.session.cluster.children[u]), d) == w.session.cluster.children[u].obj
  }

  predicate SameFields(which: set<string>, a: Obj, b: Obj) {
    forall f | f in which :: Lookup(a.fields, f) == Lookup(b.fields, f)
  }

  /** After an update, whatever admission stored, the next Manage of the same desired
      object is a no-op exactly when the desired generation is the stored one or admission
      left the merged fields as desired. Immutable fields are those the server keeps. */
  lemma UpdateSettles(m: Manager, w: Worker, a: Found, d: Desired)
    requires WellFormed(w.session.cluster)
    requires var r := Updating(m, w, a, d);
      r.out.Ok? && r.worker.session.cluster.writes != w.session.cluster.writes
      && SameFields(m.immutable, r.out.value.value.child.obj, a.child.obj)
    ensures var r := Updating(m, w, a, d);
      var stored := r.out.value.value.child.obj;
      InSync(m, r.worker, a.uid, d) <==>
        d.obj.generation == stored.generation || Merge(m, stored, Harmonize(m, d.obj, stored)) == stored
  {
    BeginEvolves(w.session.cluster);
    var stored := Updating(m, w, a, d).out.value.value.child.obj;
    var h := Harmonize(m, d.obj, a.child.obj);
    HarmonizeAgain(m, d.obj, a.child.obj, stored);
    PatchSettles(m, stored, h);
  }

  lemma HarmonizeAgain(m: Manager, desired: Obj, a: Obj, b: Obj)
    requires SameFields(m.immutable, b, a)
    ensures Harmonize(m, desired, a) == Harmonize(m, desired, b)
  {
    CopyLookup(desired.fields, a.fields, m.immutable);
    CopyLookup(desired.fields, b.fields, m.immutable);
    SameLookups(Harmonize(m, desired, a).fields, Harmonize(m, desired, b).fields);
  }

  /** The remembered patch applies to the desired object when the generations agree, and
      merging the result into what is stored then changes nothing. */
  lemma PatchSettles(m: Manager, stored: Obj, h: Obj)
    ensures var p := NewPatch(Merge(m, stored, h), stored);
      && (Applies(p, h) <==> h.generation == stored.generation)
      && Merge(m, stored, Applied(p, h)) == stored
  {
    var base := Merge(m, stored, h);
    var p := NewPatch(base, stored);
    CopyLookup(stored.fields, h.fields, m.merged);
    PatchRebase(base, stored, h);
    forall f | f in base.fields && Lookup(base.fields, f) != Lookup(stored.fields, f)
      ensures f in h.fields
    {
      assert Lookup(base.fields, f) == if f in m.merged then Lookup(h.fields, f) else Lookup(stored.fields, f);
    }
    CopyLookup(stored.fields, Applied(p, h).fields, m.merged);
    SameLookups(Merge(m, stored, Applied(p, h)).fields, stored.fields);
  }

  /** Manage called n times, each time with the child as it is stored at that moment; at
      is where it is, once it has been created. */
  function ManagedRepeatedly(m: Manager, w: Worker, at: Option<Uid>, d: Desired, n: nat): Did<Option<Uid>>
    decreases n
  {
    if n == 0 || (at.Some? && at.value !in w.session.cluster.children) then Did(w, Ok(at))
    else
      var actual := if at.None? then None else Some(Found(at.value, w.session.cluster.children[at.value]));
      var r := Managed(m, w, actual, Some(d));
      if r.out.Err? then Did(r.worker, Err(r.out.error))
      else
        ManagedRepeatedly(m, r.worker, if r.out.value.None? then None else Some(r.out.value.value.uid), d, n - 1)
  }

  /** Admission is arbitrary at every call, except that it gives what it stores the
      desired generation and leaves immutable fields as they were sent. */
  ghost predicate KeepsGeneration(m: Manager, c: Cluster, d: Desired) {
    forall t, o: Obj | t in c.tape ::
      t.admit(o).generation == d.obj.generation && SameFields(m.immutable, t.admit(o), o)
  }

  /** No calls on the finalizer are due. */
  predicate FinalizerHeld(m: Manager, w: Worker) {
    m.finalizer == "" || m.finalizer in w.session.local.finalizers
  }

  ghost predicate Undisturbed(m: Manager, w: Worker, d: Desired) {
    && WellFormed(w.session.cluster) && Quiet(w.session.cluster)
    && KeepsGeneration(m, w.session.cluster, d) && FinalizerHeld(m, w)
  }

  lemma CreatingUndisturbed(m: Manager, w: Worker, d: Desired)
    requires Undisturbed(m, w, d)
    ensures var r := Creating(m, w, d);
      r.out.Ok? ==> Undisturbed(m, r.worker, d) && r.out.value.Some?
  {
    QuietBegin(w.session.cluster);
    BeginEvolves(w.session.cluster);
  }

  lemma UpdatingUndisturbed(m: Manager, w: Worker, a: Found, d: Desired)
    requires Undisturbed(m, w, d)
    ensures var r := Updating(m, w, a, d);
      r.out.Ok? ==> Undisturbed(m, r.worker, d) && r.out.value.Some?
  {
    QuietBegin(w.session.cluster);
    BeginEvolves(w.session.cluster);
  }

  lemma ManagedUndisturbed(m: Manager, w: Worker, actual: Option<Found>, d: Desired)
    requires Undisturbed(m, w, d)
    ensures var r := Managed(m, w, actual, Some(d));
      r.out.Ok? ==> Undisturbed(m, r.worker, d) && r.out.value.Some?
  {
    if actual.None? { CreatingUndisturbed(m, w, d); } else { UpdatingUndisturbed(m, w, actual.value, d); }
  }

  lemma {:induction false} InSyncForever(m: Manager, w: Worker, u: Uid, d: Desired, n: nat)
    requires Undisturbed(m, w, d) && InSync(m, w, u, d)
    ensures ManagedRepeatedly(m, w, Some(u), d, n).worker == w
    ensures (m.tracks ==> m.trackable) ==> ManagedRepeatedly(m, w, Some(u), d, n).out == Ok(Some(u))
    decreases n
  {
    if n > 0 && !(m.tracks && !m.trackable) {
      InSyncForever(m, w, u, d, n - 1);
    }
  }

  /** From a child the cache knows nothing about: at most one update, ever. */
  lemma {:induction false} UpdatedAtMostOnce(m: Manager, w: Worker, u: Uid, d: Desired, n: nat)
    requires Undisturbed(m, w, d) && u !in w.cache
    ensures var w' := ManagedRepeatedly(m, w, Some(u), d, n).worker.session.cluster.writes;
      w' == w.session.cluster.writes || w' == w.session.cluster.writes + [Updated(u)]
    decreases n
  {
    if n > 0 && u in w.session.cluster.children {
      var a := Found(u, w.session.cluster.children[u]);
      var r := Managed(m, w, Some(a), Some(d));
      ManagedUndisturbed(m, w, Some(a), d);
      QuietBegin(w.session.cluster);
      if r.out.Ok? && Proposal(m, w.cache, a, d) != a.child.obj {
        SentKeepsImmutable(m, w.cache, a, d);
        UpdateSettles(m, w, a, d);
        InSyncForever(m, r.worker, u, d, n - 1);
      } else if r.out.Ok? {
        UpdatedAtMostOnce(m, w, u, d, n - 1);
      }
    }
  }

  lemma SentKeepsImmutable(m: Manager, cache: map<Uid, Patch>, a: Found, d: Desired)
    requires a.uid !in cache
    ensures SameFields(m.immutable, Proposal(m, cache, a, d), a.child.obj)
  {
    var h := Harmonize(m, d.obj, a.child.obj);
    CopyLookup(d.obj.fields, a.child.obj.fields, m.immutable);
    CopyLookup(a.child.obj.fields, h.fields, m.merged);
  }

  /** From a child the cache knows nothing about, one call is enough to be in sync. */
  lemma SettlesAtOnce(m: Manager, w: Worker, u: Uid, d: Desired, n: nat)
    requires Undisturbed(m, w, d) && u !in w.cache && u in w.session.cluster.children
    requires (m.tracks ==> m.trackable) && n >= 1 && |w.session.cluster.tape| >= 1
    ensures var r := ManagedRepeatedly(m, w, Some(u), d, n);
      r.out == Ok(Some(u)) && InSync(m, r.worker, u, d)
  {
    var a := Found(u, w.session.cluster.children[u]);
    var r := Managed(m, w, Some(a), Some(d));
    if Proposal(m, w.cache, a, d) == a.child.obj {
      InSyncForever(m, w, u, d, n);
    } else {
      ManagedUndisturbed(m, w, Some(a), d);
      QuietBegin(w.session.cluster);
      SentKeepsImmutable(m, w.cache, a, d);
      UpdateSettles(m, w, a, d);
      InSyncForever(m, r.worker, u, d, n - 1);
    }
  }

  /** What KeepsGeneration asks of one moment. */
  ghost predicate Keeping(m: Manager, t: Moment, d: Desired) {
    forall o: Obj :: t.admit(o).generation == d.obj.generation && SameFields(m.immutable, t.admit(o), o)
  }

  /** The finalizer is set, or can be: the local copy is the stored parent, which stays.
      Admission may do anything at the create, such as filling in immutable fields. */
  ghost predicate FinalizerReady(m: Manager, w: Worker, d: Desired) {
    && WellFormed(w.session.cluster) && Quiet(w.session.cluster)
    && (FinalizerHeld(m, w) || (w.session.cluster.parent == Some(w.session.local) && !w.session.local.terminating))
    && forall i | |Readying(m, w)| < i < |w.session.cluster.tape| :: Keeping(m, w.session.cluster.tape[i], d)
  }

  /** The worker once the finalizer is set. */
  function Readied(m: Manager, w: Worker): Worker {
    w.(session := Ensure(w.session, m.finalizer, true).session)
  }

  /** The write that sets it, if it is not set. */
  function Readying(m: Manager, w: Worker): seq<Write> {
    if FinalizerHeld(m, w) then [] else [Patched]
  }

  lemma ReadiedHeld(m: Manager, w: Worker, d: Desired)
    requires FinalizerReady(m, w, d) && |w.session.cluster.tape| >= |Readying(m, w)|
    ensures var v := Readied(m, w);
      && FinalizerHeld(m, v) && FinalizerReady(m, v, d) && v.cache == w.cache
      && v.session.cluster.writes == w.session.cluster.writes + Readying(m, w)
      && |v.session.cluster.tape| == |w.session.cluster.tape| - |Readying(m, w)|
      && Managed(m, w, None, Some(d)) == Managed(m, v, None, Some(d))
  {
    if !FinalizerHeld(m, w) {
      QuietBegin(w.session.cluster);
      BeginEvolves(w.session.cluster);
      PatchEffect(w.session.cluster, w.session.local.version, w.session.local.finalizers + [m.finalizer]);
    } else {
      assert w.session.cluster.writes + [] == w.session.cluster.writes;
    }
  }

  /** From no child at all, whatever admission does to it at the create and to the merged
      fields later, and whatever is remembered of other children: the finalizer if it is not
      set, one create, at most one update, then no writes. From the second call on the child
      is in sync, if it can be tracked and the run is not cut short. */
  lemma CacheConverges(m: Manager, w: Worker, d: Desired, n: nat)
    requires FinalizerReady(m, w, d) && Readied(m, w).session.cluster.clock !in w.cache
    ensures var u := Readied(m, w).session.cluster.clock;
      var before := w.session.cluster.writes + Readying(m, w);
      var r := ManagedRepeatedly(m, w, None, d, n);
      && r.worker.session.cluster.writes <= before + [Created(u), Updated(u)]
      && (n >= 2 && (m.tracks ==> m.trackable) && |w.session.cluster.tape| >= |Readying(m, w)| + 2 ==>
            && before + [Created(u)] <= r.worker.session.cluster.writes
            && r.out == Ok(Some(u)) && InSync(m, r.worker, u, d))
  {
    if n > 0 && |w.session.cluster.tape| >= |Readying(m, w)| {
      ReadiedHeld(m, w, d);
      HeldConverges(m, Readied(m, w), d, n);
    }
  }

  /** The same with the finalizer set. */
  lemma HeldConverges(m: Manager, w: Worker, d: Desired, n: nat)
    requires FinalizerReady(m, w, d) && FinalizerHeld(m, w) && w.session.cluster.clock !in w.cache && n > 0
    ensures var u := w.session.cluster.clock;
      var before := w.session.cluster.writes;
      var r := ManagedRepeatedly(m, w, None, d, n);
      && r.worker.session.cluster.writes <= before + [Created(u), Updated(u)]
      && (n >= 2 && (m.tracks ==> m.trackable) && |w.session.cluster.tape| >= 2 ==>
            && before + [Created(u)] <= r.worker.session.cluster.writes
            && r.out == Ok(Some(u)) && InSync(m, r.worker, u, d))
  {
    var u := w.session.cluster.clock;
    CreatedOnce(m, w, d);
    var r := Managed(m, w, None, Some(d));
    if r.out.Ok? {
      UpdatedAtMostOnce(m, r.worker, u, d, n - 1);
      if n >= 2 && (m.tracks ==> m.trackable) && |w.session.cluster.tape| >= 2 {
        SettlesAtOnce(m, r.worker, u, d, n - 1);
      }
      assert w.session.cluster.writes + [Created(u)] + [Updated(u)]
          == w.session.cluster.writes + [Created(u), Updated(u)];
    }
  }

  lemma CreatedOnce(m: Manager, w: Worker, d: Desired)
    requires FinalizerReady(m, w, d) && FinalizerHeld(m, w)
    ensures var u := w.session.cluster.clock;
      var r := Managed(m, w, None, Some(d));
      var c' := r.worker.session.cluster;
      && (|w.session.cluster.tape| == 0 ==> r.out.Err? && c' == w.session.cluster)
      && (|w.session.cluster.tape| > 0 ==>
            && c'.writes == w.session.cluster.writes + [Created(u)] && u in c'.children
            && |c'.tape| == |w.session.cluster.tape| - 1
            && ((m.tracks ==> m.trackable) ==> r.out.Ok?))
      && (r.out.Ok? ==>
            && |w.session.cluster.tape| > 0 && r.out.value.Some? && r.out.value.value.uid == u
            && Undisturbed(m, r.worker, d) && r.worker.cache == w.cache)
  {
    var c := w.session.cluster;
    QuietBegin(c);
    CreateEffect(c, d);
    var c' := CreateChild(c, d).0;
    if |c.tape| > 0 {
      forall t, o: Obj | t in c'.tape
        ensures t.admit(o).generation == d.obj.generation && SameFields(m.immutable, t.admit(o), o)
      {
        var i :| 0 <= i < |c'.tape| && c'.tape[i] == t;
        assert Keeping(m, c.tape[i + 1], d);
      }
    }
  }

  // ---------- where it does not

  /** A stored child that no remembered patch reconciles with what is desired: it has
      another generation, and another value in the field f. */
  predicate Contrary(o: Obj, d: Desired, f: string) {
    o.generation != d.obj.generation && Lookup(o.fields, f) != Lookup(d.obj.fields, f)
  }

  ghost predicate AtOdds(m: Manager, w: Worker, u: Uid, d: Desired, f: string) {
    var c := w.session.cluster;
    && WellFormed(c) && Quiet(c) && FinalizerHeld(m, w) && (m.tracks ==> m.trackable)
    && f in m.merged && f !in m.immutable
    && u in c.children && Contrary(c.children[u].obj, d, f)
    && (u in w.cache ==> w.cache[u].generation != d.obj.generation)
    && forall i | 0 <= i < |c.tape| :: Stubborn(c.tape[i], d, f)
  }

  ghost predicate Stubborn(t: Moment, d: Desired, f: string) {
    forall o: Obj :: Contrary(t.admit(o), d, f)
  }

  lemma OddsSent(m: Manager, w: Worker, u: Uid, d: Desired, f: string)
    requires AtOdds(m, w, u, d, f)
    ensures var a := Found(u, w.session.cluster.children[u]);
      Proposal(m, w.cache, a, d) != a.child.obj
  {
    var a := Found(u, w.session.cluster.children[u]);
    ProposalFields(m, w.cache, a, d);
    assert Lookup(Proposal(m, w.cache, a, d).fields, f) == Lookup(d.obj.fields, f);
  }

  lemma StaysAtOdds(m: Manager, w: Worker, u: Uid, d: Desired, f: string)
    requires AtOdds(m, w, u, d, f) && |w.session.cluster.tape| > 0
    ensures var r := Managed(m, w, Some(Found(u, w.session.cluster.children[u])), Some(d));
      var c, c' := w.session.cluster, r.worker.session.cluster;
      && r.out.Ok? && r.out.value.Some? && r.out.value.value.uid == u
      && AtOdds(m, r.worker, u, d, f) && |c'.tape| == |c.tape| - 1 && c'.writes == c.writes + [Updated(u)]
  {
    var c := w.session.cluster;
    var a := Found(u, c.children[u]);
    QuietBegin(c);
    BeginEvolves(c);
    OddsSent(m, w, u, d, f);
    assert Stubborn(c.tape[0], d, f) && Contrary(c.tape[0].admit(Proposal(m, w.cache, a, d)), d, f);
  }

  /** One more call, with the child as it is stored at that moment. */
  function ManagedAgain(m: Manager, w: Worker, u: Uid, d: Desired): Did<Option<Found>> {
    if u in w.session.cluster.children then Managed(m, w, Some(Found(u, w.session.cluster.children[u])), Some(d))
    else Did(w, Err(NotFound))
  }

  /** The worker after n calls. */
  function ManagedTimes(m: Manager, w: Worker, u: Uid, d: Desired, n: nat): Worker {
    if n == 0 then w else ManagedAgain(m, ManagedTimes(m, w, u, d, n - 1), u, d).worker
  }

  lemma {:induction false} OddsKept(m: Manager, w: Worker, u: Uid, d: Desired, f: string, n: nat)
    requires AtOdds(m, w, u, d, f) && |w.session.cluster.tape| >= n
    ensures var v := ManagedTimes(m, w, u, d, n);
      AtOdds(m, v, u, d, f) && |v.session.cluster.tape| == |w.session.cluster.tape| - n
    decreases n
  {
    if n > 0 {
      OddsKept(m, w, u, d, f, n - 1);
      StaysAtOdds(m, ManagedTimes(m, w, u, d, n - 1), u, d, f);
    }
  }

  /** When the stored generation is never the desired one and admission keeps changing a
      merged field, the call after any n calls writes another update. */
  lemma UpdatesForever(m: Manager, w: Worker, u: Uid, d: Desired, f: string, n: nat)
    requires AtOdds(m, w, u, d, f) && |w.session.cluster.tape| > n
    ensures var v := ManagedTimes(m, w, u, d, n);
      var r := ManagedAgain(m, v, u, d);
      r.out.Ok? && r.worker.session.cluster.writes == v.session.cluster.writes + [Updated(u)]
  {
    OddsKept(m, w, u, d, f, n);
    StaysAtOdds(m, ManagedTimes(m, w, u, d, n), u, d, f);
  }

  /** An update after which another is due: admission adds to the merged field, and the desired
      object, built anew each time, has no generation while the stored one counts on. */
  lemma UnsettledHere()
    ensures var m := Manager("", {"spec"}, {}, false, false);
      var a := Found(0, Child(true, "a", false, false, 0, Obj(map["spec" := "old"], 1)));
      var w := Worker(Session(Cluster(None, map[0 := a.child], 1, {}, [Moment([], Done, AddsX)], []), Parent(0, false, [])), map[]);
      var d := Desired(true, "a", Obj(map["spec" := "new"], 0));
      var r := Updating(m, w, a, d);
      r.out.Ok? && r.worker.session.cluster.writes == [Updated(0)] && !InSync(m, r.worker, 0, d)
  {
    var m := Manager("", {"spec"}, {}, false, false);
    var a := Found(0, Child(true, "a", false, false, 0, Obj(map["spec" := "old"], 1)));
    var w := Worker(Session(Cluster(None, map[0 := a.child], 1, {}, [Moment([], Done, AddsX)], []), Parent(0, false, [])), map[]);
    var d := Desired(true, "a", Obj(map["spec" := "new"], 0));
    ProposalFields(m, w.cache, a, d);
    var sent := Proposal(m, w.cache, a, d);
    assert Lookup(sent.fields, "spec") == Some("new");
    QuietBegin(w.session.cluster);
    UpdateSettles(m, w, a, d);
    var stored := Updating(m, w, a, d).out.value.value.child.obj;
    assert stored == AddsX(sent);
    CopyLookup(stored.fields, Harmonize(m, d.obj, stored).fields, m.merged);
    CopyLookup(d.obj.fields, stored.fields, m.immutable);
    assert Lookup(Merge(m, stored, Harmonize(m, d.obj, stored)).fields, "spec") == Some("new");
  }

  /** An admission that appends to one field. */
  function AddsX(o: Obj): Obj {
    Obj(if "spec" in o.fields then o.fields["spec" := o.fields["spec"] + "x"] else o.fields, o.generation + 1)
  }
}
