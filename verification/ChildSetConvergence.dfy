/** One undisturbed pass over a parent that stays leaves exactly the desired children. */
module ChildSetConvergence {
  import opened Basics
  import opened Api
  import opened Finalizers
  import opened ResourceManagers
  import opened ChildReconcilers
  import opened ChildSafety
  import opened ChildSets
  import opened Teardown

  predicate InGroup(child: Child, id: string) {
    child.owned && child.id == id
  }

  ghost function Group(c: Cluster, id: string): set<Uid> {
    set u | u in c.children && InGroup(c.children[u], id)
  }

  predicate Stored(c: Cluster, u: Uid, child: Child) {
    u in c.children && c.children[u] == child
  }

  /** Everything but the children of ours under this id is as it was. */
  ghost predicate SameBut(c: Cluster, c': Cluster, id: string) {
    forall u, x: Child | !InGroup(x, id) :: Stored(c', u, x) <==> Stored(c, u, x)
  }

  /** Deleting a child of ours takes effect at once. */
  ghost predicate Immediate(c: Cluster) {
    WellFormed(c) && forall u | u in c.children && c.children[u].owned :: !c.children[u].held
  }

  /** What is known under this id is what is stored. */
  ghost predicate KnownAsStored(c: Cluster, known: seq<Found>, id: string) {
    && |Claimed(Only(id), known)| == |Group(c, id)|
    && forall k :: k in Claimed(Only(id), known) <==> Stored(c, k.uid, k.child) && InGroup(k.child, id)
  }

  ghost predicate Placid(w: Worker) {
    Immediate(w.session.cluster) && Quiet(w.session.cluster) && !w.session.local.terminating
  }

  // ---------- one id

  lemma {:induction false} QuietDeletes(w: Worker, extras: seq<Found>)
    requires Placid(w)
    requires forall k | k in extras && k.uid in w.session.cluster.children :: w.session.cluster.children[k.uid].owned
    ensures var r := Deleting(w, extras);
      && r.worker.session.local == w.session.local && Surfaces(r.out)
      && (r.out.Ok? ==>
            && Placid(r.worker)
            && r.worker.session.cluster.children
               == w.session.cluster.children - (set k | k in extras :: k.uid))
    decreases |extras|
  {
    if |extras| > 0 {
      var c := w.session.cluster;
      QuietBegin(c);
      DeleteDrifts(c, extras[0].uid);
      var (c1, reply) := DeleteChild(c, extras[0].uid);
      assert extras[0] in extras;
      if reply.Ok? {
        assert c1.children == c.children - {extras[0].uid};
        assert forall k | k in extras[1..] :: k in extras;
        QuietDeletes(OnCluster(w, c1), extras[1..]);
        assert (set k | k in extras :: k.uid) == {extras[0].uid} + (set k | k in extras[1..] :: k.uid) by {
          assert extras == [extras[0]] + extras[1..];
        }
      }
    }
  }

  /** After surplus children are gone, the one that is left, if any, is the actual one. */
  lemma CleanedGroup(w: Worker, known: seq<Found>, id: string)
    requires Placid(w) && KnownAsStored(w.session.cluster, known, id)
    ensures var mine := Claimed(Only(id), known);
      var r := Cleaning(w, mine);
      && r.worker.session.local == w.session.local && Surfaces(r.out)
      && (r.out.Ok? ==>
            && Placid(r.worker)
            && SameBut(w.session.cluster, r.worker.session.cluster, id)
            && (if |mine| == 1
                then r.worker == w && Group(w.session.cluster, id) == {mine[0].uid}
                     && mine[0].uid in w.session.cluster.children
                     && w.session.cluster.children[mine[0].uid] == mine[0].child
                else Group(r.worker.session.cluster, id) == {}))
  {
    var c := w.session.cluster;
    var mine := Claimed(Only(id), known);
    forall u ensures u in Group(c, id) <==> exists k | k in mine :: k.uid == u {
      if u in Group(c, id) {
        assert Found(u, c.children[u]) in mine;
      }
    }
    if |mine| == 1 {
      assert mine[0] in mine;
    } else if |mine| > 1 {
      QuietDeletes(w, mine);
      assert (set k | k in mine :: k.uid) == Group(c, id);
    }
  }

  lemma CreatedGroup(m: Manager, w: Worker, d: Desired)
    requires Placid(w) && d.owned && Group(w.session.cluster, d.id) == {}
    ensures var r := Creating(m, w, d);
      r.worker.session.local == w.session.local && Surfaces(r.out) && (r.out.Ok? ==>
        && Placid(r.worker)
        && SameBut(w.session.cluster, r.worker.session.cluster, d.id)
        && |Group(r.worker.session.cluster, d.id)| == 1)
  {
    var c := w.session.cluster;
    QuietBegin(c);
    var r := Creating(m, w, d);
    if r.out.Ok? {
      var c' := r.worker.session.cluster;
      assert Group(c', d.id) == {c.clock};
      assert SameBut(c, c', d.id);
    }
  }

  lemma UpdatedGroup(m: Manager, w: Worker, a: Found, d: Desired)
    requires Placid(w) && a.uid in w.session.cluster.children && w.session.cluster.children[a.uid] == a.child
    requires InGroup(a.child, d.id)
    ensures var r := Updating(m, w, a, d);
      r.worker.session.local == w.session.local && Surfaces(r.out) && (r.out.Ok? ==>
        && Placid(r.worker)
        && SameBut(w.session.cluster, r.worker.session.cluster, d.id)
        && Group(r.worker.session.cluster, d.id) == Group(w.session.cluster, d.id))
  {
    var c := w.session.cluster;
    QuietBegin(c);
    var r := Updating(m, w, a, d);
    if r.out.Ok? {
      var c' := r.worker.session.cluster;
      assert forall u :: u in c'.children <==> u in c.children;
      assert Group(c', d.id) == Group(c, d.id);
      assert SameBut(c, c', d.id);
    }
  }

  lemma RemovedGroup(w: Worker, a: Found, id: string)
    requires Placid(w) && a.uid in w.session.cluster.children && w.session.cluster.children[a.uid] == a.child
    requires InGroup(a.child, id) && Group(w.session.cluster, id) == {a.uid}
    ensures var r := Removing(w, a);
      r.worker.session.local == w.session.local && Surfaces(r.out) && (r.out.Ok? ==>
        && Placid(r.worker)
        && SameBut(w.session.cluster, r.worker.session.cluster, id)
        && Group(r.worker.session.cluster, id) == {})
  {
    var c := w.session.cluster;
    QuietBegin(c);
    var r := Removing(w, a);
    if r.out.Ok? {
      var c' := r.worker.session.cluster;
      assert c'.children == c.children - {a.uid};
      assert Group(c', id) == {};
      assert SameBut(c, c', id);
    }
  }

  function DesiredAt(byId: map<string, Desired>, id: string): Option<Desired> {
    if id in byId then Some(byId[id]) else None
  }

  /** One reconciler of the set: exactly one child under a desired id, the old one if it
      was alone, and none under another; nothing else is touched. */
  lemma OneIdConverges(m: Manager, w: Worker, known: seq<Found>, d: Option<Desired>, id: string)
    requires m.finalizer == "" && Placid(w) && KnownAsStored(w.session.cluster, known, id)
    requires d.Some? ==> d.value.owned && d.value.id == id
    ensures var want := if d.Some? then WantChild(d.value) else WantNone;
      var did := ChildReconciled(Reconciler(m, Only(id)), w, Some(known), want);
      var c, c' := w.session.cluster, did.worker.session.cluster;
      did.out.Ok? ==>
        && Placid(did.worker) && did.worker.session.local == w.session.local
        && SameBut(c, c', id)
        && |Group(c', id)| == (if d.Some? then 1 else 0)
        && (|Group(c, id)| == 1 && d.Some? ==> Group(c', id) == Group(c, id))
  {
    var mine := Claimed(Only(id), known);
    ClaimedMembers(Only(id), known);
    CleanedGroup(w, known, id);
    var cleaned := Cleaning(w, mine);
    if cleaned.out.Ok? {
      if |mine| == 1 {
        assert mine[0] in mine;
        if d.Some? { UpdatedGroup(m, w, mine[0], d.value); } else { RemovedGroup(w, mine[0], id); }
      } else if d.Some? {
        CreatedGroup(m, cleaned.worker, d.value);
      }
    }

  }

  // ---------- all ids

  lemma RestKeepsKnown(c: Cluster, c': Cluster, known: seq<Found>, id: string, other: string)
    requires SameBut(c, c', id) && other != id
    ensures Group(c', other) == Group(c, other)
    ensures KnownAsStored(c, known, other) ==> KnownAsStored(c', known, other)
  {
    forall u, x: Child | InGroup(x, other) ensures Stored(c', u, x) <==> Stored(c, u, x) {}
    assert forall u | u in Group(c, other) :: Stored(c', u, c.children[u]);
    assert forall u | u in Group(c', other) :: Stored(c, u, c'.children[u]);
  }

  /** Under every listed id: one child if it is desired, the old one if that was alone,
      and no child otherwise. */
  ghost predicate Converged(c: Cluster, c': Cluster, byId: map<string, Desired>, id: string) {
    && |Group(c', id)| == (if id in byId then 1 else 0)
    && (|Group(c, id)| == 1 && id in byId ==> Group(c', id) == Group(c, id))
  }

  /** Children that are not ours, or ours under an id not listed, are as they were. */
  ghost predicate Untouched(c: Cluster, c': Cluster, ids: seq<string>) {
    forall u, x: Child | !(x.owned && x.id in ids) :: Stored(c', u, x) <==> Stored(c, u, x)
  }

  ghost predicate NoRepeats(ids: seq<string>) {
    forall i, j | 0 <= i < j < |ids| :: ids[i] != ids[j]
  }

  lemma {:induction false} MembersConvergeInTurn(m: Manager, w: Worker, entry: Entry, known: seq<Found>,
                                             byId: map<string, Desired>, ids: seq<string>)
    requires m.finalizer == "" && Placid(w) && NoRepeats(ids)
    requires forall id | id in ids :: KnownAsStored(w.session.cluster, known, id)
    requires forall id | id in byId :: byId[id].owned && byId[id].id == id
    ensures var run := Members(m, w, entry, known, byId, false, ids);
      run.out.Ok? ==>
        && (forall id | id in ids :: Converged(w.session.cluster, run.worker.session.cluster, byId, id))
        && Untouched(w.session.cluster, run.worker.session.cluster, ids)
    decreases |ids|
  {
    if |ids| > 0 {
      var id := ids[0];
      var did := ChildReconciled(Reconciler(m, Only(id)), w, Some(known), WantOf(byId, false, id));
      OneIdConverges(m, w, known, DesiredAt(byId, id), id);
      if did.out.Ok? {
        var c, c1 := w.session.cluster, did.worker.session.cluster;
        OthersAsBefore(c, c1, known, ids);
        MembersConvergeInTurn(m, did.worker, Reflect(entry, id, did.out), known, byId, ids[1..]);
        var run := Members(m, w, entry, known, byId, false, ids);
        if run.out.Ok? {
          StepUntouched(c, c1, run.worker.session.cluster, ids);
          StepConverged(c, c1, run.worker.session.cluster, byId, ids);
        }
      }
    }
  }

  lemma OthersAsBefore(c: Cluster, c1: Cluster, known: seq<Found>, ids: seq<string>)
    requires |ids| > 0 && NoRepeats(ids) && SameBut(c, c1, ids[0])
    requires forall id | id in ids :: KnownAsStored(c, known, id)
    ensures NoRepeats(ids[1..])
    ensures forall id | id in ids[1..] :: KnownAsStored(c1, known, id)
  {
    forall other | other in ids[1..] ensures KnownAsStored(c1, known, other) {
      assert other in ids;
      RestKeepsKnown(c, c1, known, ids[0], other);
    }
  }

  lemma StepConverged(c: Cluster, c1: Cluster, c': Cluster, byId: map<string, Desired>, ids: seq<string>)
    requires |ids| > 0 && NoRepeats(ids) && SameBut(c, c1, ids[0])
    requires Converged(c, c1, byId, ids[0]) && Group(c', ids[0]) == Group(c1, ids[0])
    requires forall id | id in ids[1..] :: Converged(c1, c', byId, id)
    ensures forall id | id in ids :: Converged(c, c', byId, id)
  {
    forall id | id in ids ensures Converged(c, c', byId, id) {
      if id != ids[0] {
        assert id in ids[1..];
        RestKeepsKnown(c, c1, [], ids[0], id);
      }
    }
  }

  lemma StepUntouched(c: Cluster, c1: Cluster, c': Cluster, ids: seq<string>)
    requires |ids| > 0 && NoRepeats(ids)
    requires SameBut(c, c1, ids[0]) && Untouched(c1, c', ids[1..])
    ensures Untouched(c, c', ids) && Group(c', ids[0]) == Group(c1, ids[0])
  {
    var id := ids[0];
    assert ids == [id] + ids[1..];
    assert id !in ids[1..];
    assert forall u | u in Group(c1, id) :: Stored(c', u, c1.children[u]);
    assert forall u | u in Group(c', id) :: Stored(c1, u, c'.children[u]);
  }

  lemma SortedNoRepeats(ids: seq<string>)
    requires StrictlySorted(ids)
    ensures NoRepeats(ids)
  {
    forall i, j | 0 <= i < j < |ids| ensures ids[i] != ids[j] {
      LessAsymmetric(ids[i], ids[j]);
    }
  }

  lemma {:induction false} ClaimedTwice(id: string, found: seq<Found>)
    ensures Claimed(Only(id), Claimed(Any, found)) == Claimed(Only(id), found)
  {
    if |found| > 0 {
      var init, last := found[..|found| - 1], found[|found| - 1];
      ClaimedTwice(id, init);
      if last.child.owned {
        assert (Claimed(Any, init) + [last])[..|Claimed(Any, init)|] == Claimed(Any, init);
      } else {
        assert Claimed(Any, found) == Claimed(Any, init);
        assert Claimed(Only(id), found) == Claimed(Only(id), init);
      }
    }
  }

  /** What the pass finds at its start. */
  ghost function KnownOf(c: Cluster): seq<Found> {
    Claimed(Any, Listing(c.children, c.clock))
  }

  lemma ListedAsStored(c: Cluster, id: string)
    requires WellFormed(c)
    ensures KnownAsStored(c, KnownOf(c), id)
    ensures id !in KnownIds(KnownOf(c)) ==> Group(c, id) == {}
  {
    var listed := Listing(c.children, c.clock);
    ListingMembers(c.children, c.clock);
    ClaimedMembers(Any, listed);
    ClaimedMembers(Only(id), listed);
    ClaimedTwice(id, listed);
    ListedOurs(c, Only(id));
    assert OursSet(c, Only(id)) == Group(c, id);
    forall u | u in Group(c, id) ensures id in KnownIds(KnownOf(c)) {
      assert Found(u, c.children[u]) in KnownOf(c);
    }
  }

  /** From any set of children, with surplus, unidentified or unwanted ones: an undisturbed
      pass that succeeds leaves exactly one child of ours under every desired id and none
      under any other, keeps a child that was alone under a desired id, and leaves every
      resource that is not ours as it was. */
  lemma SetConverges(m: Manager, finalizer: string, w: Worker, desired: seq<Desired>)
    requires m.finalizer == "" && Placid(w)
    requires forall d | d in desired :: d.owned
    requires SetReconciled(m, finalizer, w, None, WantChildren(desired)).out.Ok?
    ensures var c, c' := w.session.cluster,
              SetReconciled(m, finalizer, w, None, WantChildren(desired)).worker.session.cluster;
      && ById(desired).Some?
      && (forall id :: Converged(c, c', ById(desired).value, id))
      && forall u, x: Child | !x.owned :: Stored(c', u, x) <==> Stored(c, u, x)
  {
    QuietBegin(w.session.cluster);
    var w1 := Looking(w, None).worker;
    var known := KnownOf(w.session.cluster);
    DesiredByTheirIds(desired);
    var byId := ById(desired).value;
    var ids := Sorted(byId.Keys + KnownIds(known));
    EnterPlacid(w1, finalizer);
    var w2 := w1.(session := Enter(w1.session, finalizer).session);
    MembersConverge(m, w2, known, byId, ids, w.session.cluster);
    MembersReport(m, w2, None, known, byId, false, ids);
  }

  lemma DesiredByTheirIds(desired: seq<Desired>)
    requires ById(desired).Some? && forall d | d in desired :: d.owned
    ensures forall id | id in ById(desired).value :: ById(desired).value[id].owned && ById(desired).value[id].id == id
  {
    ByIdMembers(desired);
    forall id | id in ById(desired).value
      ensures ById(desired).value[id].owned && ById(desired).value[id].id == id
    {
      var i :| 0 <= i < |desired| && desired[i].id == id;
      assert desired[i] in desired;
    }
  }

  /** The members, once the pass has taken its list at c and entered the bracket. */
  lemma MembersConverge(m: Manager, w: Worker, known: seq<Found>, byId: map<string, Desired>, ids: seq<string>, c: Cluster)
    requires m.finalizer == "" && Placid(w) && WellFormed(c) && w.session.cluster.children == c.children
    requires known == KnownOf(c) && ids == Sorted(byId.Keys + KnownIds(known))
    requires forall id | id in byId :: byId[id].owned && byId[id].id == id
    ensures var run := Members(m, w, None, known, byId, false, ids);
      var c' := run.worker.session.cluster;
      run.out.Ok? ==>
        && (forall id :: Converged(c, c', byId, id))
        && forall u, x: Child | !x.owned :: Stored(c', u, x) <==> Stored(c, u, x)
  {
    var c2 := w.session.cluster;
    SortedNoRepeats(ids);
    forall id ensures KnownAsStored(c2, known, id) && (id !in ids ==> Group(c2, id) == {}) {
      ListedAsStored(c, id);
      SameGroup(c, c2, id);
    }
    MembersConvergeInTurn(m, w, None, known, byId, ids);
    var run := Members(m, w, None, known, byId, false, ids);
    if run.out.Ok? {
      ConvergedEverywhere(c, c2, run.worker.session.cluster, byId, ids);
    }
  }

  lemma SameGroup(c: Cluster, c2: Cluster, id: string)
    requires c2.children == c.children
    ensures Group(c2, id) == Group(c, id)
  {
  }

  lemma ConvergedEverywhere(c: Cluster, c2: Cluster, c': Cluster, byId: map<string, Desired>, ids: seq<string>)
    requires c2.children == c.children && Untouched(c2, c', ids)
    requires forall id | id in ids :: Converged(c2, c', byId, id)
    requires forall id | id !in ids :: Group(c2, id) == {} && id !in byId
    ensures forall id :: Converged(c, c', byId, id)
    ensures forall u, x: Child | !x.owned :: Stored(c', u, x) <==> Stored(c, u, x)
  {
    forall id ensures Converged(c, c', byId, id) {
      SameGroup(c, c2, id);
      if id !in ids {
        forall u | u in c'.children ensures !InGroup(c'.children[u], id) {
          assert Stored(c', u, c'.children[u]);
          assert InGroup(c'.children[u], id) ==> Stored(c2, u, c'.children[u]) && u in Group(c2, id);
        }
      }
    }
    assert forall u, x: Child :: Stored(c2, u, x) <==> Stored(c, u, x);
  }

  lemma EnterPlacid(w: Worker, finalizer: string)
    requires Placid(w)
    ensures var r := Enter(w.session, finalizer);
      && r.session.cluster.children == w.session.cluster.children
      && (r.out.Ok? ==> Placid(w.(session := r.session)))
  {
    QuietBegin(w.session.cluster);
  }

  // ---------- an undisturbed pass succeeds

  /** The calls the members make at most: each deletes what it finds, or makes one call. */
  function Calls(known: seq<Found>, ids: seq<string>): nat {
    if |ids| == 0 then 0 else |Claimed(Only(ids[0]), known)| + 1 + Calls(known, ids[1..])
  }

  ghost predicate Increasing(found: seq<Found>) {
    forall i, j | 0 <= i < j < |found| :: found[i].uid < found[j].uid
  }

  lemma CleaningSucceeds(w: Worker, mine: seq<Found>)
    requires WellFormed(w.session.cluster) && Quiet(w.session.cluster) && |mine| <= |w.session.cluster.tape|
    requires Increasing(mine) && forall k | k in mine :: k.uid in w.session.cluster.children
    ensures var r := Cleaning(w, mine);
      r.out.Ok? && |r.worker.session.cluster.tape| >= |w.session.cluster.tape| - (if |mine| == 1 then 0 else |mine|)
  {
    QuietDeletingSucceeds(w, mine);
  }

  lemma ManagedSucceeds(m: Manager, w: Worker, actual: Option<Found>, desired: Option<Desired>)
    requires m.finalizer == "" && (m.tracks ==> m.trackable)
    requires Quiet(w.session.cluster) && |w.session.cluster.tape| > 0
    requires actual.Some? ==> Stored(w.session.cluster, actual.value.uid, actual.value.child)
    ensures var r := Managed(m, w, actual, desired);
      r.out.Ok? && |r.worker.session.cluster.tape| >= |w.session.cluster.tape| - 1
  {
    QuietBegin(w.session.cluster);
  }

  lemma MemberSucceeds(m: Manager, w: Worker, known: seq<Found>, d: Option<Desired>, id: string)
    requires m.finalizer == "" && (m.tracks ==> m.trackable)
    requires Placid(w) && KnownAsStored(w.session.cluster, known, id) && Increasing(Claimed(Only(id), known))
    requires |w.session.cluster.tape| > |Claimed(Only(id), known)|
    ensures var did := ChildReconciled(Reconciler(m, Only(id)), w, Some(known), if d.Some? then WantChild(d.value) else WantNone);
      did.out.Ok? && |did.worker.session.cluster.tape| + |Claimed(Only(id), known)| + 1 >= |w.session.cluster.tape|
  {
    var mine := Claimed(Only(id), known);
    CleanedGroup(w, known, id);
    CleaningSucceeds(w, mine);
    var cleaned := Cleaning(w, mine);
    var actual := if |mine| == 1 then Some(mine[0]) else None;
    ManagedSucceeds(m, cleaned.worker, actual, d);
    var r := Reconciler(m, Only(id));
    var want := if d.Some? then WantChild(d.value) else WantNone;
    ReconciledStays(r, w, Some(known), want);
    assert Reconciled(r, w, Some(known), want) == Settling(r, cleaned.worker, actual, want);
    assert Settling(r, cleaned.worker, actual, want) == ManagedShown(r, cleaned.worker, actual, d);
  }

  lemma {:induction false} MembersSucceed(m: Manager, w: Worker, entry: Entry, known: seq<Found>,
                                          byId: map<string, Desired>, ids: seq<string>)
    requires m.finalizer == "" && (m.tracks ==> m.trackable) && Placid(w) && NoRepeats(ids)
    requires forall id | id in ids :: KnownAsStored(w.session.cluster, known, id) && Increasing(Claimed(Only(id), known))
    requires forall id | id in byId :: byId[id].owned && byId[id].id == id
    requires |w.session.cluster.tape| >= Calls(known, ids)
    ensures Members(m, w, entry, known, byId, false, ids).out.Ok?
    decreases |ids|
  {
    if |ids| > 0 {
      var id := ids[0];
      var did := ChildReconciled(Reconciler(m, Only(id)), w, Some(known), WantOf(byId, false, id));
      MemberSucceeds(m, w, known, DesiredAt(byId, id), id);
      OneIdConverges(m, w, known, DesiredAt(byId, id), id);
      OthersAsBefore(w.session.cluster, did.worker.session.cluster, known, ids);
      assert forall x | x in ids[1..] :: x in ids;
      MembersSucceed(m, did.worker, Reflect(entry, id, did.out), known, byId, ids[1..]);
    }
  }

  /** The premise of SetConverges is met: an undisturbed pass succeeds when the desired ids
      are in order, the child can be tracked, the local copy is the stored parent, and the
      pass is not cut short. */
  lemma SetSucceeds(m: Manager, finalizer: string, w: Worker, desired: seq<Desired>)
    requires m.finalizer == "" && (m.tracks ==> m.trackable) && Placid(w)
    requires w.session.cluster.parent == Some(w.session.local)
    requires ById(desired).Some? && forall d | d in desired :: d.owned
    requires var known := KnownOf(w.session.cluster);
      |w.session.cluster.tape| >= 2 + Calls(known, Sorted(ById(desired).value.Keys + KnownIds(known)))
    ensures SetReconciled(m, finalizer, w, None, WantChildren(desired)).out.Ok?
  {
    var c := w.session.cluster;
    QuietBegin(c);
    assert Looking(w, None).out == Ok(Listing(c.children, c.clock));
    ComposedSucceeds(m, finalizer, Looking(w, None).worker, c, desired);
  }

  /** The rest of the pass, with the list taken at c. */
  lemma ComposedSucceeds(m: Manager, finalizer: string, w: Worker, c: Cluster, desired: seq<Desired>)
    requires m.finalizer == "" && (m.tracks ==> m.trackable) && Placid(w)
    requires w.session.cluster.parent == Some(w.session.local) && WellFormed(c) && w.session.cluster.children == c.children
    requires ById(desired).Some? && forall d | d in desired :: d.owned
    requires |w.session.cluster.tape| >= 1 + Calls(KnownOf(c), Sorted(ById(desired).value.Keys + KnownIds(KnownOf(c))))
    ensures Composed(m, finalizer, w, None, KnownOf(c), WantChildren(desired)).out.Ok?
  {
    DesiredByTheirIds(desired);
    SortedNoRepeats(Sorted(ById(desired).value.Keys + KnownIds(KnownOf(c))));
    EnteredSucceeds(m, finalizer, w, c, ById(desired).value, Sorted(ById(desired).value.Keys + KnownIds(KnownOf(c))));
  }

  lemma EnteredSucceeds(m: Manager, finalizer: string, w: Worker, c: Cluster, byId: map<string, Desired>, ids: seq<string>)
    requires m.finalizer == "" && (m.tracks ==> m.trackable) && Placid(w) && NoRepeats(ids)
    requires w.session.cluster.parent == Some(w.session.local) && WellFormed(c) && w.session.cluster.children == c.children
    requires forall id | id in byId :: byId[id].owned && byId[id].id == id
    requires |w.session.cluster.tape| >= 1 + Calls(KnownOf(c), ids)
    ensures Bracketed(m, finalizer, w, None, KnownOf(c), byId, false, ids).out.Ok?
  {
    EnterSucceeds(w, finalizer);
    EnterPlacid(w, finalizer);
    KnownInOrder(c, Enter(w.session, finalizer).session.cluster);
    BracketSucceeds(m, finalizer, w, KnownOf(c), byId, ids);
  }

  lemma KnownInOrder(c: Cluster, c2: Cluster)
    requires WellFormed(c) && c2.children == c.children
    ensures forall id :: KnownAsStored(c2, KnownOf(c), id) && Increasing(Claimed(Only(id), KnownOf(c)))
  {
    forall id ensures KnownAsStored(c2, KnownOf(c), id) && Increasing(Claimed(Only(id), KnownOf(c))) {
      ListedAsStored(c, id);
      SameGroup(c, c2, id);
      ClaimedTwice(id, Listing(c.children, c.clock));
      ClaimedIncreasing(c.children, Only(id), c.clock);
    }
  }

  lemma BracketSucceeds(m: Manager, finalizer: string, w: Worker, known: seq<Found>,
                        byId: map<string, Desired>, ids: seq<string>)
    requires m.finalizer == "" && (m.tracks ==> m.trackable) && NoRepeats(ids)
    requires forall id | id in byId :: byId[id].owned && byId[id].id == id
    requires var entered := Enter(w.session, finalizer);
      var w1 := w.(session := entered.session);
      && entered.out.Ok? && Placid(w1) && |w1.session.cluster.tape| >= Calls(known, ids)
      && forall id :: KnownAsStored(w1.session.cluster, known, id) && Increasing(Claimed(Only(id), known))
    ensures Bracketed(m, finalizer, w, None, known, byId, false, ids).out.Ok?
  {
    var w1 := w.(session := Enter(w.session, finalizer).session);
    MembersSucceed(m, w1, None, known, byId, ids);
    MembersReport(m, w1, None, known, byId, false, ids);
  }

  lemma EnterSucceeds(w: Worker, finalizer: string)
    requires Placid(w) && w.session.cluster.parent == Some(w.session.local) && |w.session.cluster.tape| > 0
    ensures var r := Enter(w.session, finalizer);
      r.out.Ok? && |r.session.cluster.tape| >= |w.session.cluster.tape| - 1
  {
    QuietBegin(w.session.cluster);
  }
}
