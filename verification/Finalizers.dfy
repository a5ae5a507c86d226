/** reconcilers/finalizer.go: patching one finalizer under an optimistic lock, and
    WithFinalizer nested to any depth. */
module Finalizers {
  import opened Basics
  import opened Api

  /** The stored cluster and the worker's own copy of the parent. */
  datatype Session = Session(cluster: Cluster, local: Parent)

  datatype Ran<+T> = Ran(session: Session, out: Outcome<T>)

  // ---------- specification

  function Ensure(s: Session, name: string, add: bool): Ran<()> {
    if name == "" || (name in s.local.finalizers) == add then Ran(s, Ok(()))
    else
      var fins := if add then s.local.finalizers + [name] else Without(s.local.finalizers, name);
      var (c, reply) := PatchFinalizers(s.cluster, s.local.version, fins);
      match reply
      case Err(e) => Ran(s.(cluster := c), Err(e))
      case Ok(stored) =>
        Ran(Session(c, s.local.(version := stored.version, finalizers := stored.finalizers)), Ok(()))
  }

  datatype Call = Call(name: string, add: bool)

  function EnsureAll(s: Session, calls: seq<Call>): Ran<()>
    decreases |calls|
  {
    if |calls| == 0 then Ran(s, Ok(()))
    else
      var r := Ensure(s, calls[0].name, calls[0].add);
      if r.out.Err? then r else EnsureAll(r.session, calls[1..])
  }

  /** A tower of WithFinalizer around a reconciler that makes some finalizer calls of
      its own and then does work that may fail. */
  datatype Nest = Inner(calls: seq<Call>) | WithFinalizer(finalizer: string, reconciler: Nest)

  function Enter(s: Session, name: string): Ran<()> {
    if s.local.terminating then Ran(s, Ok(())) else Ensure(s, name, true)
  }

  function RunNest(s: Session, n: Nest): Ran<()>
    decreases n
  {
    match n
    case Inner(calls) =>
      var r := EnsureAll(s, calls);
      if r.out.Err? then r
      else
        var (c, fate) := Begin(r.session.cluster);
        Ran(r.session.(cluster := c), if fate.Done? then Ok(()) else Err(fate.error))
    case WithFinalizer(name, inner) =>
      var entered := Enter(s, name);
      if entered.out.Err? then entered
      else
        var r := RunNest(entered.session, inner);
        if r.out.Err? || !r.session.local.terminating then r
        else Ensure(r.session, name, false)
  }

  /** One request: load the parent, skip it when nothing is left to finalize, reconcile. */
  function Request(c: Cluster, n: Nest): Cluster {
    var (c1, reply) := GetParent(c);
    match reply
    case Err(_) => c1
    case Ok(p) =>
      if p.terminating && |p.finalizers| == 0 then c1
      else RunNest(Session(c1, p), n).session.cluster
  }

  /** Between two requests the outside world is idle or busy; each request gets a tape. */
  datatype Round = Round(idle: seq<EnvStep>, tape: seq<Moment>)

  function Requests(c: Cluster, n: Nest, rounds: seq<Round>): Cluster
    decreases |rounds|
  {
    if |rounds| == 0 then c
    else Requests(Request(HappenAll(c, rounds[0].idle).(tape := rounds[0].tape), n), n, rounds[1..])
  }

  // ---------- the code

  /** The reconciled resource as the worker holds it in memory. */
  class Resource {
    var version: nat
    var terminating: bool
    var finalizers: seq<string>

    constructor (p: Parent)
      ensures Copy() == p
    {
      version, terminating, finalizers := p.version, p.terminating, p.finalizers;
    }

    function Copy(): Parent
      reads this
    {
      Parent(version, terminating, finalizers)
    }
  }

  method EnsureFinalizer(server: Server, current: Resource, finalizer: string, add: bool) returns (out: Outcome<()>)
    modifies server, current
    ensures Ran(Session(server.cluster, current.Copy()), out)
         == old(Ensure(Session(server.cluster, current.Copy()), finalizer, add))
  {
    if finalizer == "" || (finalizer in current.finalizers) == add {
      return Ok(());
    }
    var desired := if add then current.finalizers + [finalizer] else Without(current.finalizers, finalizer);
    var reply := server.Patch(current.version, desired);
    if reply.Err? {
      return Err(reply.error);
    }
    current.finalizers := reply.value.finalizers;
    current.version := reply.value.version;
    return Ok(());
  }

  method EnsureEach(server: Server, current: Resource, calls: seq<Call>) returns (out: Outcome<()>)
    modifies server, current
    ensures Ran(Session(server.cluster, current.Copy()), out)
         == old(EnsureAll(Session(server.cluster, current.Copy()), calls))
  {
    for i := 0 to |calls|
      invariant old(EnsureAll(Session(server.cluster, current.Copy()), calls))
             == EnsureAll(Session(server.cluster, current.Copy()), calls[i..])
    {
      out := EnsureFinalizer(server, current, calls[i].name, calls[i].add);
      assert calls[i..][0] == calls[i] && calls[i..][1..] == calls[i + 1..];
      if out.Err? {
        return;
      }
    }
    return Ok(());
  }

  method Reconcile(n: Nest, server: Server, resource: Resource) returns (out: Outcome<()>)
    modifies server, resource
    ensures Ran(Session(server.cluster, resource.Copy()), out)
         == old(RunNest(Session(server.cluster, resource.Copy()), n))
    decreases n
  {
    match n
    case Inner(calls) =>
      out := EnsureEach(server, resource, calls);
      if out.Ok? {
        var (c, fate) := Begin(server.cluster);
        server.cluster := c;
        out := if fate.Done? then Ok(()) else Err(fate.error);
      }
    case WithFinalizer(name, inner) =>
      if !resource.terminating {
        out := EnsureFinalizer(server, resource, name, true);
        if out.Err? {
          return;
        }
      }
      out := Reconcile(inner, server, resource);
      if out.Err? {
        return;
      }
      if resource.terminating {
        out := EnsureFinalizer(server, resource, name, false);
      }
  }

  // ---------- what the worker knows about the stored parent

  /** The worker's copy names exactly our finalizers that are stored, and an equal
      version means an equal parent. */
  ghost predicate Synced(s: Session) {
    && WellFormed(s.cluster)
    && s.local.version < s.cluster.clock
    && Project(s.local.finalizers, s.cluster.reserved) == Reserved(s.cluster)
    && (s.cluster.parent.Some? && s.cluster.parent.value.version == s.local.version ==>
          s.cluster.parent.value == s.local)
  }

  lemma DriftsSynced(s: Session, c: Cluster)
    requires Synced(s) && Drifts(s.cluster, c)
    ensures Synced(s.(cluster := c))
  {
  }

  lemma FreshSynced(c: Cluster)
    requires WellFormed(c)
    ensures var (c1, reply) := GetParent(c);
      Evolves(c, c1) && (reply.Ok? ==> c1.parent == Some(reply.value) && Synced(Session(c1, reply.value)))
  {
    BeginEvolves(c);
  }

  /** What a call that succeeds does to our finalizers. */
  function AfterEnsure(ours: seq<string>, reserved: set<string>, name: string, add: bool): seq<string> {
    if name == "" || name !in reserved || (name in ours) == add then ours
    else if add then ours + [name]
    else Without(ours, name)
  }

  function CalledOn(finalizers: seq<string>, k: Call): seq<string> {
    if k.name == "" || (k.name in finalizers) == k.add then finalizers
    else if k.add then finalizers + [k.name]
    else Without(finalizers, k.name)
  }

  lemma CalledOnProjects(finalizers: seq<string>, k: Call, keep: set<string>)
    requires k.name != "" && (k.name in finalizers) != k.add
    ensures Project(CalledOn(finalizers, k), keep) == AfterEnsure(Project(finalizers, keep), keep, k.name, k.add)
  {
    if k.add {
      ProjectAppend(finalizers, k.name, keep);
    } else {
      ProjectWithout(finalizers, k.name, keep);
      if k.name !in keep {
        WithoutAbsent(Project(finalizers, keep), k.name);
      }
    }
  }

  /** A call either changes our finalizers as asked or leaves them; when it succeeds the
      worker knows which, and when its reply is lost or it is refused the pass is over. */
  lemma EnsureKeeps(s: Session, name: string, add: bool)
    requires Synced(s)
    ensures var r := Ensure(s, name, add);
      var target := AfterEnsure(Reserved(s.cluster), s.cluster.reserved, name, add);
      && WellFormed(r.session.cluster)
      && r.session.cluster.reserved == s.cluster.reserved
      && OwnedShrink(s.cluster, r.session.cluster)
      && r.session.local.terminating == s.local.terminating
      && (Reserved(r.session.cluster) == Reserved(s.cluster) || Reserved(r.session.cluster) == target)
      && (r.out.Ok? ==> Synced(r.session) && Reserved(r.session.cluster) == target)
  {
    if name != "" && (name in s.local.finalizers) != add {
      PatchEffect(s.cluster, s.local.version, CalledOn(s.local.finalizers, Call(name, add)));
      CalledOnProjects(s.local.finalizers, Call(name, add), s.cluster.reserved);
    }
  }

  // ---------- what the worker knows about one finalizer

  function StoredFinalizers(c: Cluster): seq<string> {
    if c.parent.None? then [] else c.parent.value.finalizers
  }

  /** An equal version means an equal parent; this holds at every point of a pass. */
  ghost predicate Versioned(s: Session) {
    && WellFormed(s.cluster)
    && s.local.version < s.cluster.clock
    && (s.cluster.parent.Some? && s.cluster.parent.value.version == s.local.version ==> s.cluster.parent.value == s.local)
  }

  /** The worker knows whether f is set. */
  ghost predicate Informed(s: Session, f: string) {
    f in s.local.finalizers <==> f in StoredFinalizers(s.cluster)
  }

  lemma DriftsVersioned(s: Session, c: Cluster, f: string)
    requires Versioned(s) && Drifts(s.cluster, c) && f in c.reserved
    ensures Versioned(s.(cluster := c))
    ensures f in StoredFinalizers(c) <==> f in StoredFinalizers(s.cluster)
  {
    assert f in Reserved(c) <==> f in Reserved(s.cluster);
  }

  /** A call that names f sets it as asked or leaves it; when it succeeds the worker knows.
      Any other call leaves f alone, however it ends. */
  lemma EnsureOne(s: Session, f: string, name: string, add: bool)
    requires Versioned(s) && f in s.cluster.reserved
    ensures var r := Ensure(s, name, add);
      var before, after := f in StoredFinalizers(s.cluster), f in StoredFinalizers(r.session.cluster);
      && Versioned(r.session)
      && r.session.cluster.reserved == s.cluster.reserved
      && OwnedShrink(s.cluster, r.session.cluster)
      && r.session.local.terminating == s.local.terminating
      && (after == before || (name == f && after == add))
      && (Informed(s, f) && (name != f || r.out.Ok?) ==> Informed(r.session, f))
      && (Informed(s, f) && name == f && f != "" && r.out.Ok? ==> after == add)
  {
    if name != "" && (name in s.local.finalizers) != add {
      var fins := if add then s.local.finalizers + [name] else Without(s.local.finalizers, name);
      PatchEffect(s.cluster, s.local.version, fins);
      DriftsVersioned(s, Begin(s.cluster).0, f);
      assert f != name ==> (f in fins <==> f in s.local.finalizers);
    }
  }

  // ---------- no update is lost

  /** Although the patch replaces the whole list, an accepted call changes one finalizer
      and keeps every other one, in order, as stored when the server took it up; a stale
      copy is refused, whatever it is wrong about; and a refused call changes neither side. */
  lemma NoLostUpdate(s: Session, name: string, add: bool)
    requires Versioned(s)
    requires name != "" && (name in s.local.finalizers) != add
    ensures var c1 := Begin(s.cluster).0;
      var r := Ensure(s, name, add);
      var accepted := r.session.cluster.writes != s.cluster.writes;
      && (accepted ==>
            && Without(StoredFinalizers(r.session.cluster), name) == Without(StoredFinalizers(c1), name)
            && (name in StoredFinalizers(r.session.cluster)) == add)
      && (!accepted ==> r.session == s.(cluster := c1) && r.out.Err?)
      && (c1.parent.None? || c1.parent.value.version != s.local.version ==> !accepted)
      && (r.out.Ok? ==> accepted && r.session.local.finalizers == StoredFinalizers(r.session.cluster))
  {
    var fins := s.local.finalizers;
    PatchEffect(s.cluster, s.local.version, if add then fins + [name] else Without(fins, name));
    if add {
      WithoutAppend(fins, name, name);
    } else {
      WithoutAbsent(Without(fins, name), name);
    }
  }

  /** The worker's copy is the stored parent, or the parent is gone because its last
      finalizer was cleared. */
  ghost predicate Mirrors(s: Session) {
    && WellFormed(s.cluster)
    && (s.cluster.parent == Some(s.local)
        || (s.cluster.parent.None? && s.local.terminating && s.local.finalizers == []))
  }

  /** No call adds a finalizer that a parent being deleted does not have any more. */
  predicate InTime(terminating: bool, finalizers: seq<string>, calls: seq<Call>)
    decreases |calls|
  {
    |calls| > 0 ==>
      && !(terminating && calls[0].add && calls[0].name != "" && calls[0].name !in finalizers)
      && InTime(terminating, CalledOn(finalizers, calls[0]), calls[1..])
  }

  function CalledAll(finalizers: seq<string>, calls: seq<Call>): seq<string>
    decreases |calls|
  {
    if |calls| == 0 then finalizers else CalledAll(CalledOn(finalizers, calls[0]), calls[1..])
  }

  /** Without outside writers a run of calls succeeds exactly when none has a finalizer to
      add to a parent that is being deleted or was released. Then every call had its effect,
      and both sides are equal. */
  lemma {:induction false} CallsSucceed(s: Session, calls: seq<Call>)
    requires Mirrors(s) && Quiet(s.cluster) && |calls| <= |s.cluster.tape|
    ensures var r := EnsureAll(s, calls);
      && (r.out.Ok? <==> InTime(s.local.terminating, s.local.finalizers, calls))
      && (r.out.Ok? ==>
            && Mirrors(r.session) && r.session.local.terminating == s.local.terminating
            && r.session.local.finalizers == CalledAll(s.local.finalizers, calls))
    decreases |calls|
  {
    if |calls| > 0 {
      QuietBegin(s.cluster);
      var r := Ensure(s, calls[0].name, calls[0].add);
      if r.out.Ok? {
        assert Mirrors(r.session) && Quiet(r.session.cluster);
        CallsSucceed(r.session, calls[1..]);
      }
    }
  }

  // ---------- bracket discipline

  function Names(n: Nest): seq<string> {
    match n
    case Inner(_) => []
    case WithFinalizer(name, inner) => [name] + Names(inner)
  }

  function InnerCalls(n: Nest): seq<Call> {
    match n
    case Inner(calls) => calls
    case WithFinalizer(_, inner) => InnerCalls(inner)
  }

  ghost predicate Distinct(names: seq<string>) {
    "" !in names && forall i, j | 0 <= i < j < |names| :: names[i] != names[j]
  }

  /** all are the names of the whole tower, distinct and written by nobody else; n is the
      part of it below the first depth levels. */
  ghost predicate TowerOf(c: Cluster, all: seq<string>, depth: nat, n: Nest) {
    && Distinct(all) && depth <= |all| && Names(n) == all[depth..]
    && (forall x :: x in c.reserved <==> x in all)
    && forall k | k in InnerCalls(n) :: k.name !in c.reserved
  }

  lemma {:induction false} ForeignCallsKeep(s: Session, calls: seq<Call>)
    requires Synced(s)
    requires forall k | k in calls :: k.name !in s.cluster.reserved
    ensures var r := EnsureAll(s, calls);
      && WellFormed(r.session.cluster)
      && r.session.cluster.reserved == s.cluster.reserved
      && Reserved(r.session.cluster) == Reserved(s.cluster)
      && r.session.local.terminating == s.local.terminating
      && (r.out.Ok? ==> Synced(r.session))
    decreases |calls|
  {
    if |calls| > 0 {
      assert calls[0] in calls;
      EnsureKeeps(s, calls[0].name, calls[0].add);
      var r := Ensure(s, calls[0].name, calls[0].add);
      if r.out.Ok? {
        assert forall k | k in calls[1..] :: k in calls;
        ForeignCallsKeep(r.session, calls[1..]);
      }
    }
  }

  /** What holds of a pass below the first depth levels, on the way in. */
  ghost predicate AtLevel(s: Session, all: seq<string>, depth: nat, n: Nest) {
    && Synced(s) && TowerOf(s.cluster, all, depth, n)
    && Reserved(s.cluster) <= all
    && (!s.local.terminating ==> depth <= |Reserved(s.cluster)|)
  }

  /** What holds once the levels below depth have returned. */
  ghost predicate LeftLevel(s: Session, r: Ran<()>, all: seq<string>, depth: nat) {
    && WellFormed(r.session.cluster)
    && r.session.cluster.reserved == s.cluster.reserved
    && r.session.local.terminating == s.local.terminating
    && Reserved(r.session.cluster) <= all
    && (r.out.Ok? ==>
          && Synced(r.session)
          && (if s.local.terminating
              then |Reserved(r.session.cluster)| <= depth
              else Reserved(r.session.cluster) == all))
  }

  lemma EnterLevel(s: Session, all: seq<string>, depth: nat, name: string, inner: Nest)
    requires AtLevel(s, all, depth, WithFinalizer(name, inner))
    ensures var r := Enter(s, name);
      && WellFormed(r.session.cluster)
      && r.session.cluster.reserved == s.cluster.reserved
      && r.session.local.terminating == s.local.terminating
      && Reserved(r.session.cluster) <= all
      && (r.out.Ok? ==> AtLevel(r.session, all, depth + 1, inner))
  {
    NextName(all, depth, name, inner);
    if !s.local.terminating {
      EnsureKeeps(s, name, true);
      AddExtendsPrefix(Reserved(s.cluster), all, depth);
    }
  }

  lemma NextName(all: seq<string>, depth: nat, name: string, inner: Nest)
    requires depth <= |all| && Names(WithFinalizer(name, inner)) == all[depth..]
    ensures depth < |all| && all[depth] == name && name in all && Names(inner) == all[depth + 1..]
  {
    assert all[depth..][0] == name && all[depth..][1..] == all[depth + 1..];
  }

  lemma LeaveLevel(s: Session, all: seq<string>, depth: nat, name: string, inner: Nest)
    requires Synced(s) && TowerOf(s.cluster, all, depth, WithFinalizer(name, inner)) && s.local.terminating
    requires Reserved(s.cluster) <= all && |Reserved(s.cluster)| <= depth + 1
    ensures LeftLevel(s, Ensure(s, name, false), all, depth)
  {
    NextName(all, depth, name, inner);
    ClearShortensPrefix(Reserved(s.cluster), all, depth);
    EnsureKeeps(s, name, false);
    assert AfterEnsure(Reserved(s.cluster), s.cluster.reserved, name, false) <= all;
  }

  lemma InnerLevel(s: Session, all: seq<string>, depth: nat, calls: seq<Call>)
    requires AtLevel(s, all, depth, Inner(calls))
    ensures LeftLevel(s, RunNest(s, Inner(calls)), all, depth)
  {
    ForeignCallsKeep(s, calls);
    assert |all[depth..]| == 0;
    var r := EnsureAll(s, calls);
    if r.out.Ok? {
      BeginEvolves(r.session.cluster);
      DriftsSynced(r.session, Begin(r.session.cluster).0);
    }
  }

  lemma LevelReturns(s: Session, s1: Session, all: seq<string>, depth: nat, name: string, inner: Nest)
    requires AtLevel(s, all, depth, WithFinalizer(name, inner)) && Enter(s, name) == Ran(s1, Ok(()))
    requires s1.cluster.reserved == s.cluster.reserved && s1.local.terminating == s.local.terminating
    requires LeftLevel(s1, RunNest(s1, inner), all, depth + 1)
    ensures LeftLevel(s, RunNest(s, WithFinalizer(name, inner)), all, depth)
  {
    var r := RunNest(s1, inner);
    if r.out.Ok? && s.local.terminating {
      LeaveLevel(r.session, all, depth, name, inner);
    }
  }

  /** The stored finalizers of the tower stay a prefix of its names whatever happens at any
      call; a level that succeeds leaves all of them on a parent that stays, and at most
      those of the levels around it on a parent being deleted. */
  lemma {:induction false} NestKeepsPrefix(s: Session, all: seq<string>, depth: nat, n: Nest)
    requires AtLevel(s, all, depth, n)
    ensures LeftLevel(s, RunNest(s, n), all, depth)
    decreases n
  {
    match n
    case Inner(calls) =>
      InnerLevel(s, all, depth, calls);
    case WithFinalizer(name, inner) =>
      EnterLevel(s, all, depth, name, inner);
      var entered := Enter(s, name);
      if entered.out.Ok? {
        NestKeepsPrefix(entered.session, all, depth + 1, inner);
        LevelReturns(s, entered.session, all, depth, name, inner);
      }
  }

  lemma AddExtendsPrefix(ours: seq<string>, all: seq<string>, i: nat)
    requires Distinct(all) && ours <= all && i <= |ours| && i < |all|
    ensures if all[i] in ours then i < |ours| else ours + [all[i]] <= all
  {
    assert forall k | 0 <= k < |ours| :: ours[k] == all[k];
  }

  lemma ClearShortensPrefix(ours: seq<string>, all: seq<string>, i: nat)
    requires Distinct(all) && ours <= all && |ours| <= i + 1 && i < |all|
    ensures var after := if all[i] in ours then Without(ours, all[i]) else ours;
      after <= all && |after| <= i
  {
    assert forall k | 0 <= k < |ours| :: ours[k] == all[k];
    if |ours| == i + 1 {
      assert ours == all[..i] + [all[i]] && ours[i] == all[i];
      WithoutAppend(all[..i], all[i], all[i]);
      WithoutAbsent(all[..i], all[i]);
    }
  }

  lemma RequestKeepsPrefix(c: Cluster, n: Nest)
    requires WellFormed(c) && TowerOf(c, Names(n), 0, n) && Reserved(c) <= Names(n)
    ensures var c' := Request(c, n);
      WellFormed(c') && c'.reserved == c.reserved && Reserved(c') <= Names(n)
  {
    FreshSynced(c);
    var (c1, reply) := GetParent(c);
    assert Names(n)[0..] == Names(n);
    if reply.Ok? && !(reply.value.terminating && |reply.value.finalizers| == 0) {
      NestKeepsPrefix(Session(c1, reply.value), Names(n), 0, n);
    }
  }

  /** From a parent that carries none of them, the tower's finalizers on the server are
      always a prefix of the outer-to-inner list: after any number of requests, with any
      calls refused or lost, any outside steps between them, and a crash anywhere. */
  lemma {:induction false} BracketDiscipline(c: Cluster, n: Nest, rounds: seq<Round>)
    requires WellFormed(c) && TowerOf(c, Names(n), 0, n) && Reserved(c) <= Names(n)
    ensures Reserved(Requests(c, n, rounds)) <= Names(n)
    decreases |rounds|
  {
    if |rounds| > 0 {
      var c1 := HappenAll(c, rounds[0].idle);
      HappenAllEvolves(c, rounds[0].idle);
      RequestKeepsPrefix(c1.(tape := rounds[0].tape), n);
      BracketDiscipline(Request(c1.(tape := rounds[0].tape), n), n, rounds[1..]);
    }
  }

  /** A tower that succeeds leaves every finalizer on a parent that stays and none on a
      parent that is going. */
  lemma TowerOutcome(s: Session, n: Nest)
    requires Synced(s) && TowerOf(s.cluster, Names(n), 0, n) && Reserved(s.cluster) <= Names(n)
    requires RunNest(s, n).out.Ok?
    ensures Reserved(RunNest(s, n).session.cluster) == if s.local.terminating then [] else Names(n)
  {
    assert Names(n)[0..] == Names(n);
    NestKeepsPrefix(s, Names(n), 0, n);
  }
}
