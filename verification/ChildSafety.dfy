/** The finalizer of a ChildReconciler protects its children: no live child is ever left
    behind, and a parent being deleted is always released in the end. */
module ChildSafety {
  import opened Basics
  import opened Api
  import opened Patches
  import opened Finalizers
  import opened ResourceManagers
  import opened ChildReconcilers

  ghost predicate LiveOurs(c: Cluster, claim: Claim, u: Uid) {
    Live(c, u) && Ours(claim, c.children[u])
  }

  /** Every live child of the claim has a parent that carries the finalizer. */
  ghost predicate NoOrphan(c: Cluster, claim: Claim, f: string) {
    forall u | LiveOurs(c, claim, u) :: c.parent.Some? && f in c.parent.value.finalizers
  }

  /** Between calls: the worker knows whether the finalizer is set. */
  ghost predicate Safe(w: Worker, claim: Claim, f: string) {
    Versioned(w.session) && Informed(w.session, f) && SafeCluster(w.session.cluster, claim, f)
  }

  ghost predicate SafeCluster(c: Cluster, claim: Claim, f: string) {
    WellFormed(c) && f != "" && f in c.reserved && NoOrphan(c, claim, f)
  }

  /** The list holds every live child of ours, as live and under its id. */
  ghost predicate Saw(c: Cluster, found: seq<Found>) {
    forall u | Live(c, u) ::
      exists k | k in found :: k.uid == u && k.child.owned && k.child.id == c.children[u].id && !k.child.terminating
  }

  // ---------- one call at a time

  lemma DriftsSafe(w: Worker, c: Cluster, claim: Claim, f: string)
    requires Safe(w, claim, f) && Drifts(w.session.cluster, c)
    ensures Safe(OnCluster(w, c), claim, f)
  {
    DriftsVersioned(w.session, c, f);
    assert f in Reserved(w.session.cluster) <==> f in Reserved(c);
    assert forall u | LiveOurs(c, claim, u) :: LiveOurs(w.session.cluster, claim, u);
  }

  lemma DriftsSaw(c: Cluster, c': Cluster, found: seq<Found>)
    requires Saw(c, found) && Drifts(c, c')
    ensures Saw(c', found)
  {
    assert forall u | Live(c', u) :: Live(c, u) && c.children[u].id == c'.children[u].id;
  }

  lemma LookingSees(w: Worker, known: Option<seq<Found>>)
    requires WellFormed(w.session.cluster)
    ensures var r := Looking(w, known);
      Drifts(w.session.cluster, r.worker.session.cluster) && r.worker == OnCluster(w, r.worker.session.cluster)
      && (r.out.Ok? && (known.Some? ==> Saw(w.session.cluster, known.value)) ==> Saw(r.worker.session.cluster, r.out.value))
  {
    if known.None? {
      BeginEvolves(w.session.cluster);
      var c := Begin(w.session.cluster).0;
      ListingMembers(c.children, c.clock);
      forall u | Live(c, u) ensures Found(u, c.children[u]) in Listing(c.children, c.clock) {}
    }
  }

  lemma {:induction false} ClaimedMembers(claim: Claim, found: seq<Found>)
    ensures forall k :: k in Claimed(claim, found) <==> k in found && Ours(claim, k.child)
  {
    if |found| > 0 {
      ClaimedMembers(claim, found[..|found| - 1]);
      assert found == found[..|found| - 1] + [found[|found| - 1]];
    }
  }

  lemma {:induction false} DeletingDrifts(w: Worker, extras: seq<Found>)
    requires WellFormed(w.session.cluster)
    ensures var r := Deleting(w, extras);
      && Drifts(w.session.cluster, r.worker.session.cluster) && r.worker == OnCluster(w, r.worker.session.cluster)
      && (r.out.Ok? ==> forall k | k in extras :: !Live(r.worker.session.cluster, k.uid))
    decreases |extras|
  {
    if |extras| > 0 {
      var (c, reply) := DeleteChild(w.session.cluster, extras[0].uid);
      DeleteDrifts(w.session.cluster, extras[0].uid);
      if reply.Ok? {
        DeletingDrifts(OnCluster(w, c), extras[1..]);
        DriftsTrans(w.session.cluster, c, Deleting(w, extras).worker.session.cluster);
        assert extras == [extras[0]] + extras[1..];
      }
    }
  }

  /** A finalizer call with nothing live to protect, or one that adds, is safe even when
      its reply is lost. */
  lemma EnsureSafe(w: Worker, claim: Claim, f: string, name: string, add: bool)
    requires Safe(w, claim, f) && (name == f || name == "")
    requires name == f && !add ==> forall u :: !LiveOurs(w.session.cluster, claim, u)
    ensures var r := Ensure(w.session, name, add);
      var w' := w.(session := r.session);
      && SafeCluster(r.session.cluster, claim, f)
      && r.session.cluster.reserved == w.session.cluster.reserved
      && r.session.local.terminating == w.session.local.terminating
      && (name == "" ==> w' == w)
      && (r.out.Ok? ==> Safe(w', claim, f) && (name == f ==> (f in r.session.local.finalizers) == add))
  {
    EnsureOne(w.session, f, name, add);
    assert forall u | LiveOurs(Ensure(w.session, name, add).session.cluster, claim, u) :: LiveOurs(w.session.cluster, claim, u);
  }

  lemma CreatingSafe(m: Manager, w: Worker, d: Desired, claim: Claim, f: string)
    requires Safe(w, claim, f) && f in w.session.local.finalizers
    ensures var r := Creating(m, w, d);
      Safe(r.worker, claim, f) && r.worker == OnCluster(w, r.worker.session.cluster)
      && r.worker.session.cluster.reserved == w.session.cluster.reserved
  {
    var c := w.session.cluster;
    var c' := CreateChild(c, d).0;
    CreateEffect(c, d);
    var c1 := Begin(c).0;
    assert f in Reserved(c);
    if c' == c1 {
      DriftsSafe(w, c', claim, f);
    } else {
      DriftsSafe(w, c'.(children := c'.children - {c1.clock}), claim, f);
      assert f in Reserved(c');
    }
  }

  lemma UpdatingSafe(m: Manager, w: Worker, a: Found, d: Desired, claim: Claim, f: string)
    requires Safe(w, claim, f)
    ensures var r := Updating(m, w, a, d);
      Safe(r.worker, claim, f) && r.worker.session == w.session.(cluster := r.worker.session.cluster)
      && r.worker.session.cluster.reserved == w.session.cluster.reserved
  {
    var sent := Proposal(m, w.cache, a, d);
    UpdateDrifts(w.session.cluster, a.uid, a.child.version, sent);
    DriftsSafe(w, UpdateChild(w.session.cluster, a.uid, a.child.version, sent).0, claim, f);
  }

  /** Manage keeps every live child protected: with its own finalizer f, or with none
      under an enclosing reconciler that holds f. */
  lemma ManagedSafe(m: Manager, w: Worker, actual: Option<Found>, desired: Option<Desired>, claim: Claim, f: string)
    requires Safe(w, claim, f) && (m.finalizer == f || m.finalizer == "")
    requires m.finalizer == "" && desired.Some? ==> f in w.session.local.finalizers
    requires m.finalizer == f && actual.None? && desired.None? ==> forall u :: !LiveOurs(w.session.cluster, claim, u)
    ensures var r := Managed(m, w, actual, desired);
      && SafeCluster(r.worker.session.cluster, claim, f)
      && r.worker.session.cluster.reserved == w.session.cluster.reserved
      && r.worker.session.local.terminating == w.session.local.terminating
      && (r.out.Ok? || m.finalizer == "" ==> Safe(r.worker, claim, f))
      && (m.finalizer == "" ==> r.worker.session.local == w.session.local)
      && (m.finalizer == "" && desired.None? ==>
            Drifts(w.session.cluster, r.worker.session.cluster)
            && (r.out.Ok? && actual.Some? && !actual.value.child.terminating ==>
                  !Live(r.worker.session.cluster, actual.value.uid)))
  {
    if desired.None? {
      if actual.None? {
        EnsureSafe(w, claim, f, m.finalizer, false);
      } else if !actual.value.child.terminating {
        DeleteDrifts(w.session.cluster, actual.value.uid);
        DriftsSafe(w, Removing(w, actual.value).worker.session.cluster, claim, f);
      }
    } else {
      EnsureSafe(w, claim, f, m.finalizer, true);
      var w1 := w.(session := Ensure(w.session, m.finalizer, true).session);
      if Ensure(w.session, m.finalizer, true).out.Ok? {
        if actual.None? {
          CreatingSafe(m, w1, desired.value, claim, f);
        } else {
          UpdatingSafe(m, w1, actual.value, desired.value, claim, f);
        }
      }
    }
  }

  // ---------- one reconciler

  /** r works for the claim alone with its own finalizer f, or without one under f. */
  ghost predicate Guarded(r: Reconciler, w: Worker, claim: Claim, f: string) {
    || (r.manager.finalizer == f && r.claim == claim)
    || (r.manager.finalizer == "" && (!w.session.local.terminating ==> f in w.session.local.finalizers))
  }

  /** Passes whose success may release the finalizer: they must have seen every child. */
  ghost predicate MayClear(r: Reconciler, w: Worker) {
    r.manager.finalizer != "" || w.session.local.terminating
  }

  lemma LookedAndCleaned(r: Reconciler, w: Worker, found: seq<Found>)
    requires WellFormed(w.session.cluster)
    ensures var mine := Claimed(r.claim, found);
      var cleaned := Cleaning(w, mine);
      && Drifts(w.session.cluster, cleaned.worker.session.cluster)
      && cleaned.worker == OnCluster(w, cleaned.worker.session.cluster)
      && (cleaned.out.Ok? && Saw(w.session.cluster, found) ==>
            forall u | LiveOurs(cleaned.worker.session.cluster, r.claim, u) ::
              |mine| == 1 && mine[0].uid == u && !mine[0].child.terminating)
  {
    var mine := Claimed(r.claim, found);
    ClaimedMembers(r.claim, found);
    DeletingDrifts(w, mine);
    var cleaned := Cleaning(w, mine);
    if cleaned.out.Ok? && Saw(w.session.cluster, found) {
      DriftsSaw(w.session.cluster, cleaned.worker.session.cluster, found);
      forall u | LiveOurs(cleaned.worker.session.cluster, r.claim, u)
        ensures |mine| == 1 && mine[0].uid == u && !mine[0].child.terminating
      {
        var k :| k in found && k.uid == u && k.child.owned && !k.child.terminating
          && k.child.id == cleaned.worker.session.cluster.children[u].id;
        assert k in mine;
      }
    }
  }

  lemma ReconciledSafe(r: Reconciler, w: Worker, known: Option<seq<Found>>, want: Want, claim: Claim, f: string)
    requires Safe(w, claim, f) && Guarded(r, w, claim, f)
    requires known.Some? && MayClear(r, w) ==> Saw(w.session.cluster, known.value)
    ensures var did := Reconciled(r, w, known, want);
      && SafeCluster(did.worker.session.cluster, claim, f)
      && did.worker.session.cluster.reserved == w.session.cluster.reserved
      && did.worker.session.local.terminating == w.session.local.terminating
      && (did.out.Ok? || r.manager.finalizer == "" ==> Safe(did.worker, claim, f))
      && (r.manager.finalizer == "" ==> did.worker.session.local == w.session.local)
      && (r.manager.finalizer == "" && w.session.local.terminating ==>
            Drifts(w.session.cluster, did.worker.session.cluster)
            && (did.out.Ok? ==> forall u :: !LiveOurs(did.worker.session.cluster, r.claim, u)))
  {
    var looked := Looking(w, known);
    LookingSees(w, known);
    DriftsSafe(w, looked.worker.session.cluster, claim, f);
    if looked.out.Ok? {
      var mine := Claimed(r.claim, looked.out.value);
      var cleaned := Cleaning(looked.worker, mine);
      LookedAndCleaned(r, looked.worker, looked.out.value);
      DriftsSafe(looked.worker, cleaned.worker.session.cluster, claim, f);
      DriftsTrans(w.session.cluster, looked.worker.session.cluster, cleaned.worker.session.cluster);
      if cleaned.out.Ok? {
        var actual := if |mine| == 1 then Some(mine[0]) else None;
        SettlingSafe(r, cleaned.worker, actual, want, claim, f);
        if r.manager.finalizer == "" && w.session.local.terminating {
          DriftsTrans(w.session.cluster, cleaned.worker.session.cluster,
                      Settling(r, cleaned.worker, actual, want).worker.session.cluster);
        }
      }
    }
  }

  lemma SettlingSafe(r: Reconciler, w: Worker, actual: Option<Found>, want: Want, claim: Claim, f: string)
    requires Safe(w, claim, f) && Guarded(r, w, claim, f)
    requires MayClear(r, w) ==> forall u | LiveOurs(w.session.cluster, r.claim, u) ::
      actual.Some? && actual.value.uid == u && !actual.value.child.terminating
    ensures var did := Settling(r, w, actual, want);
      && SafeCluster(did.worker.session.cluster, claim, f)
      && did.worker.session.cluster.reserved == w.session.cluster.reserved
      && did.worker.session.local.terminating == w.session.local.terminating
      && (did.out.Ok? || r.manager.finalizer == "" ==> Safe(did.worker, claim, f))
      && (r.manager.finalizer == "" ==> did.worker.session.local == w.session.local)
      && (r.manager.finalizer == "" && w.session.local.terminating ==>
            Drifts(w.session.cluster, did.worker.session.cluster)
            && (did.out.Ok? ==> forall u :: !LiveOurs(did.worker.session.cluster, r.claim, u)))
  {
    match Wanted(w, want)
    case WantStatus =>
    case WantError(_) =>
    case WantChild(d) => ManagedSafe(r.manager, w, actual, Some(d), claim, f);
    case WantNone =>
      ManagedSafe(r.manager, w, actual, None, claim, f);
      var c' := Settling(r, w, actual, want).worker.session.cluster;
      if Drifts(w.session.cluster, c') {
        assert forall u | LiveOurs(c', r.claim, u) :: LiveOurs(w.session.cluster, r.claim, u);
      }
  }

  lemma {:induction false} DeletingCounts(w: Worker, extras: seq<Found>)
    requires WellFormed(w.session.cluster)
    ensures var r := Deleting(w, extras);
      && r.worker == OnCluster(w, r.worker.session.cluster)
      && (r.out.Ok? ==> |r.worker.session.cluster.writes| == |w.session.cluster.writes| + |extras|)
    decreases |extras|
  {
    if |extras| > 0 {
      var c := w.session.cluster;
      var (c1, reply) := DeleteChild(c, extras[0].uid);
      BeginEvolves(c);
      DeleteDrifts(c, extras[0].uid);
      if reply.Ok? { DeletingCounts(OnCluster(w, c1), extras[1..]); }
    }
  }

  /** OnlyReconcileChildStatus is documented to skip the child. A reconciler that succeeds
      on a parent that stays writes nothing exactly when it finds at most one; two or more
      it deletes all the same. It reports the one child, or else an empty object. */
  lemma StatusOnlyWrites(r: Reconciler, w: Worker, known: Option<seq<Found>>)
    requires WellFormed(w.session.cluster) && !w.session.local.terminating
    requires Reconciled(r, w, known, WantStatus).out.Ok?
    ensures var mine := Claimed(r.claim, Looking(w, known).out.value);
      var did := ChildReconciled(r, w, known, WantStatus);
      && did.worker == OnCluster(w, did.worker.session.cluster)
      && Drifts(w.session.cluster, did.worker.session.cluster)
      && |did.worker.session.cluster.writes| == |w.session.cluster.writes| + (if |mine| <= 1 then 0 else |mine|)
      && did.out == Ok(Reflected(if |mine| == 1 then Present(mine[0]) else Blank, None))
  {
    BeginEvolves(w.session.cluster);
    var looked := Looking(w, known);
    LookingSees(w, known);
    var mine := Claimed(r.claim, looked.out.value);
    LookedAndCleaned(r, looked.worker, looked.out.value);
    DeletingCounts(looked.worker, mine);
    DriftsTrans(w.session.cluster, looked.worker.session.cluster, Cleaning(looked.worker, mine).worker.session.cluster);
  }

  // ---------- whole runs

  /** One request for the parent. */
  function ChildRequest(r: Reconciler, c: Cluster, cache: map<Uid, Patch>, want: Want): Did<Reflection> {
    var (c1, reply) := GetParent(c);
    match reply
    case Err(e) => Did(Worker(Session(c1, Parent(0, true, [])), cache), Err(e))
    case Ok(p) =>
      var w := Worker(Session(c1, p), cache);
      if p.terminating && |p.finalizers| == 0 then Did(w, Ok(Silent)) else ChildReconciled(r, w, None, want)
  }

  /** Outside steps, then a request with its own tape, any answer of DesiredChild, and
      whatever the mutation cache holds by then. */
  datatype ChildRound = ChildRound(idle: seq<EnvStep>, tape: seq<Moment>, cache: map<Uid, Patch>, want: Want)

  function ChildRequests(r: Reconciler, c: Cluster, rounds: seq<ChildRound>): Cluster
    decreases |rounds|
  {
    if |rounds| == 0 then c
    else
      var t := rounds[0];
      var c1 := HappenAll(c, t.idle).(tape := t.tape);
      ChildRequests(r, ChildRequest(r, c1, t.cache, t.want).worker.session.cluster, rounds[1..])
  }

  lemma DriftsSafeCluster(c: Cluster, c': Cluster, claim: Claim, f: string)
    requires SafeCluster(c, claim, f) && Drifts(c, c')
    ensures SafeCluster(c', claim, f)
  {
    assert f in Reserved(c) <==> f in Reserved(c');
    assert forall u | LiveOurs(c', claim, u) :: LiveOurs(c, claim, u);
  }

  lemma RequestSafe(r: Reconciler, c: Cluster, cache: map<Uid, Patch>, want: Want)
    requires SafeCluster(c, r.claim, r.manager.finalizer)
    ensures SafeCluster(ChildRequest(r, c, cache, want).worker.session.cluster, r.claim, r.manager.finalizer)
  {
    var f := r.manager.finalizer;
    FreshSynced(c);
    var (c1, reply) := GetParent(c);
    DriftsSafeCluster(c, c1, r.claim, f);
    if reply.Ok? {
      var w := Worker(Session(c1, reply.value), cache);
      ReconciledSafe(r, w, None, want, r.claim, f);
      ReflectingDrifts(r, Reconciled(r, w, None, want), f);
    }
  }

  lemma ReflectingDrifts(r: Reconciler, did: Did<Shown>, f: string)
    requires WellFormed(did.worker.session.cluster)
    ensures var c := did.worker.session.cluster;
      var c' := Reflecting(r, did).worker.session.cluster;
      && Drifts(c, c') && Reflecting(r, did).worker == OnCluster(did.worker, c')
      && (SafeCluster(c, r.claim, f) ==> SafeCluster(c', r.claim, f))
  {
    var c := did.worker.session.cluster;
    BeginEvolves(c);
    if SafeCluster(c, r.claim, f) {
      DriftsSafeCluster(c, Begin(c).0, r.claim, f);
    }
  }

  /** Over every run, with outside steps anywhere, any call refused or its reply lost, and
      a crash after any call: a live child of ours has a parent that exists and carries
      the finalizer. */
  lemma {:induction false} NeverOrphaned(r: Reconciler, c: Cluster, rounds: seq<ChildRound>)
    requires SafeCluster(c, r.claim, r.manager.finalizer)
    ensures NoOrphan(ChildRequests(r, c, rounds), r.claim, r.manager.finalizer)
    decreases |rounds|
  {
    if |rounds| > 0 {
      var t := rounds[0];
      HappenAllEvolves(c, t.idle);
      var c1 := HappenAll(c, t.idle);
      DriftsSafeCluster(c, c1.(tape := t.tape), r.claim, r.manager.finalizer);
      RequestSafe(r, c1.(tape := t.tape), t.cache, t.want);
      NeverOrphaned(r, ChildRequest(r, c1.(tape := t.tape), t.cache, t.want).worker.session.cluster, rounds[1..]);
    }
  }
}
