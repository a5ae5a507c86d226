/** A parent being deleted is released: whatever happens no pass loses ground, and every
    pass that succeeds makes progress unless it waits for the one child still going away. */
module Teardown {
  import opened Basics
  import opened Api
  import opened Patches
  import opened Finalizers
  import opened ResourceManagers
  import opened ChildReconcilers
  import opened ChildSafety

  ghost function OursSet(c: Cluster, claim: Claim): set<Uid> {
    set u | u in c.children && Ours(claim, c.children[u])
  }

  ghost function LiveSet(c: Cluster, claim: Claim): set<Uid> {
    set u | u in c.children && Ours(claim, c.children[u]) && !c.children[u].terminating
  }

  ghost function DyingSet(c: Cluster, claim: Claim): set<Uid> {
    set u | u in c.children && Ours(claim, c.children[u]) && c.children[u].terminating
  }

  ghost predicate Carries(c: Cluster, f: string) {
    c.parent.Some? && f in c.parent.value.finalizers
  }

  ghost function Measure(c: Cluster, claim: Claim, f: string): nat {
    2 * |LiveSet(c, claim)| + |DyingSet(c, claim)| + (if Carries(c, f) then 1 else 0)
  }

  /** A pass that can only wait: nothing left to delete, and either exactly one child is
      still going away or the finalizer is already off. */
  ghost predicate Waiting(c: Cluster, claim: Claim, f: string) {
    LiveSet(c, claim) == {} && (|DyingSet(c, claim)| == 1 || !Carries(c, f))
  }

  /** A parent is there and nothing interferes. */
  ghost predicate Peaceful(r: Reconciler, c: Cluster) {
    WellFormed(c) && Quiet(c) && r.manager.finalizer != "" && c.parent.Some?
  }

  ghost predicate Deletable(r: Reconciler, c: Cluster) {
    Peaceful(r, c) && c.parent.value.terminating
  }

  /** The parent is being deleted and f holds it back; anything may still interfere. */
  ghost predicate Doomed(c: Cluster, f: string) {
    && WellFormed(c) && f != "" && f in c.reserved
    && c.parent.Some? && c.parent.value.terminating && f in c.parent.value.finalizers
  }

  /** Nobody brings a parent back from deletion. */
  ghost predicate Going(c: Cluster) {
    c.parent.Some? ==> c.parent.value.terminating
  }

  lemma SplitSets(c: Cluster, claim: Claim)
    ensures OursSet(c, claim) == LiveSet(c, claim) + DyingSet(c, claim)
    ensures |OursSet(c, claim)| == |LiveSet(c, claim)| + |DyingSet(c, claim)|
  {
    assert OursSet(c, claim) == LiveSet(c, claim) + DyingSet(c, claim);
    assert LiveSet(c, claim) !! DyingSet(c, claim);
  }

  lemma SubsetSize<T>(a: set<T>, b: set<T>)
    requires a <= b
    ensures |a| <= |b|
    ensures |a| == |b| ==> a == b
  {
    assert b == a + (b - a);
  }

  ghost function Below(c: Cluster, claim: Claim, n: nat): set<Uid> {
    set u | u in c.children && u < n && Ours(claim, c.children[u])
  }

  lemma ClaimedStep(children: map<Uid, Child>, claim: Claim, n: nat)
    requires n > 0
    ensures Claimed(claim, Listing(children, n)) == Claimed(claim, Listing(children, n - 1))
      + (if n - 1 in children && Ours(claim, children[n - 1]) then [Found(n - 1, children[n - 1])] else [])
  {
    var rest := Listing(children, n - 1);
    if n - 1 in children {
      assert (rest + [Found(n - 1, children[n - 1])])[..|rest|] == rest;
    } else {
      assert rest + [] == rest;
    }
    assert Claimed(claim, rest) + [] == Claimed(claim, rest);
  }

  lemma BelowStep(c: Cluster, claim: Claim, n: nat)
    requires n > 0
    ensures var counts := n - 1 in c.children && Ours(claim, c.children[n - 1]);
      && Below(c, claim, n) == Below(c, claim, n - 1) + (if counts then {n - 1} else {})
      && |Below(c, claim, n)| == |Below(c, claim, n - 1)| + (if counts then 1 else 0)
  {
    var counts := n - 1 in c.children && Ours(claim, c.children[n - 1]);
    var more := if counts then {n - 1} else {};
    forall u ensures u in Below(c, claim, n) <==> u in Below(c, claim, n - 1) + more {
      if u != n - 1 { assert u < n <==> u < n - 1; }
    }
    DisjointSize(Below(c, claim, n - 1), more);
  }

  lemma DisjointSize<T>(a: set<T>, b: set<T>)
    requires a !! b
    ensures |a + b| == |a| + |b|
  {
  }

  lemma {:induction false} ClaimedListing(c: Cluster, claim: Claim, n: nat)
    ensures var mine := Claimed(claim, Listing(c.children, n));
      && |mine| == |Below(c, claim, n)|
      && forall k | k in mine :: k.uid in Below(c, claim, n) && k.child == c.children[k.uid]
  {
    if n > 0 {
      ClaimedListing(c, claim, n - 1);
      ClaimedStep(c.children, claim, n);
      BelowStep(c, claim, n);
    } else {
      assert Below(c, claim, 0) == {};
    }
  }

  lemma ListedOurs(c: Cluster, claim: Claim)
    requires WellFormed(c)
    ensures var mine := Claimed(claim, Listing(c.children, c.clock));
      && |mine| == |OursSet(c, claim)|
      && forall k | k in mine :: k.uid in c.children && k.child == c.children[k.uid] && Ours(claim, k.child)
  {
    ClaimedListing(c, claim, c.clock);
    assert Below(c, claim, c.clock) == OursSet(c, claim);
  }

  /** Undisturbed deletes leave the parent alone; deletes of children already going away
      change nothing. */
  lemma {:induction false} QuietDeleting(w: Worker, extras: seq<Found>)
    requires WellFormed(w.session.cluster) && Quiet(w.session.cluster)
    ensures var r := Deleting(w, extras);
      var c, c' := w.session.cluster, r.worker.session.cluster;
      && c'.parent == c.parent && Quiet(c') && Surfaces(r.out) && r.worker.session.local == w.session.local
      && ((forall k | k in extras :: k.uid in c.children && c.children[k.uid].terminating) ==> c'.children == c.children)
    decreases |extras|
  {
    if |extras| > 0 {
      QuietBegin(w.session.cluster);
      DeleteDrifts(w.session.cluster, extras[0].uid);
      var (c, reply) := DeleteChild(w.session.cluster, extras[0].uid);
      assert extras[0] in extras;
      if reply.Ok? {
        assert forall k | k in extras[1..] :: k in extras;
        QuietDeleting(OnCluster(w, c), extras[1..]);
      }
    }
  }

  /** The parent as the server has it is the one the pass loaded. */
  lemma ClearsFinalizer(s: Session, f: string)
    requires WellFormed(s.cluster) && Quiet(s.cluster) && s.cluster.parent == Some(s.local) && f != ""
    ensures var r := Ensure(s, f, false);
      && r.session.cluster.children == s.cluster.children
      && (s.local.terminating ==> Going(r.session.cluster))
      && (r.out.Ok? ==> !Carries(r.session.cluster, f))
  {
    QuietBegin(s.cluster);
  }

  lemma MeasureFalls(c: Cluster, c': Cluster, claim: Claim, f: string)
    requires OwnedShrink(c, c') && LiveSet(c', claim) == {} && LiveSet(c, claim) != {}
    requires Carries(c', f) ==> Carries(c, f)
    ensures Measure(c', claim, f) < Measure(c, claim, f)
  {
    SplitSets(c, claim);
    assert DyingSet(c', claim) <= OursSet(c, claim);
    SubsetSize(DyingSet(c', claim), OursSet(c, claim));
  }

  lemma SameMeasure(c: Cluster, c': Cluster, claim: Claim, f: string)
    requires c'.children == c.children
    ensures LiveSet(c', claim) == LiveSet(c, claim) && DyingSet(c', claim) == DyingSet(c, claim)
    ensures Measure(c', claim, f) - Measure(c, claim, f)
         == (if Carries(c', f) then 1 else 0) - (if Carries(c, f) then 1 else 0)
  {
  }

  // ---------- whatever happens

  lemma HappenKeepsDoomed(c: Cluster, s: EnvStep, f: string)
    requires Doomed(c, f)
    ensures Doomed(Happen(c, s), f)
  {
    HappenEvolves(c, s);
    assert f in Reserved(c) && f in Reserved(Happen(c, s));
  }

  lemma {:induction false} HappenAllKeepsDoomed(c: Cluster, steps: seq<EnvStep>, f: string)
    requires Doomed(c, f)
    ensures Doomed(HappenAll(c, steps), f)
    decreases |steps|
  {
    if |steps| > 0 {
      HappenKeepsDoomed(c, steps[0], f);
      HappenAllKeepsDoomed(Happen(c, steps[0]), steps[1..], f);
    }
  }

  lemma BeginKeepsDoomed(c: Cluster, f: string)
    requires Doomed(c, f)
    ensures Doomed(Begin(c).0, f)
  {
    if |c.tape| > 0 {
      HappenAllKeepsDoomed(c.(tape := c.tape[1..]), c.tape[0].before, f);
    }
  }

  lemma {:induction false} DeletingKeepsDoomed(w: Worker, extras: seq<Found>, f: string)
    requires Doomed(w.session.cluster, f)
    ensures Doomed(Deleting(w, extras).worker.session.cluster, f)
    decreases |extras|
  {
    if |extras| > 0 {
      BeginKeepsDoomed(w.session.cluster, f);
      DeleteDrifts(w.session.cluster, extras[0].uid);
      DeletingKeepsDoomed(OnCluster(w, DeleteChild(w.session.cluster, extras[0].uid).0), extras[1..], f);
    }
  }

  /** What a teardown can do to the cluster, at every outcome of every call. */
  ghost predicate Descends(c: Cluster, c': Cluster, f: string) {
    && WellFormed(c') && c'.reserved == c.reserved && OwnedShrink(c, c') && Going(c')
    && (Carries(c', f) ==> Doomed(c', f))
  }

  lemma DescendsTrans(a: Cluster, b: Cluster, c: Cluster, f: string)
    requires Descends(a, b, f) && Descends(b, c, f)
    ensures Descends(a, c, f)
  {
  }

  lemma DriftsDescends(c: Cluster, c': Cluster, f: string)
    requires Doomed(c, f) && Drifts(c, c') && Doomed(c', f)
    ensures Descends(c, c', f)
  {
  }

  /** Children of ours only go, and the finalizer is only taken off: the measure cannot
      rise, and it stays only when all three parts do. */
  lemma MeasureShrinks(c: Cluster, c': Cluster, claim: Claim, f: string)
    requires OwnedShrink(c, c') && (Carries(c', f) ==> Carries(c, f))
    ensures LiveSet(c', claim) <= LiveSet(c, claim) && OursSet(c', claim) <= OursSet(c, claim)
    ensures Measure(c', claim, f) <= Measure(c, claim, f)
    ensures Measure(c', claim, f) == Measure(c, claim, f) <==>
      LiveSet(c', claim) == LiveSet(c, claim) && OursSet(c', claim) == OursSet(c, claim) && Carries(c', f) == Carries(c, f)
  {
    SplitSets(c, claim);
    SplitSets(c', claim);
    SubsetSize(LiveSet(c', claim), LiveSet(c, claim));
    SubsetSize(OursSet(c', claim), OursSet(c, claim));
  }

  lemma OneDescends(r: Reconciler, c: Cluster, w: Worker, a: Found)
    requires Doomed(c, r.manager.finalizer) && Doomed(w.session.cluster, r.manager.finalizer)
    requires OwnedShrink(c, w.session.cluster)
    requires a.uid in c.children && c.children[a.uid] == a.child && OursSet(c, r.claim) == {a.uid}
    ensures var f := r.manager.finalizer;
      var c' := Removing(w, a).worker.session.cluster;
      && Descends(w.session.cluster, c', f)
      && (Removing(w, a).out.Ok? && Measure(c', r.claim, f) == Measure(c, r.claim, f) ==> Waiting(c, r.claim, f))
  {
    var f := r.manager.finalizer;
    var c1 := w.session.cluster;
    if !a.child.terminating {
      BeginKeepsDoomed(c1, f);
      DeleteDrifts(c1, a.uid);
    }
    var c' := Removing(w, a).worker.session.cluster;
    DriftsDescends(c1, c', f);
    MeasureShrinks(c, c', r.claim, f);
    SplitSets(c, r.claim);
    assert a.uid in OursSet(c, r.claim);
    assert if a.child.terminating then a.uid in DyingSet(c, r.claim) else a.uid in LiveSet(c, r.claim);
  }

  /** The end of a pass over a parent being deleted: mine are all the children of ours that
      the list showed at c, cleaned up by w. */
  lemma ManagedDescends(r: Reconciler, c: Cluster, w: Worker, mine: seq<Found>)
    requires Doomed(c, r.manager.finalizer) && Doomed(w.session.cluster, r.manager.finalizer)
    requires Synced(w.session) && w.session.local.terminating
    requires OwnedShrink(c, w.session.cluster) && w.session.cluster.reserved == c.reserved
    requires mine == Claimed(r.claim, Listing(c.children, c.clock))
    ensures var f := r.manager.finalizer;
      var did := Managed(r.manager, w, if |mine| == 1 then Some(mine[0]) else None, None);
      var c' := did.worker.session.cluster;
      && Descends(w.session.cluster, c', f)
      && did.worker.session.local.terminating
      && (did.out.Ok? && Measure(c', r.claim, f) == Measure(c, r.claim, f) ==> Waiting(c, r.claim, f))
  {
    var f := r.manager.finalizer;
    var c1 := w.session.cluster;
    ListedOurs(c, r.claim);
    if |mine| == 1 {
      SubsetSize({mine[0].uid}, OursSet(c, r.claim));
      OneDescends(r, c, w, mine[0]);
    } else {
      ClearDescends(w.session, f);
      var c' := Ensure(w.session, f, false).session.cluster;
      MeasureShrinks(c, c', r.claim, f);
    }
  }

  lemma ClearDescends(s: Session, f: string)
    requires Doomed(s.cluster, f) && Synced(s) && s.local.terminating
    ensures var r := Ensure(s, f, false);
      && Descends(s.cluster, r.session.cluster, f)
      && r.session.local.terminating
      && (r.out.Ok? ==> !Carries(r.session.cluster, f))
  {
    var c := s.cluster;
    assert f in Reserved(c);
    EnsureKeeps(s, f, false);
    PatchEffect(c, s.local.version, Without(s.local.finalizers, f));
    BeginKeepsDoomed(c, f);
    var c' := Ensure(s, f, false).session.cluster;
    assert f in Reserved(c') <==> Carries(c', f);
  }

  /** A list call and the removal of surplus children. */
  lemma CleanedDescends(w: Worker, w1: Worker, mine: seq<Found>, f: string)
    requires Doomed(w.session.cluster, f) && Synced(w.session) && w1 == Looking(w, None).worker
    ensures var c, c1 := w.session.cluster, w1.session.cluster;
      var w2 := Cleaning(w1, mine).worker;
      && w1.session.local == w.session.local == w2.session.local
      && Descends(c, c1, f) && Descends(c1, w2.session.cluster, f)
      && Doomed(c1, f) && Doomed(w2.session.cluster, f) && Synced(w2.session)
  {
    var c, c1, c2 := w.session.cluster, w1.session.cluster, Cleaning(w1, mine).worker.session.cluster;
    BeginEvolves(c);
    BeginKeepsDoomed(c, f);
    DriftsSynced(w.session, c1);
    DeletingDrifts(w1, mine);
    DeletingKeepsDoomed(w1, mine, f);
    DriftsDescends(c1, c2, f);
    DriftsSynced(w1.session, c2);
  }

  lemma ReconciledDescends(r: Reconciler, w: Worker, want: Want)
    requires Doomed(w.session.cluster, r.manager.finalizer) && Synced(w.session) && w.session.local.terminating
    ensures var f, c := r.manager.finalizer, w.session.cluster;
      var did := Reconciled(r, w, None, want);
      var c' := did.worker.session.cluster;
      && Descends(c, c', f)
      && did.worker.session.local.terminating
      && (did.out.Ok? && Measure(c', r.claim, f) == Measure(c, r.claim, f) ==> Waiting(c, r.claim, f))
  {
    var f, c := r.manager.finalizer, w.session.cluster;
    var looked := Looking(w, None);
    var c1 := looked.worker.session.cluster;
    CleanedDescends(w, looked.worker, [], f);
    if looked.out.Ok? {
      var mine := Claimed(r.claim, Listing(c1.children, c1.clock));
      assert looked.out.value == Listing(c1.children, c1.clock);
      CleanedDescends(w, looked.worker, mine, f);
      var cleaned := Cleaning(looked.worker, mine);
      var c2 := cleaned.worker.session.cluster;
      DescendsTrans(c, c1, c2, f);
      if cleaned.out.Ok? {
        ManagedDescends(r, c1, cleaned.worker, mine);
        var did := Managed(r.manager, cleaned.worker, if |mine| == 1 then Some(mine[0]) else None, None);
        var c' := did.worker.session.cluster;
        DescendsTrans(c1, c2, c', f);
        DescendsTrans(c, c1, c', f);
        SameThroughout(c, c1, c', r.claim, f);
      }
    }
  }

  /** If the measure is as high at the end as it was at the start, it was so in between. */
  lemma SameThroughout(c: Cluster, c1: Cluster, c': Cluster, claim: Claim, f: string)
    requires Descends(c, c1, f) && OwnedShrink(c1, c') && Carries(c, f) && Carries(c1, f)
    ensures Measure(c', claim, f) == Measure(c, claim, f) ==>
      && Measure(c', claim, f) == Measure(c1, claim, f)
      && (Waiting(c1, claim, f) ==> Waiting(c, claim, f))
  {
    MeasureShrinks(c, c1, claim, f);
    MeasureShrinks(c1, c', claim, f);
    SplitSets(c, claim);
    SplitSets(c1, claim);
  }

  /** Whatever happens at and between the calls of a pass, the measure does not rise; a
      pass that succeeds lowers it, unless it began with exactly one child of ours, which
      was already going away. */
  lemma TeardownPass(r: Reconciler, c: Cluster, cache: map<Uid, Patch>, want: Want)
    requires Doomed(c, r.manager.finalizer)
    ensures var f := r.manager.finalizer;
      var did := ChildRequest(r, c, cache, want);
      var c' := did.worker.session.cluster;
      && Descends(c, c', f)
      && Measure(c', r.claim, f) <= Measure(c, r.claim, f)
      && (did.out.Ok? && Measure(c', r.claim, f) == Measure(c, r.claim, f) ==>
            LiveSet(c, r.claim) == {} && |DyingSet(c, r.claim)| == 1)
  {
    var f := r.manager.finalizer;
    var (c1, reply) := GetParent(c);
    FreshSynced(c);
    BeginKeepsDoomed(c, f);
    DriftsDescends(c, c1, f);
    var c' := ChildRequest(r, c, cache, want).worker.session.cluster;
    if reply.Ok? {
      var w := Worker(Session(c1, reply.value), cache);
      ReconciledDescends(r, w, want);
      assert c' == Reconciled(r, w, None, want).worker.session.cluster;
      DescendsTrans(c, c1, c', f);
      SameThroughout(c, c1, c', r.claim, f);
    }
    MeasureShrinks(c, c', r.claim, f);
  }

  // ---------- undisturbed passes

  /** The pass after the list has been taken. */
  lemma TeardownCore(r: Reconciler, w: Worker, mine: seq<Found>)
    requires Deletable(r, w.session.cluster) && w.session.cluster.parent == Some(w.session.local)
    requires mine == Claimed(r.claim, Listing(w.session.cluster.children, w.session.cluster.clock))
    ensures var f, c := r.manager.finalizer, w.session.cluster;
      var did := Closing(r, w, mine);
      did.out.Ok? ==>
        var c' := did.worker.session.cluster;
        && Going(c') && Measure(c', r.claim, f) <= Measure(c, r.claim, f)
        && (Measure(c', r.claim, f) == Measure(c, r.claim, f) <==> Waiting(c, r.claim, f))
  {
    var f, c := r.manager.finalizer, w.session.cluster;
    ListedOurs(c, r.claim);
    SplitSets(c, r.claim);
    var cleaned := Cleaning(w, mine);
    var c1 := cleaned.worker.session.cluster;
    DeletingDrifts(w, mine);
    QuietDeleting(w, mine);
    if cleaned.out.Ok? {
      if |mine| == 1 {
        TeardownOne(r, w, mine[0]);
      } else {
        ClearsFinalizer(cleaned.worker.session, f);
        var did := Managed(r.manager, cleaned.worker, None, None);
        var c' := did.worker.session.cluster;
        SameMeasure(c1, c', r.claim, f);
        if LiveSet(c, r.claim) != {} {
          NoneLiveAfter(c, c1, r.claim, mine);
          if did.out.Ok? {
            MeasureFalls(c, c', r.claim, f);
          }
        } else {
          forall k | k in mine ensures c.children[k.uid].terminating {
            assert k.uid !in LiveSet(c, r.claim);
          }
          SameMeasure(c, c1, r.claim, f);
        }
      }
    }
  }

  lemma NoneLiveAfter(c: Cluster, c1: Cluster, claim: Claim, mine: seq<Found>)
    requires WellFormed(c) && OwnedShrink(c, c1)
    requires mine == Claimed(claim, Listing(c.children, c.clock))
    requires forall k | k in mine :: !Live(c1, k.uid)
    ensures LiveSet(c1, claim) == {}
  {
    ClaimedMembers(claim, Listing(c.children, c.clock));
    ListingMembers(c.children, c.clock);
    forall u | LiveOurs(c, claim, u) ensures Found(u, c.children[u]) in mine {}
  }

  /** Exactly one child: it is deleted unless it is already going away. */
  lemma TeardownOne(r: Reconciler, w: Worker, a: Found)
    requires Deletable(r, w.session.cluster)
    requires a.uid in w.session.cluster.children && w.session.cluster.children[a.uid] == a.child
    requires Ours(r.claim, a.child) && |OursSet(w.session.cluster, r.claim)| == 1
    ensures var f, c := r.manager.finalizer, w.session.cluster;
      var did := Removing(w, a);
      did.out.Ok? ==>
        var c' := did.worker.session.cluster;
        && Going(c') && Measure(c', r.claim, f) <= Measure(c, r.claim, f)
        && (Measure(c', r.claim, f) == Measure(c, r.claim, f) <==> Waiting(c, r.claim, f))
  {
    var f, c := r.manager.finalizer, w.session.cluster;
    SplitSets(c, r.claim);
    SubsetSize({a.uid}, OursSet(c, r.claim));
    assert OursSet(c, r.claim) == {a.uid};
    if a.child.terminating {
      assert a.uid in DyingSet(c, r.claim);
      assert LiveSet(c, r.claim) == {};
    } else {
      assert a.uid in LiveSet(c, r.claim);
      QuietBegin(c);
      DeleteDrifts(c, a.uid);
      var did := Removing(w, a);
      if did.out.Ok? {
        var c' := did.worker.session.cluster;
        assert LiveSet(c', r.claim) <= OursSet(c, r.claim);
        MeasureFalls(c, c', r.claim, f);
      }
    }
  }

  /** The worker after an undisturbed Get and List. */
  function Opened(c: Cluster, cache: map<Uid, Patch>): Worker
    requires c.parent.Some? && |c.tape| >= 2
  {
    Worker(Session(c.(tape := c.tape[2..]), c.parent.value), cache)
  }

  /** The pass wants no child. */
  predicate Unwanted(c: Cluster, want: Want)
    requires c.parent.Some?
  {
    c.parent.value.terminating || want.WantNone?
  }

  /** What is left of an undisturbed pass once the children are listed. */
  function Closing(r: Reconciler, w: Worker, mine: seq<Found>): Did<Shown> {
    var cleaned := Cleaning(w, mine);
    if cleaned.out.Err? then Did(cleaned.worker, Err(cleaned.out.error))
    else ManagedShown(r, cleaned.worker, if |mine| == 1 then Some(mine[0]) else None, None)
  }

  lemma QuietOpening(r: Reconciler, c: Cluster, cache: map<Uid, Patch>, want: Want)
    requires Peaceful(r, c)
    ensures |c.tape| < 2 ==> ChildRequest(r, c, cache, want).out.Err?
    ensures |c.tape| >= 2 ==>
      var w := Opened(c, cache);
      && Looking(Worker(Session(GetParent(c).0, c.parent.value), cache), None) == Did(w, Ok(Listing(c.children, c.clock)))
      && Quiet(w.session.cluster)
  {
    QuietBegin(c);
    var c1 := GetParent(c).0;
    QuietBegin(c1);
    if |c.tape| >= 2 {
      assert c.tape[1..][1..] == c.tape[2..];
    }
  }

  lemma QuietRequest(r: Reconciler, c: Cluster, cache: map<Uid, Patch>, want: Want)
    requires Peaceful(r, c) && Unwanted(c, want) && |c.tape| >= 2
    ensures var w := Opened(c, cache);
      var closed := Closing(r, w, Claimed(r.claim, Listing(c.children, c.clock)));
      var did := ChildRequest(r, c, cache, want);
      Quiet(w.session.cluster) && did.worker == closed.worker && did.out.Ok? == closed.out.Ok?
  {
    QuietOpening(r, c, cache, want);
    QuietBegin(c);
    var w0 := Worker(Session(GetParent(c).0, c.parent.value), cache);
    var w := Opened(c, cache);
    var mine := Claimed(r.claim, Listing(c.children, c.clock));
    assert Reconciled(r, w0, None, want) == Closing(r, w, mine) by { StaysTerminating(r, w, mine); }
    StaysTerminating(r, w, mine);
    ClosingSurfaces(r, w, mine);
  }

  lemma ClosingSurfaces(r: Reconciler, w: Worker, mine: seq<Found>)
    requires WellFormed(w.session.cluster) && Quiet(w.session.cluster) && w.session.cluster.parent == Some(w.session.local)
    ensures Surfaces(Closing(r, w, mine).out)
  {
    QuietDeleting(w, mine);
    var w1 := Cleaning(w, mine).worker;
    ClearSurfaces(w1.session, r.manager.finalizer);
    if |mine| == 1 { RemovingSurfaces(w1, mine[0]); }
  }

  lemma ClearSurfaces(s: Session, f: string)
    requires Quiet(s.cluster) && s.cluster.parent == Some(s.local)
    ensures Surfaces(Ensure(s, f, false).out)
  {
    QuietBegin(s.cluster);
  }

  lemma RemovingSurfaces(w: Worker, a: Found)
    requires Quiet(w.session.cluster)
    ensures Surfaces(Removing(w, a).out)
  {
    QuietBegin(w.session.cluster);
  }

  lemma StaysTerminating(r: Reconciler, w: Worker, mine: seq<Found>)
    requires WellFormed(w.session.cluster)
    ensures Closing(r, w, mine).worker.session.local.terminating == w.session.local.terminating
  {
    DeletingDrifts(w, mine);
  }

  /** When undisturbed, a pass that succeeds keeps the measure exactly when it can only wait. */
  lemma UndisturbedPass(r: Reconciler, c: Cluster, cache: map<Uid, Patch>, want: Want)
    requires Deletable(r, c) && ChildRequest(r, c, cache, want).out.Ok?
    ensures var f, c' := r.manager.finalizer, ChildRequest(r, c, cache, want).worker.session.cluster;
      && Going(c') && Measure(c', r.claim, f) <= Measure(c, r.claim, f)
      && (Measure(c', r.claim, f) == Measure(c, r.claim, f) <==> Waiting(c, r.claim, f))
  {
    QuietOpening(r, c, cache, want);
    QuietRequest(r, c, cache, want);
    var w := Opened(c, cache);
    TeardownCore(r, w, Claimed(r.claim, Listing(c.children, c.clock)));
    SameMeasure(c, w.session.cluster, r.claim, r.manager.finalizer);
  }

  // ---------- whole runs

  /** A pass under any tape, or any outside step. */
  datatype Tick = Pass(tape: seq<Moment>, cache: map<Uid, Patch>, want: Want) | Outside(step: EnvStep)

  function Ticked(r: Reconciler, c: Cluster, t: Tick): Cluster {
    match t
    case Pass(tape, cache, want) => ChildRequest(r, c.(tape := tape), cache, want).worker.session.cluster
    case Outside(step) => Happen(c, step)
  }

  /** A pass that succeeds and need not wait, or an outside step by which a child of ours
      is marked for deletion or goes away. */
  ghost predicate Productive(r: Reconciler, c: Cluster, t: Tick) {
    match t
    case Pass(tape, cache, want) =>
      ChildRequest(r, c.(tape := tape), cache, want).out.Ok? && !Waiting(c, r.claim, r.manager.finalizer)
    case Outside(step) =>
      LiveSet(Happen(c, step), r.claim) != LiveSet(c, r.claim) || OursSet(Happen(c, step), r.claim) != OursSet(c, r.claim)
  }

  /** The run ends when the finalizer is off. */
  ghost function TickedAll(r: Reconciler, c: Cluster, ticks: seq<Tick>): Cluster
    decreases |ticks|
  {
    if |ticks| == 0 || !Carries(c, r.manager.finalizer) then c else TickedAll(r, Ticked(r, c, ticks[0]), ticks[1..])
  }

  /** How many productive steps there are until then. */
  ghost function Productions(r: Reconciler, c: Cluster, ticks: seq<Tick>): nat
    decreases |ticks|
  {
    if |ticks| == 0 || !Carries(c, r.manager.finalizer) then 0
    else (if Productive(r, c, ticks[0]) then 1 else 0) + Productions(r, Ticked(r, c, ticks[0]), ticks[1..])
  }

  lemma TickFalls(r: Reconciler, c: Cluster, t: Tick)
    requires Doomed(c, r.manager.finalizer)
    ensures var f, c' := r.manager.finalizer, Ticked(r, c, t);
      && Descends(c, c', f)
      && Measure(c', r.claim, f) <= Measure(c, r.claim, f)
      && (Productive(r, c, t) ==> Measure(c', r.claim, f) < Measure(c, r.claim, f))
  {
    var f := r.manager.finalizer;
    match t
    case Pass(tape, cache, want) =>
      SameMeasure(c, c.(tape := tape), r.claim, f);
      TeardownPass(r, c.(tape := tape), cache, want);
    case Outside(step) =>
      HappenEvolves(c, step);
      HappenKeepsDoomed(c, step, f);
      MeasureShrinks(c, Happen(c, step), r.claim, f);
  }

  /** In any run, with failures, lost replies, crashes and outside steps anywhere, there are
      at most as many productive steps as the measure says at the start. After that many
      the finalizer is off, and whenever it is off no child of ours is live. */
  lemma {:induction false} TeardownEnds(r: Reconciler, c: Cluster, ticks: seq<Tick>)
    requires Doomed(c, r.manager.finalizer) && NoOrphan(c, r.claim, r.manager.finalizer)
    ensures var f, c' := r.manager.finalizer, TickedAll(r, c, ticks);
      && Productions(r, c, ticks) + Measure(c', r.claim, f) <= Measure(c, r.claim, f)
      && (Productions(r, c, ticks) >= Measure(c, r.claim, f) ==> !Carries(c', f))
      && (!Carries(c', f) ==> LiveSet(c', r.claim) == {})
    decreases |ticks|
  {
    var f := r.manager.finalizer;
    if |ticks| > 0 {
      var c1 := Ticked(r, c, ticks[0]);
      TickFalls(r, c, ticks[0]);
      TickSafe(r, c, ticks[0]);
      if Carries(c1, f) {
        TeardownEnds(r, c1, ticks[1..]);
      } else {
        NoneLiveWhenOff(c1, r.claim, f);
      }
    }
  }

  lemma TickSafe(r: Reconciler, c: Cluster, t: Tick)
    requires SafeCluster(c, r.claim, r.manager.finalizer)
    ensures SafeCluster(Ticked(r, c, t), r.claim, r.manager.finalizer)
  {
    var f := r.manager.finalizer;
    match t
    case Pass(tape, cache, want) =>
      DriftsSafeCluster(c, c.(tape := tape), r.claim, f);
      RequestSafe(r, c.(tape := tape), cache, want);
    case Outside(step) =>
      HappenEvolves(c, step);
      DriftsSafeCluster(c, Happen(c, step), r.claim, f);
  }

  lemma NoneLiveWhenOff(c: Cluster, claim: Claim, f: string)
    requires NoOrphan(c, claim, f) && !Carries(c, f)
    ensures LiveSet(c, claim) == {}
  {
    assert forall u | u in LiveSet(c, claim) :: LiveOurs(c, claim, u);
  }

  /** While the parent carries the finalizer there is always a productive step. */
  lemma AlwaysProductive(r: Reconciler, c: Cluster) returns (t: Tick)
    requires WellFormed(c) && r.manager.finalizer != "" && Going(c) && Carries(c, r.manager.finalizer)
    ensures Productive(r, c, t)
  {
    if Waiting(c, r.claim, r.manager.finalizer) {
      var u :| u in DyingSet(c, r.claim);
      var step := OthersHoldChild(u, false);
      assert u in OursSet(c, r.claim) && u !in OursSet(Happen(c, step), r.claim);
      t := Outside(step);
    } else {
      var tape := seq(|OursSet(c, r.claim)| + 3, _ => Moment([], Done, (o: Obj) => o));
      QuietPassSucceeds(r, c.(tape := tape), map[], WantNone);
      t := Pass(tape, map[], WantNone);
    }
  }

  /** So a run that cannot go on has released it. */
  lemma ReleasedWhenStuck(r: Reconciler, c: Cluster)
    requires WellFormed(c) && r.manager.finalizer != "" && Going(c)
    requires forall t: Tick :: !Productive(r, c, t)
    ensures !Carries(c, r.manager.finalizer)
  {
    if Carries(c, r.manager.finalizer) {
      var t := AlwaysProductive(r, c);
    }
  }

  lemma {:induction false} ClaimedIncreasing(children: map<Uid, Child>, claim: Claim, n: nat)
    ensures var mine := Claimed(claim, Listing(children, n));
      && (forall k | k in mine :: k.uid < n)
      && forall i, j | 0 <= i < j < |mine| :: mine[i].uid < mine[j].uid
  {
    if n > 0 {
      ClaimedIncreasing(children, claim, n - 1);
      ClaimedStep(children, claim, n);
    }
  }

  lemma {:induction false} QuietDeletingSucceeds(w: Worker, extras: seq<Found>)
    requires WellFormed(w.session.cluster) && Quiet(w.session.cluster) && |extras| <= |w.session.cluster.tape|
    requires forall k | k in extras :: k.uid in w.session.cluster.children
    requires forall i, j | 0 <= i < j < |extras| :: extras[i].uid < extras[j].uid
    ensures var r := Deleting(w, extras);
      r.out.Ok? && |r.worker.session.cluster.tape| == |w.session.cluster.tape| - |extras|
    decreases |extras|
  {
    if |extras| > 0 {
      var c := w.session.cluster;
      QuietBegin(c);
      DeleteDrifts(c, extras[0].uid);
      var (c1, reply) := DeleteChild(c, extras[0].uid);
      assert extras[0] in extras;
      forall k | k in extras[1..] ensures k.uid in c1.children {
        var i :| 0 <= i < |extras[1..]| && extras[1..][i] == k;
        assert extras[i + 1] == k;
      }
      QuietDeletingSucceeds(OnCluster(w, c1), extras[1..]);
    }
  }

  lemma QuietPassSucceeds(r: Reconciler, c: Cluster, cache: map<Uid, Patch>, want: Want)
    requires Peaceful(r, c) && Unwanted(c, want) && |c.tape| >= |OursSet(c, r.claim)| + 3
    ensures ChildRequest(r, c, cache, want).out.Ok?
  {
    QuietRequest(r, c, cache, want);
    var w := Opened(c, cache);
    var mine := Claimed(r.claim, Listing(c.children, c.clock));
    ListedOurs(c, r.claim);
    ClaimedIncreasing(c.children, r.claim, c.clock);
    QuietDeleting(w, mine);
    QuietDeletingSucceeds(w, mine);
    QuietClosing(r, w, mine);
  }

  lemma QuietClosing(r: Reconciler, w: Worker, mine: seq<Found>)
    requires WellFormed(w.session.cluster) && w.session.cluster.parent == Some(w.session.local)
    requires |mine| == 1 ==> mine[0].uid in w.session.cluster.children
    requires var cleaned := Cleaning(w, mine);
      && cleaned.out.Ok? && Quiet(cleaned.worker.session.cluster) && |cleaned.worker.session.cluster.tape| > 0
      && cleaned.worker.session.cluster.parent == w.session.cluster.parent
      && cleaned.worker.session.local == w.session.local
    ensures Closing(r, w, mine).out.Ok?
  {
    QuietBegin(Cleaning(w, mine).worker.session.cluster);
  }
}
