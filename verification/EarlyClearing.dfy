/** Where the finalizer comes off while children are still stored: the exact condition for
    one child and for a set of children, each with an input that meets it. */
module EarlyClearing {
  import opened Basics
  import opened Api
  import opened Patches
  import opened Finalizers
  import opened ResourceManagers
  import opened ChildReconcilers
  import opened ChildSafety
  import opened Teardown
  import opened ChildSets

  predicate SameTraits(a: Child, b: Child) {
    a.owned == b.owned && a.id == b.id && a.held == b.held
  }

  /** Children only go or get marked for deletion, and the held ones stay. */
  ghost predicate HeldStay(c: Cluster, c': Cluster) {
    && WellFormed(c') && Quiet(c') && c'.parent == c.parent
    && (forall u | u in c'.children ::
          && u in c.children && SameTraits(c.children[u], c'.children[u])
          && (c.children[u].terminating ==> c'.children[u].terminating))
    && (forall u | u in c.children && c.children[u].held :: u in c'.children)
  }

  lemma DeleteHeldStay(c: Cluster, u: Uid)
    requires WellFormed(c) && Quiet(c)
    ensures var (c', reply) := DeleteChild(c, u);
      HeldStay(c, c') && (reply.Ok? && u in c'.children ==> c'.children[u].held)
  {
    QuietBegin(c);
    DeleteDrifts(c, u);
  }

  lemma {:induction false} QuietDeletingKeeps(w: Worker, extras: seq<Found>)
    requires WellFormed(w.session.cluster) && Quiet(w.session.cluster)
    ensures var r := Deleting(w, extras);
      var c, c' := w.session.cluster, r.worker.session.cluster;
      && HeldStay(c, c')
      && r.worker == OnCluster(w, c') && Surfaces(r.out)
      && (r.out.Ok? ==> forall k | k in extras && k.uid in c'.children :: c'.children[k.uid].held)
    decreases |extras|
  {
    if |extras| > 0 {
      var c := w.session.cluster;
      DeleteHeldStay(c, extras[0].uid);
      QuietBegin(c);
      var (c1, reply) := DeleteChild(c, extras[0].uid);
      if reply.Ok? {
        QuietDeletingKeeps(OnCluster(w, c1), extras[1..]);
        HeldStayTrans(c, c1, Deleting(w, extras).worker.session.cluster);
        assert extras == [extras[0]] + extras[1..];
      }
    }
  }

  lemma HeldStayTrans(a: Cluster, b: Cluster, c: Cluster)
    requires HeldStay(a, b) && HeldStay(b, c)
    ensures HeldStay(a, c)
  {
  }

  lemma AllListed(c: Cluster, claim: Claim)
    requires WellFormed(c)
    ensures forall u | u in OursSet(c, claim) :: Found(u, c.children[u]) in Claimed(claim, Listing(c.children, c.clock))
  {
    ClaimedMembers(claim, Listing(c.children, c.clock));
    ListingMembers(c.children, c.clock);
  }

  // ---------- one child

  /** The finalizer is documented to come off after the child is deleted. Of the undisturbed
      passes that succeed, those that take it off although children of ours are still
      stored are exactly the ones that want no child, because the parent is being deleted
      or DesiredChild says so, and that find two or more of which someone holds one. */
  lemma ClearedEarly(r: Reconciler, c: Cluster, cache: map<Uid, Patch>, want: Want)
    requires Peaceful(r, c) && Carries(c, r.manager.finalizer) && ChildRequest(r, c, cache, want).out.Ok?
    ensures var c' := ChildRequest(r, c, cache, want).worker.session.cluster;
      !Carries(c', r.manager.finalizer) && OursSet(c', r.claim) != {} <==>
        && Unwanted(c, want) && |OursSet(c, r.claim)| >= 2
        && exists u | u in OursSet(c, r.claim) :: c.children[u].held
  {
    QuietOpening(r, c, cache, want);
    if Unwanted(c, want) {
      QuietRequest(r, c, cache, want);
      ClearedByClosing(r, c, Opened(c, cache));
    } else {
      QuietBegin(c);
      ReconciledInPlace(r, Worker(Session(GetParent(c).0, c.parent.value), cache), None, want);
    }
  }

  lemma ClearedByClosing(r: Reconciler, c: Cluster, w: Worker)
    requires Peaceful(r, c) && Carries(c, r.manager.finalizer)
    requires w.session.cluster == c.(tape := w.session.cluster.tape) && Quiet(w.session.cluster)
    requires Some(w.session.local) == c.parent
    requires Closing(r, w, Claimed(r.claim, Listing(c.children, c.clock))).out.Ok?
    ensures var c' := Closing(r, w, Claimed(r.claim, Listing(c.children, c.clock))).worker.session.cluster;
      !Carries(c', r.manager.finalizer) && OursSet(c', r.claim) != {} <==>
        |OursSet(c, r.claim)| >= 2 && exists u | u in OursSet(c, r.claim) :: c.children[u].held
  {
    var mine := Claimed(r.claim, Listing(c.children, c.clock));
    ListedOurs(c, r.claim);
    QuietDeletingKeeps(w, mine);
    var c1 := Cleaning(w, mine).worker.session.cluster;
    if |mine| == 1 {
      DeleteHeldStay(w.session.cluster, mine[0].uid);
    } else {
      ClearsFinalizer(Cleaning(w, mine).worker.session, r.manager.finalizer);
      AllListed(c, r.claim);
      forall u ensures u in OursSet(c1, r.claim) <==> u in OursSet(c, r.claim) && c.children[u].held {
        if u in OursSet(c, r.claim) {
          assert Found(u, c.children[u]) in mine;
        }
      }
    }
  }

  /** Nothing was done to the parent, and nothing interferes with what is to come. */
  ghost predicate InPlace(w: Worker, w': Worker) {
    Quiet(w'.session.cluster) && w'.session.cluster.parent == w.session.cluster.parent && w'.session.local == w.session.local
  }

  lemma {:induction false} DeletingInPlace(w: Worker, extras: seq<Found>)
    requires Quiet(w.session.cluster)
    ensures InPlace(w, Deleting(w, extras).worker)
    decreases |extras|
  {
    if |extras| > 0 {
      QuietBegin(w.session.cluster);
      DeletingInPlace(OnCluster(w, DeleteChild(w.session.cluster, extras[0].uid).0), extras[1..]);
    }
  }

  lemma UpdatingInPlace(m: Manager, w: Worker, a: Found, d: Desired)
    requires Quiet(w.session.cluster)
    ensures InPlace(w, Updating(m, w, a, d).worker)
  {
    QuietBegin(w.session.cluster);
  }

  /** A reconciler whose finalizer is set, or that has none, on a parent that stays. */
  lemma SettlingInPlace(r: Reconciler, w: Worker, actual: Option<Found>, want: Want)
    requires Quiet(w.session.cluster) && !w.session.local.terminating
    requires r.manager.finalizer == "" || (!want.WantNone? && r.manager.finalizer in w.session.local.finalizers)
    ensures InPlace(w, Settling(r, w, actual, want).worker)
  {
    QuietBegin(w.session.cluster);
    if want.WantChild? && actual.Some? { UpdatingInPlace(r.manager, w, actual.value, want.desired); }
  }

  lemma ReflectingInPlace(r: Reconciler, did: Did<Shown>)
    requires Quiet(did.worker.session.cluster)
    ensures InPlace(did.worker, Reflecting(r, did).worker)
  {
    QuietBegin(did.worker.session.cluster);
  }

  lemma ListedInPlace(w: Worker, known: Option<seq<Found>>, claim: Claim)
    requires Quiet(w.session.cluster)
    ensures var looked := Looking(w, known);
      && InPlace(w, looked.worker)
      && (looked.out.Ok? ==> InPlace(w, Cleaning(looked.worker, Claimed(claim, looked.out.value)).worker))
  {
    QuietBegin(w.session.cluster);
    var looked := Looking(w, known);
    if looked.out.Ok? {
      DeletingInPlace(looked.worker, Claimed(claim, looked.out.value));
    }
  }

  lemma ReconciledInPlace(r: Reconciler, w: Worker, known: Option<seq<Found>>, want: Want)
    requires Quiet(w.session.cluster) && !w.session.local.terminating
    requires r.manager.finalizer == "" || (!want.WantNone? && r.manager.finalizer in w.session.local.finalizers)
    ensures InPlace(w, ChildReconciled(r, w, known, want).worker)
  {
    ListedInPlace(w, known, r.claim);
    var looked := Looking(w, known);
    if looked.out.Ok? {
      var mine := Claimed(r.claim, looked.out.value);
      var cleaned := Cleaning(looked.worker, mine);
      if cleaned.out.Ok? {
        SettlingInPlace(r, cleaned.worker, if |mine| == 1 then Some(mine[0]) else None, want);
      }
    }
    ReflectingInPlace(r, Reconciled(r, w, known, want));
  }

  function SetManager(): Manager {
    Manager("", {}, {}, false, false)
  }

  function QuietTape(n: nat): seq<Moment> {
    seq(n, _ => Moment([], Done, (o: Obj) => o))
  }

  /** A parent with two children of ours, both held, and the finalizer f. */
  function TwoHeld(terminating: bool): Cluster {
    var child := Child(true, "a", false, true, 0, Obj(map[], 0));
    Cluster(Some(Parent(0, terminating, ["f"])), map[0 := child, 1 := child], 2, {"f"}, QuietTape(5), [])
  }

  /** The documented order fails here, whether the parent is being deleted or DesiredChild
      answers nil: the pass succeeds, the finalizer is off, the children are still there. */
  lemma ClearedEarlyHere(terminating: bool)
    ensures var r := Reconciler(Manager("f", {}, {}, false, false), Any);
      var did := ChildRequest(r, TwoHeld(terminating), map[], WantNone);
      did.out.Ok? && !Carries(did.worker.session.cluster, "f") && OursSet(did.worker.session.cluster, Any) != {}
  {
    var r := Reconciler(Manager("f", {}, {}, false, false), Any);
    var c := TwoHeld(terminating);
    assert OursSet(c, Any) == {0, 1};
    assert c.children[0].held;
    QuietPassSucceeds(r, c, map[], WantNone);
    ClearedEarly(r, c, map[], WantNone);
  }

  lemma TwoHeldCleaned(w: Worker)
    requires w.session.cluster == TwoHeld(false).(tape := QuietTape(4))
    ensures var mine := Claimed(Any, Listing(TwoHeld(false).children, 2));
      |mine| == 2 && Cleaning(w, mine).out.Ok?
  {
    var c := TwoHeld(false);
    assert OursSet(c, Any) == {0, 1};
    ListedOurs(c, Any);
    ClaimedIncreasing(c.children, Any, 2);
    QuietDeletingSucceeds(w, Claimed(Any, Listing(c.children, 2)));
  }

  /** OnlyReconcileChildStatus does not skip the child here: both are deleted. */
  lemma StatusOnlyDeletesHere()
    ensures var c := TwoHeld(false);
      var did := ChildReconciled(Reconciler(SetManager(), Any), Worker(Session(c, c.parent.value), map[]), None, WantStatus);
      did.out == Ok(Reflected(Blank, None)) && |did.worker.session.cluster.writes| == 2
  {
    var c := TwoHeld(false);
    var w := Worker(Session(c, c.parent.value), map[]);
    QuietBegin(c);
    assert c.tape[1..] == QuietTape(4);
    TwoHeldCleaned(Looking(w, None).worker);
    StatusOnlyWrites(Reconciler(SetManager(), Any), w, None);
  }

  // ---------- a set of children

  /** A child shown as going away that is still stored is going away. */
  ghost predicate ShownAsGoing(c: Cluster, known: seq<Found>) {
    forall k | k in known && k.uid in c.children && k.child.terminating :: c.children[k.uid].terminating
  }

  /** No child of ours under the id is left but held ones. */
  ghost predicate OnlyHeldLeft(c: Cluster, known: seq<Found>, id: string) {
    forall k | k in known && Ours(Only(id), k.child) && k.uid in c.children :: c.children[k.uid].held
  }

  lemma MemberLeavesHeld(m: Manager, w: Worker, known: seq<Found>, want: Want, id: string)
    requires m.finalizer == "" && w.session.local.terminating
    requires WellFormed(w.session.cluster) && Quiet(w.session.cluster) && ShownAsGoing(w.session.cluster, known)
    ensures var did := ChildReconciled(Reconciler(m, Only(id)), w, Some(known), want);
      var c, c' := w.session.cluster, did.worker.session.cluster;
      && HeldStay(c, c') && did.worker == OnCluster(w, c') && ShownAsGoing(c', known)
      && (did.out.Ok? ==> OnlyHeldLeft(c', known, id))
  {
    var mine := Claimed(Only(id), known);
    ClaimedMembers(Only(id), known);
    QuietDeletingKeeps(w, mine);
    if |mine| == 1 {
      assert mine[0] in known;
      RemovingLeavesHeld(w, mine[0], known);
      forall k | k in known && Ours(Only(id), k.child) ensures k == mine[0] {
        assert k in mine;
      }
    }
  }

  lemma RemovingLeavesHeld(w: Worker, a: Found, known: seq<Found>)
    requires WellFormed(w.session.cluster) && Quiet(w.session.cluster) && ShownAsGoing(w.session.cluster, known) && a in known
    ensures var r := Removing(w, a);
      var c, c' := w.session.cluster, r.worker.session.cluster;
      && HeldStay(c, c') && r.worker == OnCluster(w, c') && ShownAsGoing(c', known)
      && (r.out.Ok? && a.uid in c'.children ==> c'.children[a.uid].held)
  {
    DeleteHeldStay(w.session.cluster, a.uid);
  }

  lemma {:induction false} MembersLeaveHeld(m: Manager, w: Worker, entry: Entry, known: seq<Found>,
                                            byId: map<string, Desired>, statuses: bool, ids: seq<string>)
    requires m.finalizer == "" && w.session.local.terminating
    requires WellFormed(w.session.cluster) && Quiet(w.session.cluster) && ShownAsGoing(w.session.cluster, known)
    ensures var run := Members(m, w, entry, known, byId, statuses, ids);
      var c' := run.worker.session.cluster;
      && HeldStay(w.session.cluster, c') && run.worker == OnCluster(w, c')
      && (run.out.Ok? ==> forall id | id in ids :: OnlyHeldLeft(c', known, id))
    decreases |ids|
  {
    if |ids| > 0 {
      var want := WantOf(byId, statuses, ids[0]);
      MemberLeavesHeld(m, w, known, want, ids[0]);
      var did := ChildReconciled(Reconciler(m, Only(ids[0])), w, Some(known), want);
      if did.out.Ok? {
        var c1 := did.worker.session.cluster;
        MembersLeaveHeld(m, did.worker, Reflect(entry, ids[0], did.out), known, byId, statuses, ids[1..]);
        var c' := Members(m, w, entry, known, byId, statuses, ids).worker.session.cluster;
        HeldStayTrans(w.session.cluster, c1, c');
        assert ids == [ids[0]] + ids[1..];
      }
    }
  }

  /** The finalizer of a set has the same documentation. Of the undisturbed passes of a set
      that succeed, those that take it off although children of the set are still stored
      are exactly the ones over a parent being deleted that find a held child: one is
      enough, because the pass that deletes the children also clears the finalizer. */
  lemma SetClearedEarly(m: Manager, f: string, w: Worker, want: WantSet)
    requires m.finalizer == "" && f != "" && WellFormed(w.session.cluster) && Quiet(w.session.cluster)
    requires w.session.cluster.parent == Some(w.session.local) && Carries(w.session.cluster, f)
    requires SetReconciled(m, f, w, None, want).out.Ok?
    ensures var c, c' := w.session.cluster, SetReconciled(m, f, w, None, want).worker.session.cluster;
      !Carries(c', f) && OursSet(c', Any) != {} <==>
        w.session.local.terminating && exists u | u in OursSet(c, Any) :: c.children[u].held
  {
    var c := w.session.cluster;
    QuietBegin(c);
    var w1 := Looking(w, None).worker;
    var known := Claimed(Any, Listing(c.children, c.clock));
    var byId := ById(want.children).value;
    var ids := Sorted(byId.Keys + KnownIds(known));
    if w.session.local.terminating {
      ClaimedMembers(Any, Listing(c.children, c.clock));
      ListingMembers(c.children, c.clock);
      MembersLeaveHeld(m, w1, None, known, byId, want.WantStatuses?, ids);
      var run := Members(m, w1, None, known, byId, want.WantStatuses?, ids);
      ClearsFinalizer(run.worker.session, f);
      LeftAreHeld(c, run.worker.session.cluster, known, ids);
    } else {
      MembersInPlace(m, w1, None, known, byId, want.WantStatuses?, ids);
    }
  }

  lemma LeftAreHeld(c: Cluster, c': Cluster, known: seq<Found>, ids: seq<string>)
    requires WellFormed(c) && HeldStay(c, c') && known == Claimed(Any, Listing(c.children, c.clock))
    requires forall id | id in KnownIds(known) :: id in ids && OnlyHeldLeft(c', known, id)
    ensures forall u :: u in OursSet(c', Any) <==> u in OursSet(c, Any) && c.children[u].held
  {
    AllListed(c, Any);
    forall u | u in OursSet(c', Any) ensures c.children[u].held {
      var k := Found(u, c.children[u]);
      assert k in known && k.child.id in KnownIds(known) && Ours(Only(k.child.id), k.child);
    }
  }

  lemma {:induction false} MembersInPlace(m: Manager, w: Worker, entry: Entry, known: seq<Found>,
                                          byId: map<string, Desired>, statuses: bool, ids: seq<string>)
    requires m.finalizer == "" && !w.session.local.terminating && Quiet(w.session.cluster)
    ensures InPlace(w, Members(m, w, entry, known, byId, statuses, ids).worker)
    decreases |ids|
  {
    if |ids| > 0 {
      var r, want := Reconciler(m, Only(ids[0])), WantOf(byId, statuses, ids[0]);
      ReconciledInPlace(r, w, Some(known), want);
      var did := ChildReconciled(r, w, Some(known), want);
      if did.out.Ok? {
        MembersInPlace(m, did.worker, Reflect(entry, ids[0], did.out), known, byId, statuses, ids[1..]);
      }
    }
  }
}
