/** A set of children on a parent being deleted: exactly which answers of DesiredChildren let
    an undisturbed pass through, and that it then releases the parent. */
module SetTeardown {
  import opened Basics
  import opened Api
  import opened Finalizers
  import opened ResourceManagers
  import opened ChildReconcilers
  import opened ChildSafety
  import opened Teardown
  import opened ChildSets
  import opened ChildSetConvergence
  import opened EarlyClearing

  /** The children listed under the id are still stored, each once in the list. */
  ghost predicate StillStored(c: Cluster, known: seq<Found>, id: string) {
    && Increasing(Claimed(Only(id), known))
    && forall k | k in Claimed(Only(id), known) :: k.uid in c.children
  }

  /** One uid, one child. */
  ghost predicate OneEach(known: seq<Found>) {
    forall j, k | j in known && k in known && j.uid == k.uid :: j == k
  }

  lemma DeleteSpares(c: Cluster, u: Uid, v: Uid)
    requires Quiet(c) && v in c.children && v != u
    ensures v in DeleteChild(c, u).0.children
  {
    QuietBegin(c);
  }

  lemma {:induction false} DeletingSpares(w: Worker, extras: seq<Found>, v: Uid)
    requires Quiet(w.session.cluster) && v in w.session.cluster.children && forall k | k in extras :: k.uid != v
    ensures v in Deleting(w, extras).worker.session.cluster.children
    decreases |extras|
  {
    if |extras| > 0 {
      QuietBegin(w.session.cluster);
      assert extras[0] in extras && forall k | k in extras[1..] :: k in extras;
      DeleteSpares(w.session.cluster, extras[0].uid, v);
      DeletingSpares(OnCluster(w, DeleteChild(w.session.cluster, extras[0].uid).0), extras[1..], v);
    }
  }

  /** The deletes of a member, one or several. */
  lemma MemberCalls(w: Worker, mine: seq<Found>)
    requires WellFormed(w.session.cluster) && Quiet(w.session.cluster) && |mine| <= |w.session.cluster.tape|
    requires Increasing(mine) && forall k | k in mine :: k.uid in w.session.cluster.children
    ensures var cleaned := Cleaning(w, mine);
      && cleaned.out.Ok?
      && (|mine| != 1 ==> |cleaned.worker.session.cluster.tape| == |w.session.cluster.tape| - |mine|)
      && (|mine| == 1 ==>
            Removing(w, mine[0]).out.Ok?
            && |Removing(w, mine[0]).worker.session.cluster.tape| >= |w.session.cluster.tape| - 1)
  {
    QuietDeletingSucceeds(w, mine);
    if |mine| == 1 {
      assert mine[0] in mine;
      QuietBegin(w.session.cluster);
    }
  }

  lemma MemberDeletes(m: Manager, w: Worker, known: seq<Found>, want: Want, id: string)
    requires m.finalizer == "" && w.session.local.terminating
    requires WellFormed(w.session.cluster) && Quiet(w.session.cluster)
    requires StillStored(w.session.cluster, known, id)
    requires |w.session.cluster.tape| >= |Claimed(Only(id), known)|
    ensures var did := ChildReconciled(Reconciler(m, Only(id)), w, Some(known), want);
      did.out.Ok? && |did.worker.session.cluster.tape| >= |w.session.cluster.tape| - |Claimed(Only(id), known)|
  {
    var mine := Claimed(Only(id), known);
    MemberCalls(w, mine);
    StaysTerminating(Reconciler(m, Only(id)), w, mine);
    assert Reconciled(Reconciler(m, Only(id)), w, Some(known), want) == Closing(Reconciler(m, Only(id)), w, mine);
  }

  lemma MemberSpares(m: Manager, w: Worker, known: seq<Found>, want: Want, id: string, v: Uid)
    requires m.finalizer == "" && w.session.local.terminating && WellFormed(w.session.cluster) && Quiet(w.session.cluster)
    requires v in w.session.cluster.children && forall k | k in Claimed(Only(id), known) :: k.uid != v
    ensures v in ChildReconciled(Reconciler(m, Only(id)), w, Some(known), want).worker.session.cluster.children
  {
    var mine := Claimed(Only(id), known);
    DeletingSpares(w, mine, v);
    StaysTerminating(Reconciler(m, Only(id)), w, mine);
    if |mine| == 1 {
      assert mine[0] in mine;
      DeleteSpares(w.session.cluster, mine[0].uid, v);
    }
    assert Reconciled(Reconciler(m, Only(id)), w, Some(known), want) == Closing(Reconciler(m, Only(id)), w, mine);
  }

  lemma OthersStillStored(m: Manager, w: Worker, known: seq<Found>, want: Want, id: string, other: string)
    requires m.finalizer == "" && w.session.local.terminating && WellFormed(w.session.cluster) && Quiet(w.session.cluster)
    requires OneEach(known) && other != id && StillStored(w.session.cluster, known, other)
    ensures StillStored(ChildReconciled(Reconciler(m, Only(id)), w, Some(known), want).worker.session.cluster, known, other)
  {
    ClaimedMembers(Only(id), known);
    ClaimedMembers(Only(other), known);
    var c' := ChildReconciled(Reconciler(m, Only(id)), w, Some(known), want).worker.session.cluster;
    forall k | k in Claimed(Only(other), known) ensures k.uid in c'.children {
      MemberSpares(m, w, known, want, id, k.uid);
    }
  }

  lemma {:induction false} MembersDelete(m: Manager, w: Worker, entry: Entry, known: seq<Found>,
                                         byId: map<string, Desired>, statuses: bool, ids: seq<string>)
    requires m.finalizer == "" && w.session.local.terminating && NoRepeats(ids) && OneEach(known)
    requires WellFormed(w.session.cluster) && Quiet(w.session.cluster) && ShownAsGoing(w.session.cluster, known)
    requires forall id | id in ids :: StillStored(w.session.cluster, known, id)
    requires |w.session.cluster.tape| >= Calls(known, ids)
    ensures var run := Members(m, w, entry, known, byId, statuses, ids);
      run.out.Ok? && |run.worker.session.cluster.tape| >= |w.session.cluster.tape| - Calls(known, ids)
    decreases |ids|
  {
    if |ids| > 0 {
      var id, want := ids[0], WantOf(byId, statuses, ids[0]);
      var did := ChildReconciled(Reconciler(m, Only(id)), w, Some(known), want);
      MemberDeletes(m, w, known, want, id);
      MemberLeavesHeld(m, w, known, want, id);
      forall other | other in ids[1..] ensures StillStored(did.worker.session.cluster, known, other) {
        var i :| 0 <= i < |ids[1..]| && ids[1..][i] == other;
        assert ids[i + 1] == other && other in ids;
        OthersStillStored(m, w, known, want, id, other);
      }
      assert NoRepeats(ids[1..]);
      MembersDelete(m, did.worker, Reflect(entry, id, did.out), known, byId, statuses, ids[1..]);
    }
  }

  lemma KnownStillStored(c: Cluster)
    requires WellFormed(c)
    ensures OneEach(KnownOf(c)) && ShownAsGoing(c, KnownOf(c))
    ensures forall id :: StillStored(c, KnownOf(c), id)
  {
    var listed := Listing(c.children, c.clock);
    ListingMembers(c.children, c.clock);
    ClaimedMembers(Any, listed);
    forall id ensures StillStored(c, KnownOf(c), id) {
      ClaimedMembers(Only(id), KnownOf(c));
      ClaimedTwice(id, listed);
      ClaimedIncreasing(c.children, Only(id), c.clock);
    }
  }

  /** DesiredChildren answers with ids that are neither empty nor repeated. */
  predicate Answered(want: WantSet) {
    !want.WantFailure? && ById(want.children).Some?
  }

  /** The calls of a pass: the list, the members', and the clear. */
  ghost function CallsOf(c: Cluster, want: WantSet): nat
    requires Answered(want)
  {
    2 + Calls(KnownOf(c), Sorted(ById(want.children).value.Keys + KnownIds(KnownOf(c))))
  }

  lemma BracketReleases(m: Manager, f: string, w: Worker, known: seq<Found>,
                        byId: map<string, Desired>, statuses: bool, ids: seq<string>)
    requires m.finalizer == "" && w.session.local.terminating && NoRepeats(ids) && OneEach(known)
    requires WellFormed(w.session.cluster) && Quiet(w.session.cluster) && ShownAsGoing(w.session.cluster, known)
    requires w.session.cluster.parent == Some(w.session.local)
    requires forall id | id in ids :: StillStored(w.session.cluster, known, id)
    requires |w.session.cluster.tape| > Calls(known, ids)
    ensures var run := Bracketed(m, f, w, None, known, byId, statuses, ids);
      run.out.Ok? && (f != "" ==> !Carries(run.worker.session.cluster, f))
  {
    MembersDelete(m, w, None, known, byId, statuses, ids);
    MembersLeaveHeld(m, w, None, known, byId, statuses, ids);
    var run := Members(m, w, None, known, byId, statuses, ids);
    ClearSucceeds(run.worker.session, f);
    if f != "" { ClearsFinalizer(run.worker.session, f); }
  }

  lemma ClearSucceeds(s: Session, f: string)
    requires Quiet(s.cluster) && s.cluster.parent == Some(s.local) && |s.cluster.tape| > 0
    ensures Ensure(s, f, false).out.Ok?
  {
    QuietBegin(s.cluster);
  }

  lemma ComposedReleases(m: Manager, f: string, w: Worker, c: Cluster, want: WantSet)
    requires m.finalizer == "" && w.session.local.terminating && WellFormed(c) && Answered(want)
    requires WellFormed(w.session.cluster) && Quiet(w.session.cluster) && w.session.cluster.children == c.children
    requires w.session.cluster.parent == Some(w.session.local)
    requires |w.session.cluster.tape| >= CallsOf(c, want) - 1
    ensures var run := Composed(m, f, w, None, KnownOf(c), want);
      run.out.Ok? && (f != "" ==> !Carries(run.worker.session.cluster, f))
  {
    var ids := Sorted(ById(want.children).value.Keys + KnownIds(KnownOf(c)));
    SortedNoRepeats(ids);
    KnownStillStored(c);
    forall id ensures StillStored(w.session.cluster, KnownOf(c), id) {
      assert StillStored(c, KnownOf(c), id);
    }
    BracketReleases(m, f, w, KnownOf(c), ById(want.children).value, want.WantStatuses?, ids);
  }

  /** The documentation says that on a parent being deleted the desired children are not
      asked for and existing ones are deleted. A set asks all the same. An undisturbed pass
      that is not cut short succeeds exactly when the answer is no error and has neither an
      empty nor a repeated id; then the finalizer is off. Otherwise parent and children are
      left as they were. */
  lemma SetReleasesExactly(m: Manager, f: string, w: Worker, want: WantSet)
    requires m.finalizer == "" && WellFormed(w.session.cluster) && Quiet(w.session.cluster)
    requires w.session.cluster.parent == Some(w.session.local) && w.session.local.terminating
    requires Answered(want) ==> |w.session.cluster.tape| >= CallsOf(w.session.cluster, want)
    ensures var run := SetReconciled(m, f, w, None, want);
      var c, c' := w.session.cluster, run.worker.session.cluster;
      && (run.out.Ok? <==> Answered(want))
      && (run.out.Ok? && f != "" ==> !Carries(c', f))
      && (run.out.Err? ==> c'.children == c.children && c'.parent == c.parent)
  {
    var c := w.session.cluster;
    QuietBegin(c);
    if Answered(want) {
      assert Looking(w, None).out == Ok(Listing(c.children, c.clock));
      ComposedReleases(m, f, Looking(w, None).worker, c, want);
    }
  }

  /** The answers that block: an error, an empty id, an id given twice. */
  function BlockingAnswers(): seq<WantSet> {
    var a, anonymous := Desired(true, "a", Obj(map[], 0)), Desired(true, "", Obj(map[], 0));
    [WantFailure(Other), WantChildren([anonymous]), WantChildren([a, a])]
  }

  /** A parent being deleted, with one live child of ours and the finalizer f. */
  function OneLive(): Cluster {
    Cluster(Some(Parent(0, true, ["f"])), map[0 := Child(true, "a", false, false, 0, Obj(map[], 0))], 1, {"f"}, QuietTape(3), [])
  }

  /** Each of them keeps the finalizer on and the child live. */
  lemma BlockedHere(i: nat)
    requires i < |BlockingAnswers()|
    ensures var c := OneLive();
      var run := SetReconciled(SetManager(), "f", Worker(Session(c, c.parent.value), map[]), None, BlockingAnswers()[i]);
      run.out.Err? && Carries(run.worker.session.cluster, "f") && Live(run.worker.session.cluster, 0)
  {
    var c, want := OneLive(), BlockingAnswers()[i];
    if !want.WantFailure? { ByIdMembers(want.children); }
    SetReleasesExactly(SetManager(), "f", Worker(Session(c, c.parent.value), map[]), want);
  }

  // ---------- an input where the set's finalizer comes off early

  /** A parent being deleted, with one child of ours, held, and the finalizer f. */
  function OneHeld(): Cluster {
    Cluster(Some(Parent(0, true, ["f"])), map[0 := Child(true, "a", false, true, 0, Obj(map[], 0))], 1, {"f"}, QuietTape(4), [])
  }

  lemma OneKnown(k: Found)
    requires k.child.owned
    ensures Claimed(Any, [k]) == [k] && Claimed(Only(k.child.id), [k]) == [k]
  {
    assert [k][..0] == [];
    assert Claimed(Any, []) == [] && Claimed(Only(k.child.id), []) == [];
  }

  lemma OneId(k: Found)
    ensures Sorted(KnownIds([k])) == [k.child.id]
  {
    assert KnownIds([k]) == {k.child.id};
    SortedUnique(Sorted(KnownIds([k])), [k.child.id]);
  }

  lemma OneHeldKnown()
    ensures KnownOf(OneHeld()) == [Found(0, OneHeld().children[0])]
  {
    var c := OneHeld();
    OneKnown(Found(0, c.children[0]));
    assert Listing(c.children, 0) == [];
    assert Listing(c.children, 1) == [Found(0, c.children[0])];
  }

  lemma OneHeldCalls()
    ensures Answered(WantChildren([])) && CallsOf(OneHeld(), WantChildren([])) == 4
  {
    var k := Found(0, OneHeld().children[0]);
    OneHeldKnown();
    OneKnown(k);
    OneId(k);
    assert ById([]).value.Keys + KnownIds([k]) == KnownIds([k]);
    assert ["a"][1..] == [] && Calls([k], []) == 0;
    assert Calls([k], ["a"]) == 2;
  }

  /** One held child is enough for a set. Here too the report is empty, although a known
      child was reconciled without error. */
  lemma SetClearedEarlyHere()
    ensures var c := OneHeld();
      var run := SetReconciled(SetManager(), "f", Worker(Session(c, c.parent.value), map[]), None, WantChildren([]));
      && run.out.Ok? && run.reported == Some([])
      && !Carries(run.worker.session.cluster, "f") && OursSet(run.worker.session.cluster, Any) != {}
  {
    var c := OneHeld();
    var w := Worker(Session(c, c.parent.value), map[]);
    OneHeldCalls();
    SetReleasesExactly(SetManager(), "f", w, WantChildren([]));
    SetReports(SetManager(), "f", w, WantChildren([]));
    assert 0 in OursSet(c, Any) && c.children[0].held;
    SetClearedEarly(SetManager(), "f", w, WantChildren([]));
  }
}
