/** What a ChildReconciler hands to ReflectChildStatusOnParent, and which errors it keeps to
    itself, told by the stored children. */
module ChildReports {
  import opened Basics
  import opened Api
  import opened Patches
  import opened Finalizers
  import opened ResourceManagers
  import opened ManageEffects
  import opened ChildReconcilers
  import opened ChildSafety
  import opened Teardown
  import opened ChildSets

  // ---------- surplus children

  function DeletesOf(extras: seq<Found>): seq<Write> {
    seq(|extras|, i requires 0 <= i < |extras| => Deleted(extras[i].uid))
  }

  /** Surplus children are deleted in order, and the first error ends it: what is deleted is
      always a prefix, and after a success all of them. */
  lemma {:induction false} DeletesInOrder(w: Worker, extras: seq<Found>)
    requires WellFormed(w.session.cluster)
    ensures var r := Deleting(w, extras);
      && DeletedPrefix(w.session.cluster.writes, r.worker.session.cluster.writes, extras)
      && r.worker == OnCluster(w, r.worker.session.cluster)
      && (r.out.Ok? ==> r.worker.session.cluster.writes == w.session.cluster.writes + DeletesOf(extras))
    decreases |extras|
  {
    var writes := w.session.cluster.writes;
    ShortPrefixes(writes, extras);
    if |extras| > 0 {
      var (c, reply) := DeleteChild(w.session.cluster, extras[0].uid);
      OneDelete(w.session.cluster, extras[0].uid);
      if reply.Ok? {
        DeletesInOrder(OnCluster(w, c), extras[1..]);
        PrefixGrows(writes, Deleting(w, extras).worker.session.cluster.writes, extras);
        assert DeletesOf(extras) == [Deleted(extras[0].uid)] + DeletesOf(extras[1..]);
      }
    }
  }

  lemma OneDelete(c: Cluster, u: Uid)
    requires WellFormed(c)
    ensures var (c', reply) := DeleteChild(c, u);
      && WellFormed(c')
      && (c'.writes == c.writes || c'.writes == c.writes + [Deleted(u)])
      && (reply.Ok? ==> c'.writes == c.writes + [Deleted(u)])
  {
    BeginEvolves(c);
    DeleteDrifts(c, u);
  }

  lemma ShortPrefixes(writes: seq<Write>, extras: seq<Found>)
    ensures DeletedPrefix(writes, writes, extras)
    ensures |extras| > 0 ==> DeletedPrefix(writes, writes + [Deleted(extras[0].uid)], extras)
    ensures |extras| == 0 ==> writes == writes + DeletesOf(extras)
  {
    assert writes == writes + DeletesOf(extras[..0]);
    if |extras| > 0 { assert writes + [Deleted(extras[0].uid)] == writes + DeletesOf(extras[..1]); }
  }

  ghost predicate DeletedPrefix(writes: seq<Write>, writes': seq<Write>, extras: seq<Found>) {
    exists k: nat :: k <= |extras| && writes' == writes + DeletesOf(extras[..k])
  }

  lemma PrefixGrows(writes: seq<Write>, writes': seq<Write>, extras: seq<Found>)
    requires |extras| > 0 && DeletedPrefix(writes + [Deleted(extras[0].uid)], writes', extras[1..])
    ensures DeletedPrefix(writes, writes', extras)
  {
    var k: nat :| k <= |extras[1..]| && writes' == writes + [Deleted(extras[0].uid)] + DeletesOf(extras[1..][..k]);
    assert extras[..k + 1] == [extras[0]] + extras[1..][..k];
    assert DeletesOf(extras[..k + 1]) == [Deleted(extras[0].uid)] + DeletesOf(extras[1..][..k]);
    assert writes' == writes + DeletesOf(extras[..k + 1]);
  }

  // ---------- which errors are kept

  /** The resource that took the name is ours, as far as a read can tell. */
  predicate BlockedByOurs(claim: Claim, c: Cluster, blocker: Uid) {
    var (c1, fate) := Begin(c);
    fate.Done? && blocker in c1.children && Ours(claim, c1.children[blocker])
  }

  /** An error of the pass is kept and reflected, with no child, exactly when the parent
      stays and the error is that the child is invalid, or that its name is taken by a
      resource that is not ours. Any other error is returned as it is. */
  lemma ErrorsKept(r: Reconciler, w: Worker, known: Option<seq<Found>>, want: Want)
    requires Reconciled(r, w, known, want).out.Err?
    ensures var e := Reconciled(r, w, known, want).out.error;
      var did := ChildReconciled(r, w, known, want);
      var kept := !w.session.local.terminating
        && (e.Invalid? || (e.AlreadyExists? && !BlockedByOurs(r.claim, Reconciled(r, w, known, want).worker.session.cluster, e.blocker)));
      did.out == if kept then Ok(Reflected(Nil, Some(e))) else Err(e)
  {
    ReconciledStays(r, w, known, want);
  }

  /** A list that fails ends the pass with its error; so does DesiredChild on a parent that
      stays, once surplus children are gone, and nothing is managed. */
  lemma ErrorsEndThePass(r: Reconciler, w: Worker, known: Option<seq<Found>>, want: Want)
    requires WellFormed(w.session.cluster)
    ensures var (c1, fate) := Begin(w.session.cluster);
      known.None? && !fate.Done? ==> Reconciled(r, w, known, want) == Did(OnCluster(w, c1), Err(fate.error))
    ensures var looked := Looking(w, known);
      looked.out.Ok? && want.WantError? && !w.session.local.terminating ==>
        var mine := Claimed(r.claim, looked.out.value);
        var did := Reconciled(r, w, known, want);
        && did.out.Err? && did.worker == OnCluster(w, did.worker.session.cluster)
        && Drifts(w.session.cluster, did.worker.session.cluster)
        && (|mine| <= 1 ==> did.out == Err(want.error) && did.worker.session.cluster.writes == w.session.cluster.writes)
        && (|mine| > 1 && Deleting(looked.worker, mine).out.Ok? ==> did.out == Err(want.error))
        && (|mine| > 1 && Deleting(looked.worker, mine).out.Err? ==> did.out == Err(Deleting(looked.worker, mine).out.error))
  {
    BeginEvolves(w.session.cluster);
    LookingSees(w, known);
    var looked := Looking(w, known);
    if looked.out.Ok? {
      var mine := Claimed(r.claim, looked.out.value);
      DeletingDrifts(looked.worker, mine);
      DriftsTrans(w.session.cluster, looked.worker.session.cluster, Cleaning(looked.worker, mine).worker.session.cluster);
    }
  }

  // ---------- undisturbed passes over a parent that stays

  /** Nothing interferes, and an up-to-date copy of the parent says that it stays. */
  ghost predicate Calm(w: Worker) {
    && WellFormed(w.session.cluster) && Quiet(w.session.cluster) && !w.session.local.terminating
    && (w.session.cluster.parent.Some? && w.session.cluster.parent.value.version == w.session.local.version ==>
          !w.session.cluster.parent.value.terminating)
  }

  predicate StoredAs(c: Cluster, k: Found) {
    k.uid in c.children && c.children[k.uid] == k.child
  }

  /** Among the children c knew, only those in touched may have changed. */
  ghost predicate Apart(c: Cluster, c': Cluster, touched: set<Uid>) {
    && c.clock <= c'.clock
    && forall u | u < c.clock && u !in touched ::
         (u in c'.children <==> u in c.children) && (u in c.children ==> c'.children[u] == c.children[u])
  }

  /** w' follows from w in an undisturbed pass, and touched no other children. */
  ghost predicate Follows(w: Worker, w': Worker, touched: set<Uid>) {
    Calm(w') && Apart(w.session.cluster, w'.session.cluster, touched)
  }

  lemma FollowsTrans(a: Worker, b: Worker, c: Worker, s: set<Uid>, t: set<Uid>, all: set<Uid>)
    requires Follows(a, b, s) && Follows(b, c, t) && s <= all && forall u | u in t :: u in all || u >= a.session.cluster.clock
    ensures Follows(a, c, all)
  {
  }

  function UidsOf(found: seq<Found>): set<Uid> {
    set k | k in found :: k.uid
  }

  lemma {:induction false} DeletingFollows(w: Worker, extras: seq<Found>)
    requires Calm(w)
    ensures var r := Deleting(w, extras);
      Follows(w, r.worker, UidsOf(extras)) && Surfaces(r.out)
    decreases |extras|
  {
    if |extras| > 0 {
      var c := w.session.cluster;
      QuietBegin(c);
      DeleteDrifts(c, extras[0].uid);
      var (c1, reply) := DeleteChild(c, extras[0].uid);
      assert extras[0] in extras && forall k | k in extras[1..] :: k in extras;
      assert Follows(w, OnCluster(w, c1), {extras[0].uid});
      if reply.Ok? {
        DeletingFollows(OnCluster(w, c1), extras[1..]);
        FollowsTrans(w, OnCluster(w, c1), Deleting(w, extras).worker, {extras[0].uid}, UidsOf(extras[1..]), UidsOf(extras));
      }
    }
  }

  lemma LookingFollows(w: Worker, known: Option<seq<Found>>)
    requires Calm(w)
    ensures var r := Looking(w, known);
      var c, c' := w.session.cluster, r.worker.session.cluster;
      && Follows(w, r.worker, {}) && r.worker == OnCluster(w, c')
      && c'.children == c.children && c'.clock == c.clock && c'.writes == c.writes && c'.parent == c.parent && Surfaces(r.out)
      && (known.None? && r.out.Ok? ==> forall k | k in r.out.value :: StoredAs(c, k))
  {
    QuietBegin(w.session.cluster);
    ListingMembers(w.session.cluster.children, w.session.cluster.clock);
  }

  lemma EnsureFollows(w: Worker, name: string, add: bool)
    requires Calm(w)
    ensures var r := Ensure(w.session, name, add);
      var w' := w.(session := r.session);
      && (r.out.Ok? ==> Follows(w, w', {}) && (name != "" ==> (name in r.session.local.finalizers) == add))
      && Surfaces(r.out) && r.session.cluster.children == w.session.cluster.children
      && (r.out.Ok? ==> r.session.cluster.writes == w.session.cluster.writes
                          + (if name == "" || (name in w.session.local.finalizers) == add then [] else [Patched]))
  {
    QuietBegin(w.session.cluster);
    if name == "" || (name in w.session.local.finalizers) == add {
      assert w.session.cluster.writes + [] == w.session.cluster.writes;
    }
  }

  lemma CreatingFollows(m: Manager, w: Worker, d: Desired)
    requires Calm(w)
    ensures var r := Creating(m, w, d);
      && Surfaces(r.out)
      && (r.out.Ok? ==>
            && Follows(w, r.worker, {}) && r.out.value.Some?
            && var k := r.out.value.value;
               StoredAs(r.worker.session.cluster, k) && k.uid >= w.session.cluster.clock && k.uid < r.worker.session.cluster.clock
               && k.child.owned == d.owned && k.child.id == d.id && !k.child.terminating)
  {
    QuietBegin(w.session.cluster);
  }

  lemma UpdatingFollows(m: Manager, w: Worker, a: Found, d: Desired)
    requires Calm(w) && StoredAs(w.session.cluster, a)
    ensures var r := Updating(m, w, a, d);
      && Surfaces(r.out)
      && (r.out.Ok? ==>
            && Follows(w, r.worker, {a.uid}) && r.out.value.Some?
            && var k := r.out.value.value;
               StoredAs(r.worker.session.cluster, k) && k.uid == a.uid
               && k.child.owned == a.child.owned && k.child.id == a.child.id)
  {
    QuietBegin(w.session.cluster);
  }

  lemma RemovingFollows(w: Worker, a: Found)
    requires Calm(w)
    ensures var r := Removing(w, a);
      Surfaces(r.out) && (r.out.Ok? ==> Follows(w, r.worker, {a.uid}) && r.out == Ok(None))
  {
    QuietBegin(w.session.cluster);
    DeleteDrifts(w.session.cluster, a.uid);
  }

  /** What is shown of the children under one claim: mine are those found before. */
  ghost predicate ShowsStored(c: Cluster, c': Cluster, mine: seq<Found>, want: Want, shown: Shown) {
    match want
    case WantChild(d) =>
      && shown.Present? && StoredAs(c', shown.found)
      && (if |mine| == 1
          then shown.found.uid == mine[0].uid
               && shown.found.child.owned == mine[0].child.owned && shown.found.child.id == mine[0].child.id
          else shown.found.uid >= c.clock && shown.found.child.owned == d.owned && shown.found.child.id == d.id
               && !shown.found.child.terminating)
    case WantNone => shown == Nil
    case WantStatus => if |mine| == 1 then shown == Present(mine[0]) && StoredAs(c', mine[0]) else shown == Blank
    case WantError(_) => false
  }

  lemma ManagedFollows(r: Reconciler, w: Worker, actual: Option<Found>, desired: Option<Desired>)
    requires Calm(w) && (actual.Some? ==> StoredAs(w.session.cluster, actual.value))
    ensures var did := ManagedShown(r, w, actual, desired);
      var touched := if actual.Some? then {actual.value.uid} else {};
      var want := if desired.Some? then WantChild(desired.value) else WantNone;
      && Surfaces(did.out)
      && (did.out.Ok? ==>
            && Follows(w, did.worker, touched)
            && ShowsStored(w.session.cluster, did.worker.session.cluster,
                           if actual.Some? then [actual.value] else [], want, did.out.value))
  {
    if desired.None? {
      if actual.None? { EnsureFollows(w, r.manager.finalizer, false); } else { RemovingFollows(w, actual.value); }
    } else {
      EnsureFollows(w, r.manager.finalizer, true);
      var w1 := w.(session := Ensure(w.session, r.manager.finalizer, true).session);
      if Ensure(w.session, r.manager.finalizer, true).out.Ok? {
        if actual.None? {
          CreatingFollows(r.manager, w1, desired.value);
        } else {
          UpdatingFollows(r.manager, w1, actual.value, desired.value);
        }
      }
    }
  }

  lemma SettlingFollows(r: Reconciler, w: Worker, actual: Option<Found>, want: Want)
    requires Calm(w) && (actual.Some? ==> StoredAs(w.session.cluster, actual.value)) && !want.WantError?
    ensures var did := Settling(r, w, actual, want);
      var touched := if actual.Some? then {actual.value.uid} else {};
      && Surfaces(did.out)
      && (want.WantStatus? ==> did.worker == w)
      && (did.out.Ok? ==>
            && Follows(w, did.worker, touched)
            && ShowsStored(w.session.cluster, did.worker.session.cluster,
                           if actual.Some? then [actual.value] else [], want, did.out.value))
  {
    match want
    case WantChild(d) => ManagedFollows(r, w, actual, Some(d));
    case WantNone => ManagedFollows(r, w, actual, None);
    case _ =>
  }

  lemma CleaningFollows(w: Worker, mine: seq<Found>)
    requires Calm(w)
    ensures var cleaned := Cleaning(w, mine);
      && Surfaces(cleaned.out) && Follows(w, cleaned.worker, if |mine| > 1 then UidsOf(mine) else {})
      && (|mine| <= 1 ==> cleaned.worker == w)
      && (cleaned.out.Ok? ==>
            cleaned.worker.session.cluster.writes == w.session.cluster.writes + DeletesOf(if |mine| > 1 then mine else []))
  {
    DeletingFollows(w, mine);
    DeletesInOrder(w, mine);
    assert w.session.cluster.writes + DeletesOf([]) == w.session.cluster.writes;
  }

  /** What a reconciler tells about a pass: mine are the children it found. */
  ghost predicate Told(r: Reconciler, w: Worker, mine: seq<Found>, want: Want, did: Did<Reflection>) {
    var c, c' := w.session.cluster, did.worker.session.cluster;
    && Follows(w, did.worker, UidsOf(mine))
    && did.out.Ok? && did.out.value.Reflected? && did.out.value.error == None
    && ShowsStored(c, c', mine, want, did.out.value.child)
    && (want.WantStatus? ==>
          && c'.writes == c.writes + DeletesOf(if |mine| > 1 then mine else [])
          && (|mine| <= 1 ==> c'.children == c.children))
  }

  /** An undisturbed pass that succeeds on a parent that stays shows the child that is
      stored in the end: the old one if it was alone, or else a new one, when one is desired;
      none when none is; and without touching it when only the status is asked for. */
  lemma ReportsStored(r: Reconciler, w: Worker, known: Option<seq<Found>>, want: Want)
    requires Calm(w) && !want.WantError? && ChildReconciled(r, w, known, want).out.Ok?
    requires known.Some? ==> forall k | k in Claimed(r.claim, known.value) :: StoredAs(w.session.cluster, k)
    ensures Looking(w, known).out.Ok?
    ensures Told(r, w, Claimed(r.claim, Looking(w, known).out.value), want, ChildReconciled(r, w, known, want))
  {
    var looked := Looking(w, known);
    LookingFollows(w, known);
    ReconciledStays(r, w, known, want);
    if looked.out.Ok? {
      var mine := Claimed(r.claim, looked.out.value);
      ClaimedMembers(r.claim, looked.out.value);
      CleaningFollows(looked.worker, mine);
      var cleaned := Cleaning(looked.worker, mine);
      var actual := if |mine| == 1 then Some(mine[0]) else None;
      if |mine| == 1 { assert mine[0] in mine; }
      SettlingFollows(r, cleaned.worker, actual, want);
      SettledTold(r, w, looked.worker, mine, want);
    }
  }

  lemma SettledTold(r: Reconciler, w: Worker, w1: Worker, mine: seq<Found>, want: Want)
    requires Calm(w) && !want.WantError? && Follows(w, w1, {})
    requires w1.session.cluster.children == w.session.cluster.children && w1.session.cluster.clock == w.session.cluster.clock
    requires w1.session.cluster.writes == w.session.cluster.writes
    requires var cleaned := Cleaning(w1, mine);
      && Follows(w1, cleaned.worker, if |mine| > 1 then UidsOf(mine) else {})
      && (|mine| <= 1 ==> cleaned.worker == w1)
      && (cleaned.out.Ok? ==> cleaned.worker.session.cluster.writes == w1.session.cluster.writes + DeletesOf(if |mine| > 1 then mine else []))
    requires var w2 := Cleaning(w1, mine).worker;
      var actual := if |mine| == 1 then Some(mine[0]) else None;
      var did := Settling(r, w2, actual, want);
      && (want.WantStatus? ==> did.worker == w2)
      && (did.out.Ok? ==>
            && Follows(w2, did.worker, if |mine| == 1 then {mine[0].uid} else {})
            && ShowsStored(w2.session.cluster, did.worker.session.cluster,
                           if actual.Some? then [actual.value] else [], want, did.out.value))
    ensures var cleaned := Cleaning(w1, mine);
      var did := Settling(r, cleaned.worker, if |mine| == 1 then Some(mine[0]) else None, want);
      cleaned.out.Ok? && did.out.Ok? ==>
        Told(r, w, mine, want, Did(did.worker, Ok(Reflected(did.out.value, None))))
  {
    var cleaned := Cleaning(w1, mine);
    var did := Settling(r, cleaned.worker, if |mine| == 1 then Some(mine[0]) else None, want);
    if cleaned.out.Ok? && did.out.Ok? {
      var t1: set<Uid> := if |mine| > 1 then UidsOf(mine) else {};
      var t2: set<Uid> := if |mine| == 1 then {mine[0].uid} else {};
      if |mine| == 1 { assert mine[0] in mine; }
      FollowsTrans(w, w1, cleaned.worker, {}, t1, UidsOf(mine));
      FollowsTrans(w, cleaned.worker, did.worker, UidsOf(mine), t2, UidsOf(mine));
    }
  }
}
