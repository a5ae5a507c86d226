/** What a child set hands to ReflectChildrenStatusOnParent: the stored children, one entry
    each; and what it writes when only their status is asked for. */
module ChildSetReports {
  import opened Basics
  import opened Api
  import opened Finalizers
  import opened ResourceManagers
  import opened ChildReconcilers
  import opened ChildSafety
  import opened ChildSets
  import opened ChildSetConvergence
  import opened SetTeardown
  import opened ChildReports

  /** The children known under an id. */
  function Under(known: seq<Found>, id: string): seq<Found> {
    Claimed(Only(id), known)
  }

  ghost function UidsUnder(known: seq<Found>, ids: seq<string>): set<Uid> {
    set k | k in known && k.child.owned && k.child.id in ids :: k.uid
  }

  /** The deletes of the children that share an id with another. */
  function SharedDeletes(known: seq<Found>, ids: seq<string>): seq<Write> {
    if |ids| == 0 then []
    else DeletesOf(if |Under(known, ids[0])| > 1 then Under(known, ids[0]) else []) + SharedDeletes(known, ids[1..])
  }

  /** The entry of an id: known are the children found first, c where the pass ends, clock
      when it began. */
  ghost predicate EntryTold(c: Cluster, clock: nat, e: PartialResult, known: seq<Found>,
                            byId: map<string, Desired>, statuses: bool, id: string) {
    var mine := Under(known, id);
    && e.id == id && e.error == None
    && (statuses ==> if |mine| == 1 then e.child == Present(mine[0]) && StoredAs(c, mine[0]) else e.child == Blank)
    && (!statuses && id !in byId ==> e.child == Nil)
    && (!statuses && id in byId ==>
          && e.child.Present? && StoredAs(c, e.child.found) && e.child.found.child.id == id
          && (if |mine| == 1 then e.child.found.uid == mine[0].uid && e.child.found.child.owned
              else e.child.found.uid >= clock && e.child.found.child.owned == byId[id].owned))
  }

  ghost predicate AllStored(c: Cluster, known: seq<Found>, ids: seq<string>) {
    forall id, k | id in ids && k in Under(known, id) :: StoredAs(c, k)
  }

  /** The entries added to before, one for each id. */
  ghost predicate EntriesTold(c: Cluster, clock: nat, before: seq<PartialResult>, after: seq<PartialResult>, known: seq<Found>,
                              byId: map<string, Desired>, statuses: bool, ids: seq<string>) {
    && |after| == |before| + |ids| && before <= after
    && forall i | 0 <= i < |ids| :: EntryTold(c, clock, after[|before| + i], known, byId, statuses, ids[i])
  }

  ghost predicate MembersTell(w: Worker, run: MembersRun, before: seq<PartialResult>, known: seq<Found>,
                              byId: map<string, Desired>, statuses: bool, ids: seq<string>) {
    var c, c' := w.session.cluster, run.worker.session.cluster;
    && Follows(w, run.worker, UidsUnder(known, ids))
    && EntriesTold(c', c.clock, before, Stashed(run.entry), known, byId, statuses, ids)
    && (statuses ==> OnlyLooked(c, c', known, ids))
  }

  /** One member: its entry, and the children of the ids to come. */
  lemma MemberTold(m: Manager, w: Worker, known: seq<Found>, byId: map<string, Desired>, statuses: bool, id: string)
    requires m.finalizer == "" && Calm(w) && (id in byId ==> byId[id].id == id)
    requires forall k | k in Under(known, id) :: StoredAs(w.session.cluster, k)
    requires ChildReconciled(Reconciler(m, Only(id)), w, Some(known), WantOf(byId, statuses, id)).out.Ok?
    ensures var want := WantOf(byId, statuses, id);
      var did := ChildReconciled(Reconciler(m, Only(id)), w, Some(known), want);
      var c, c', mine := w.session.cluster, did.worker.session.cluster, Under(known, id);
      && Follows(w, did.worker, UidsUnder(known, [id]))
      && did.out.value.Reflected?
      && EntryTold(c', c.clock, PartialResult(id, did.out.value.child, did.out.value.error), known, byId, statuses, id)
      && (statuses ==>
            && c'.writes == c.writes + DeletesOf(if |mine| > 1 then mine else [])
            && (|mine| <= 1 ==> c'.children == c.children))
  {
    var want := WantOf(byId, statuses, id);
    ReportsStored(Reconciler(m, Only(id)), w, Some(known), want);
    ClaimedMembers(Only(id), known);
    var mine := Under(known, id);
    if |mine| == 1 { assert mine[0] in mine; }
    assert UidsOf(mine) == UidsUnder(known, [id]);
  }

  lemma RestStored(c: Cluster, c': Cluster, known: seq<Found>, ids: seq<string>)
    requires |ids| > 0 && NoRepeats(ids) && OneEach(known) && WellFormed(c)
    requires AllStored(c, known, ids) && Apart(c, c', UidsUnder(known, [ids[0]]))
    ensures AllStored(c', known, ids[1..])
  {
    forall id, k | id in ids[1..] && k in Under(known, id) ensures StoredAs(c', k) {
      var j :| 0 <= j < |ids[1..]| && ids[1..][j] == id;
      assert ids[j + 1] == id && id in ids && id != ids[0];
      ClaimedMembers(Only(id), known);
      assert StoredAs(c, k);
    }
  }

  /** What an entry shows is not touched by the members of other ids. */
  lemma EntryKept(c: Cluster, c1: Cluster, c': Cluster, e: PartialResult, known: seq<Found>,
                  byId: map<string, Desired>, statuses: bool, ids: seq<string>)
    requires |ids| > 0 && NoRepeats(ids) && OneEach(known) && WellFormed(c) && WellFormed(c1)
    requires AllStored(c, known, ids) && Apart(c1, c', UidsUnder(known, ids[1..]))
    requires EntryTold(c1, c.clock, e, known, byId, statuses, ids[0])
    ensures EntryTold(c', c.clock, e, known, byId, statuses, ids[0])
  {
    if e.child.Present? {
      var u := e.child.found.uid;
      var mine := Under(known, ids[0]);
      if |mine| == 1 { assert mine[0] in mine; }
      ClaimedMembers(Only(ids[0]), known);
      forall k | k in known && k.child.owned && k.child.id in ids[1..] ensures k.uid != u {
        var j :| 0 <= j < |ids[1..]| && ids[1..][j] == k.child.id;
        assert ids[j + 1] == k.child.id && k.child.id in ids;
        ClaimedMembers(Only(k.child.id), known);
        assert k in Under(known, k.child.id) && StoredAs(c, k);
      }
      assert u !in UidsUnder(known, ids[1..]);
    }
  }

  lemma {:induction false} MembersTold(m: Manager, w: Worker, entry: Entry, known: seq<Found>,
                                       byId: map<string, Desired>, statuses: bool, ids: seq<string>)
    requires m.finalizer == "" && Calm(w) && NoRepeats(ids) && OneEach(known)
    requires AllStored(w.session.cluster, known, ids)
    requires forall id | id in byId :: byId[id].id == id
    requires Members(m, w, entry, known, byId, statuses, ids).out.Ok?
    ensures MembersTell(w, Members(m, w, entry, known, byId, statuses, ids), Stashed(entry), known, byId, statuses, ids)
    decreases |ids|
  {
    var c := w.session.cluster;
    if |ids| == 0 {
      assert c.writes + [] == c.writes;
    } else {
      var id := ids[0];
      assert id in ids;
      MemberTold(m, w, known, byId, statuses, id);
      var did := ChildReconciled(Reconciler(m, Only(id)), w, Some(known), WantOf(byId, statuses, id));
      var c1 := did.worker.session.cluster;
      var entry1 := Reflect(entry, id, did.out);
      RestStored(c, c1, known, ids);
      assert NoRepeats(ids[1..]);
      MembersTold(m, did.worker, entry1, known, byId, statuses, ids[1..]);
      var run := Members(m, w, entry, known, byId, statuses, ids);
      EntryKept(c, c1, run.worker.session.cluster, Stashed(entry1)[|Stashed(entry)|], known, byId, statuses, ids);
      OneMoreTold(w, did.worker, run, Stashed(entry), Stashed(entry1), known, byId, statuses, ids);
    }
  }

  lemma OneMoreTold(w: Worker, w1: Worker, run: MembersRun, before: seq<PartialResult>, next: seq<PartialResult>,
                    known: seq<Found>, byId: map<string, Desired>, statuses: bool, ids: seq<string>)
    requires |ids| > 0 && Follows(w, w1, UidsUnder(known, [ids[0]]))
    requires |next| == |before| + 1 && before <= next
    requires EntryTold(run.worker.session.cluster, w.session.cluster.clock, next[|before|], known, byId, statuses, ids[0])
    requires statuses ==>
      var mine := Under(known, ids[0]);
      && w1.session.cluster.writes == w.session.cluster.writes + DeletesOf(if |mine| > 1 then mine else [])
      && (|mine| <= 1 ==> w1.session.cluster.children == w.session.cluster.children)
    requires MembersTell(w1, run, next, known, byId, statuses, ids[1..])
    ensures MembersTell(w, run, before, known, byId, statuses, ids)
  {
    FollowsMore(w, w1, run.worker, known, ids);
    EntriesMore(run.worker.session.cluster, w.session.cluster.clock, w1.session.cluster.clock, before, next, Stashed(run.entry),
                known, byId, statuses, ids);
    if statuses { LookedMore(w.session.cluster, w1.session.cluster, run.worker.session.cluster, known, ids); }
  }

  lemma FollowsMore(w: Worker, w1: Worker, w2: Worker, known: seq<Found>, ids: seq<string>)
    requires |ids| > 0 && Follows(w, w1, UidsUnder(known, [ids[0]])) && Follows(w1, w2, UidsUnder(known, ids[1..]))
    ensures Follows(w, w2, UidsUnder(known, ids))
  {
    UidsSplit(known, ids);
    FollowsTrans(w, w1, w2, UidsUnder(known, [ids[0]]), UidsUnder(known, ids[1..]), UidsUnder(known, ids));
  }

  ghost predicate NoneShared(known: seq<Found>, ids: seq<string>) {
    forall i | 0 <= i < |ids| :: |Under(known, ids[i])| <= 1
  }

  /** A pass that only looks deletes children that share their id, and writes no others. */
  ghost predicate OnlyLooked(c: Cluster, c': Cluster, known: seq<Found>, ids: seq<string>) {
    && c'.writes == c.writes + SharedDeletes(known, ids)
    && (NoneShared(known, ids) ==> c'.children == c.children)
  }

  lemma LookedMore(c: Cluster, c1: Cluster, c': Cluster, known: seq<Found>, ids: seq<string>)
    requires |ids| > 0 && OnlyLooked(c1, c', known, ids[1..])
    requires var mine := Under(known, ids[0]);
      && c1.writes == c.writes + DeletesOf(if |mine| > 1 then mine else [])
      && (|mine| <= 1 ==> c1.children == c.children)
    ensures OnlyLooked(c, c', known, ids)
  {
    if NoneShared(known, ids) {
      assert forall i | 0 <= i < |ids[1..]| :: ids[1..][i] == ids[i + 1];
    }
  }

  lemma UidsSplit(known: seq<Found>, ids: seq<string>)
    requires |ids| > 0
    ensures UidsUnder(known, ids) == UidsUnder(known, [ids[0]]) + UidsUnder(known, ids[1..])
  {
    assert ids == [ids[0]] + ids[1..];
  }

  lemma EntriesMore(c: Cluster, clock: nat, later: nat, before: seq<PartialResult>, next: seq<PartialResult>,
                    after: seq<PartialResult>, known: seq<Found>, byId: map<string, Desired>, statuses: bool, ids: seq<string>)
    requires |ids| > 0 && clock <= later && |next| == |before| + 1 && before <= next
    requires EntryTold(c, clock, next[|before|], known, byId, statuses, ids[0])
    requires EntriesTold(c, later, next, after, known, byId, statuses, ids[1..])
    ensures EntriesTold(c, clock, before, after, known, byId, statuses, ids)
  {
    forall i | 0 <= i < |ids| ensures EntryTold(c, clock, after[|before| + i], known, byId, statuses, ids[i]) {
      if i == 0 {
        assert after[|before|] == next[|before|];
      } else {
        assert EntryTold(c, later, after[|next| + (i - 1)], known, byId, statuses, ids[1..][i - 1]);
        LaterEntry(c, clock, later, after[|before| + i], known, byId, statuses, ids[i]);
      }
    }
  }

  lemma LaterEntry(c: Cluster, clock: nat, later: nat, e: PartialResult, known: seq<Found>,
                   byId: map<string, Desired>, statuses: bool, id: string)
    requires clock <= later && EntryTold(c, later, e, known, byId, statuses, id)
    ensures EntryTold(c, clock, e, known, byId, statuses, id)
  {
  }

  // ---------- the whole pass

  /** The finalizer patch of a pass over a parent that stays, if it is due. */
  function Entering(w: Worker, finalizer: string): seq<Write> {
    if finalizer == "" || finalizer in w.session.local.finalizers then [] else [Patched]
  }

  lemma KnownStored(c: Cluster, ids: seq<string>)
    requires WellFormed(c)
    ensures AllStored(c, KnownOf(c), ids) && OneEach(KnownOf(c))
  {
    KnownStillStored(c);
    ListingMembers(c.children, c.clock);
    ClaimedMembers(Any, Listing(c.children, c.clock));
    forall id, k | id in ids && k in Under(KnownOf(c), id) ensures StoredAs(c, k) {
      ClaimedMembers(Only(id), KnownOf(c));
    }
  }

  lemma ByIdProper(children: seq<Desired>)
    requires ById(children).Some?
    ensures forall id | id in ById(children).value :: ById(children).value[id].id == id
  {
    ByIdMembers(children);
    forall id | id in ById(children).value ensures ById(children).value[id].id == id {
      var i :| 0 <= i < |children| && children[i].id == id;
    }
  }

  ghost predicate SetTold(w: Worker, run: SetRun, want: WantSet, ids: seq<string>, finalizer: string)
    requires Answered(want)
  {
    var c, c', known := w.session.cluster, run.worker.session.cluster, KnownOf(w.session.cluster);
    && run.reported.Some?
    && EntriesTold(c', c.clock, [], run.reported.value, known, ById(want.children).value, want.WantStatuses?, ids)
    && (want.WantStatuses? ==>
          && c'.writes == c.writes + Entering(w, finalizer) + SharedDeletes(known, ids)
          && (NoneShared(known, ids) ==> c'.children == c.children))
  }

  /** An undisturbed pass that succeeds on a parent that stays reports, for every desired or
      known id in order, the child stored under it in the end: the old one if it was alone,
      a new one for a desired id otherwise, none for an id that is not desired. When only
      the status is asked for, it writes the finalizer if due and deletes children that
      share their id, nothing else, and shows the known child or an empty object. */
  lemma SetReportsStored(m: Manager, finalizer: string, w: Worker, want: WantSet)
    requires m.finalizer == "" && Calm(w) && Answered(want)
    requires SetReconciled(m, finalizer, w, None, want).out.Ok?
    ensures var ids := Sorted(ById(want.children).value.Keys + KnownIds(KnownOf(w.session.cluster)));
      SetTold(w, SetReconciled(m, finalizer, w, None, want), want, ids, finalizer)
  {
    var c := w.session.cluster;
    LookingFollows(w, None);
    QuietBegin(c);
    var w1 := Looking(w, None).worker;
    assert Looking(w, None).out == Ok(Listing(c.children, c.clock));
    var byId := ById(want.children).value;
    var ids := Sorted(byId.Keys + KnownIds(KnownOf(c)));
    SortedNoRepeats(ids);
    ByIdProper(want.children);
    KnownStored(c, ids);
    BracketTold(m, finalizer, w, w1, byId, want.WantStatuses?, ids);
  }

  lemma BracketTold(m: Manager, finalizer: string, w: Worker, w1: Worker, byId: map<string, Desired>, statuses: bool, ids: seq<string>)
    requires m.finalizer == "" && Calm(w) && Calm(w1) && NoRepeats(ids)
    requires w1 == OnCluster(w, w1.session.cluster)
    requires w1.session.cluster.children == w.session.cluster.children && w1.session.cluster.clock == w.session.cluster.clock
    requires w1.session.cluster.writes == w.session.cluster.writes
    requires AllStored(w.session.cluster, KnownOf(w.session.cluster), ids) && OneEach(KnownOf(w.session.cluster))
    requires forall id | id in byId :: byId[id].id == id
    requires Bracketed(m, finalizer, w1, None, KnownOf(w.session.cluster), byId, statuses, ids).out.Ok?
    ensures var known := KnownOf(w.session.cluster);
      var run := Bracketed(m, finalizer, w1, None, known, byId, statuses, ids);
      var c, c' := w.session.cluster, run.worker.session.cluster;
      && EntriesTold(c', c.clock, [], Stashed(run.entry), known, byId, statuses, ids)
      && (statuses ==>
            && c'.writes == c.writes + Entering(w, finalizer) + SharedDeletes(known, ids)
            && (NoneShared(known, ids) ==> c'.children == c.children))
  {
    var known := KnownOf(w.session.cluster);
    EnsureFollows(w1, finalizer, true);
    var w2 := w1.(session := Enter(w1.session, finalizer).session);
    var run := Members(m, w2, None, known, byId, statuses, ids);
    MembersReport(m, w2, None, known, byId, statuses, ids);
    if run.out.Ok? {
      SameStored(w.session.cluster, w2.session.cluster, known, ids);
      MembersTold(m, w2, None, known, byId, statuses, ids);
      LaterTold(run.worker.session.cluster, w.session.cluster.clock, w2.session.cluster.clock, Stashed(run.entry), known, byId, statuses, ids);
    }
  }

  lemma LaterTold(c: Cluster, clock: nat, later: nat, entries: seq<PartialResult>, known: seq<Found>,
                  byId: map<string, Desired>, statuses: bool, ids: seq<string>)
    requires clock <= later && EntriesTold(c, later, [], entries, known, byId, statuses, ids)
    ensures EntriesTold(c, clock, [], entries, known, byId, statuses, ids)
  {
    forall i | 0 <= i < |ids| ensures EntryTold(c, clock, entries[i], known, byId, statuses, ids[i]) {
      assert EntryTold(c, later, entries[0 + i], known, byId, statuses, ids[i]);
      LaterEntry(c, clock, later, entries[i], known, byId, statuses, ids[i]);
    }
  }

  lemma SameStored(c: Cluster, c': Cluster, known: seq<Found>, ids: seq<string>)
    requires AllStored(c, known, ids) && c'.children == c.children
    ensures AllStored(c', known, ids)
  {
    forall id, k | id in ids && k in Under(known, id) ensures StoredAs(c', k) {
      assert StoredAs(c, k);
    }
  }

  predicate SharesItsId(known: seq<Found>, id: string, u: Uid) {
    |Under(known, id)| > 1 && exists k | k in Under(known, id) :: k.uid == u
  }

  lemma DeletesAre(extras: seq<Found>, u: Uid)
    ensures Deleted(u) in DeletesOf(extras) <==> exists k | k in extras :: k.uid == u
  {
    if exists k | k in extras :: k.uid == u {
      var k :| k in extras && k.uid == u;
      var i :| 0 <= i < |extras| && extras[i] == k;
      assert DeletesOf(extras)[i] == Deleted(u);
    }
  }

  /** The writes of a pass that only looks are deletes of exactly the children that share
      their id with another known child. */
  lemma {:induction false} SharedAre(known: seq<Found>, ids: seq<string>, u: Uid)
    ensures Deleted(u) in SharedDeletes(known, ids) <==> exists id | id in ids :: SharesItsId(known, id, u)
    ensures forall w | w in SharedDeletes(known, ids) :: w.Deleted?
    decreases |ids|
  {
    if |ids| > 0 {
      SharedAre(known, ids[1..], u);
      var mine := Under(known, ids[0]);
      var first := DeletesOf(if |mine| > 1 then mine else []);
      DeletesAre(if |mine| > 1 then mine else [], u);
      assert Deleted(u) in first <==> SharesItsId(known, ids[0], u);
      assert SharedDeletes(known, ids) == first + SharedDeletes(known, ids[1..]);
      FirstOrRest(known, ids, u);
    }
  }

  lemma FirstOrRest(known: seq<Found>, ids: seq<string>, u: Uid)
    requires |ids| > 0
    ensures (exists id | id in ids :: SharesItsId(known, id, u)) <==>
      SharesItsId(known, ids[0], u) || exists id | id in ids[1..] :: SharesItsId(known, id, u)
  {
    assert ids == [ids[0]] + ids[1..];
  }
}
