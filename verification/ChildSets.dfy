/** reconcilers/childset.go: a set of desired children, told apart by their ids, is brought
    about by one ChildReconciler per id, run in the order of the ids. */
module ChildSets {
  import opened Basics
  import opened Api
  import opened Finalizers
  import opened ResourceManagers
  import opened ChildReconcilers

  /** What DesiredChildren answers; statuses only is OnlyReconcileChildStatus. */
  datatype WantSet =
    | WantChildren(children: seq<Desired>)
    | WantStatuses(children: seq<Desired>)
    | WantFailure(error: ApiError)

  datatype PartialResult = PartialResult(id: string, child: Shown, error: Option<ApiError>)

  /** The stash entry the child reconcilers report through. */
  type Entry = Option<seq<PartialResult>>

  datatype MembersRun = MembersRun(worker: Worker, entry: Entry, out: Outcome<()>)

  /** reported is what ReflectChildrenStatusOnParent gets, if it is called. */
  datatype SetRun = SetRun(worker: Worker, entry: Entry, reported: Entry, out: Outcome<()>)

  // ---------- specification

  /** Desired children by id; none when an id is empty or taken twice. */
  function ById(children: seq<Desired>): Option<map<string, Desired>> {
    if |children| == 0 then Some(map[])
    else
      var rest := ById(children[..|children| - 1]);
      var last := children[|children| - 1];
      if rest.None? || last.id == "" || last.id in rest.value then None
      else Some(rest.value[last.id := last])
  }

  function KnownIds(known: seq<Found>): set<string> {
    set k | k in known :: k.child.id
  }

  function Stashed(entry: Entry): seq<PartialResult> {
    if entry.None? then [] else entry.value
  }

  function Reflect(entry: Entry, id: string, out: Outcome<Reflection>): Entry {
    if out.Ok? && out.value.Reflected? then Some(Stashed(entry) + [PartialResult(id, out.value.child, out.value.error)])
    else entry
  }

  function WantOf(byId: map<string, Desired>, statuses: bool, id: string): Want {
    if statuses then WantStatus else if id in byId then WantChild(byId[id]) else WantNone
  }

  /** The child reconcilers in order, up to the first error. */
  function Members(m: Manager, w: Worker, entry: Entry, known: seq<Found>,
                    byId: map<string, Desired>, statuses: bool, ids: seq<string>): MembersRun
    decreases |ids|
  {
    if |ids| == 0 then MembersRun(w, entry, Ok(()))
    else
      var did := ChildReconciled(Reconciler(m, Only(ids[0])), w, Some(known), WantOf(byId, statuses, ids[0]));
      if did.out.Err? then MembersRun(did.worker, entry, Err(did.out.error))
      else Members(m, did.worker, Reflect(entry, ids[0], did.out), known, byId, statuses, ids[1..])
  }

  /** The sequence, inside WithFinalizer when a finalizer is set. */
  function Bracketed(m: Manager, finalizer: string, w: Worker, entry: Entry, known: seq<Found>,
                     byId: map<string, Desired>, statuses: bool, ids: seq<string>): MembersRun
  {
    var entered := Enter(w.session, finalizer);
    var w1 := w.(session := entered.session);
    if entered.out.Err? then MembersRun(w1, entry, entered.out)
    else
      var run := Members(m, w1, entry, known, byId, statuses, ids);
      if run.out.Err? || !run.worker.session.local.terminating then run
      else
        var left := Ensure(run.worker.session, finalizer, false);
        MembersRun(run.worker.(session := left.session), run.entry, left.out)
  }

  ghost function Composed(m: Manager, finalizer: string, w: Worker, entry: Entry, known: seq<Found>, want: WantSet): SetRun {
    if want.WantFailure? then SetRun(w, entry, None, Err(want.error))
    else
      var byId := ById(want.children);
      if byId.None? then SetRun(w, entry, None, Err(BadIds))
      else
        var ids := Sorted(byId.value.Keys + KnownIds(known));
        var run := Bracketed(m, finalizer, w, entry, known, byId.value, want.WantStatuses?, ids);
        SetRun(run.worker, None, Some(Stashed(run.entry)), run.out)
  }

  ghost function SetReconciled(m: Manager, finalizer: string, w: Worker, entry: Entry, want: WantSet): SetRun {
    var looked := Looking(w, None);
    if looked.out.Err? then SetRun(looked.worker, entry, None, Err(looked.out.error))
    else Composed(m, finalizer, looked.worker, entry, Claimed(Any, looked.out.value), want)
  }

  // ---------- the code

  class Stash {
    var entry: Entry

    constructor ()
      ensures entry == None
    {
      entry := None;
    }
  }

  method DesiredById(children: seq<Desired>) returns (byId: Option<map<string, Desired>>)
    ensures byId == ById(children)
  {
    var found: map<string, Desired> := map[];
    for i := 0 to |children|
      invariant Some(found) == ById(children[..i])
    {
      assert children[..i + 1][..i] == children[..i];
      var id := children[i].id;
      if id == "" || id in found {
        BadPrefix(children, i + 1);
        return None;
      }
      found := found[id := children[i]];
    }
    assert children[..|children|] == children;
    return Some(found);
  }

  lemma {:induction false} BadPrefix(children: seq<Desired>, n: nat)
    requires n <= |children| && ById(children[..n]).None?
    ensures ById(children).None?
    decreases |children| - n
  {
    if n < |children| {
      assert children[..n + 1][..n] == children[..n];
      BadPrefix(children, n + 1);
    } else {
      assert children[..n] == children;
    }
  }

  class ChildSetReconciler {
    const finalizer: string
    const stamp: ResourceManager

    constructor (finalizer: string, stamp: ResourceManager)
      ensures this.finalizer == finalizer && this.stamp == stamp
    {
      this.finalizer := finalizer;
      this.stamp := stamp;
    }

    method RunMembers(server: Server, resource: Resource, stash: Stash, known: seq<Found>,
                       byId: map<string, Desired>, statuses: bool, ids: seq<string>) returns (out: Outcome<()>)
      modifies server, resource, stamp, stash
      ensures MembersRun(stamp.Working(server, resource), stash.entry, out)
           == old(Members(stamp.config, stamp.Working(server, resource), stash.entry, known, byId, statuses, ids))
    {
      for i := 0 to |ids|
        invariant old(Members(stamp.config, stamp.Working(server, resource), stash.entry, known, byId, statuses, ids))
               == Members(stamp.config, stamp.Working(server, resource), stash.entry, known, byId, statuses, ids[i..])
      {
        assert ids[i..][0] == ids[i] && ids[i..][1..] == ids[i + 1..];
        var cr := new ChildReconciler(Only(ids[i]), stamp);
        var result := cr.Reconcile(server, resource, Some(known), WantOf(byId, statuses, ids[i]));
        if result.Err? {
          return Err(result.error);
        }
        if result.value.Reflected? {
          stash.entry := Some(Stashed(stash.entry) + [PartialResult(ids[i], result.value.child, result.value.error)]);
        }
      }
      return Ok(());
    }

    method RunBracketed(server: Server, resource: Resource, stash: Stash, known: seq<Found>,
                        byId: map<string, Desired>, statuses: bool, ids: seq<string>) returns (out: Outcome<()>)
      modifies server, resource, stamp, stash
      ensures MembersRun(stamp.Working(server, resource), stash.entry, out)
           == old(Bracketed(stamp.config, finalizer, stamp.Working(server, resource), stash.entry, known, byId, statuses, ids))
    {
      if !resource.terminating {
        out := EnsureFinalizer(server, resource, finalizer, true);
        if out.Err? {
          return;
        }
      }
      out := RunMembers(server, resource, stash, known, byId, statuses, ids);
      if out.Ok? && resource.terminating {
        out := EnsureFinalizer(server, resource, finalizer, false);
      }
    }

    method Reconcile(server: Server, resource: Resource, stash: Stash, want: WantSet)
      returns (out: Outcome<()>, reported: Entry)
      modifies server, resource, stamp, stash
      ensures SetRun(stamp.Working(server, resource), stash.entry, reported, out)
           == old(SetReconciled(stamp.config, finalizer, stamp.Working(server, resource), stash.entry, want))
    {
      var listed := server.List();
      if listed.Err? {
        return Err(listed.error), None;
      }
      var known := FilterChildren(Any, listed.value);
      if want.WantFailure? {
        return Err(want.error), None;
      }
      var byId := DesiredById(want.children);
      if byId.None? {
        return Err(BadIds), None;
      }
      var childIDs := byId.value.Keys;
      for i := 0 to |known|
        invariant childIDs == byId.value.Keys + KnownIds(known[..i])
      {
        assert known[..i + 1] == known[..i] + [known[i]];
        childIDs := childIDs + {known[i].child.id};
      }
      assert known[..|known|] == known;
      var ids := ListSorted(childIDs);
      out := RunBracketed(server, resource, stash, known, byId.value, want.WantStatuses?, ids);
      reported := Some(Stashed(stash.entry));
      stash.entry := None;
    }
  }

  // ---------- what is reported

  function IdsOf(results: seq<PartialResult>): seq<string> {
    seq(|results|, i requires 0 <= i < |results| => results[i].id)
  }

  /** How many of the child reconcilers succeed before the first that fails. */
  function Completed(m: Manager, w: Worker, known: seq<Found>, byId: map<string, Desired>,
                     statuses: bool, ids: seq<string>): (k: nat)
    ensures k <= |ids|
    decreases |ids|
  {
    if |ids| == 0 then 0
    else
      var did := ChildReconciled(Reconciler(m, Only(ids[0])), w, Some(known), WantOf(byId, statuses, ids[0]));
      if did.out.Err? then 0 else 1 + Completed(m, did.worker, known, byId, statuses, ids[1..])
  }

  /** On a parent that stays, the reconcilers that succeed add one entry each, under their
      ids and in order; on a parent being deleted none is added. */
  lemma {:induction false} MembersReport(m: Manager, w: Worker, entry: Entry, known: seq<Found>,
                                           byId: map<string, Desired>, statuses: bool, ids: seq<string>)
    ensures var run := Members(m, w, entry, known, byId, statuses, ids);
      var k := Completed(m, w, known, byId, statuses, ids);
      && run.worker.session.local.terminating == w.session.local.terminating
      && (run.out.Ok? <==> k == |ids|)
      && (if w.session.local.terminating then run.entry == entry
          else IdsOf(Stashed(run.entry)) == IdsOf(Stashed(entry)) + ids[..k])
    decreases |ids|
  {
    if |ids| > 0 {
      var r := Reconciler(m, Only(ids[0]));
      var did := ChildReconciled(r, w, Some(known), WantOf(byId, statuses, ids[0]));
      ReflectsOnce(r, w, Some(known), WantOf(byId, statuses, ids[0]));
      if did.out.Ok? {
        var entry1 := Reflect(entry, ids[0], did.out);
        MembersReport(m, did.worker, entry1, known, byId, statuses, ids[1..]);
        if !w.session.local.terminating {
          OneMore(entry, entry1, ids, Completed(m, did.worker, known, byId, statuses, ids[1..]));
        }
      }
    }
  }

  /** What the members reflect, one after the other, up to the first error. */
  function Reflections(m: Manager, w: Worker, known: seq<Found>, byId: map<string, Desired>,
                       statuses: bool, ids: seq<string>): seq<PartialResult>
    decreases |ids|
  {
    if |ids| == 0 then []
    else
      var did := ChildReconciled(Reconciler(m, Only(ids[0])), w, Some(known), WantOf(byId, statuses, ids[0]));
      match did.out
      case Err(_) => []
      case Ok(Silent) => Reflections(m, did.worker, known, byId, statuses, ids[1..])
      case Ok(Reflected(child, error)) =>
        [PartialResult(ids[0], child, error)] + Reflections(m, did.worker, known, byId, statuses, ids[1..])
  }

  /** The stash collects exactly that, child and error, in any run. */
  lemma {:induction false} MembersCollect(m: Manager, w: Worker, entry: Entry, known: seq<Found>,
                                          byId: map<string, Desired>, statuses: bool, ids: seq<string>)
    ensures Stashed(Members(m, w, entry, known, byId, statuses, ids).entry)
         == Stashed(entry) + Reflections(m, w, known, byId, statuses, ids)
    decreases |ids|
  {
    if |ids| > 0 {
      var did := ChildReconciled(Reconciler(m, Only(ids[0])), w, Some(known), WantOf(byId, statuses, ids[0]));
      if did.out.Ok? {
        MembersCollect(m, did.worker, Reflect(entry, ids[0], did.out), known, byId, statuses, ids[1..]);
      }
    }
  }

  lemma OneMore(entry: Entry, entry1: Entry, ids: seq<string>, k: nat)
    requires |ids| > 0 && k < |ids|
    requires |Stashed(entry1)| == |Stashed(entry)| + 1 && Stashed(entry) <= Stashed(entry1)
    requires Stashed(entry1)[|Stashed(entry)|].id == ids[0]
    ensures IdsOf(Stashed(entry1)) + ids[1..][..k] == IdsOf(Stashed(entry)) + ids[..k + 1]
  {
    assert IdsOf(Stashed(entry1)) == IdsOf(Stashed(entry)) + [ids[0]];
    assert ids[..k + 1] == [ids[0]] + ids[1..][..k];
  }

  lemma ManagedStays(m: Manager, w: Worker, actual: Option<Found>, desired: Option<Desired>)
    ensures Managed(m, w, actual, desired).worker.session.local.terminating == w.session.local.terminating
  {
  }

  lemma ReconciledStays(r: Reconciler, w: Worker, known: Option<seq<Found>>, want: Want)
    ensures Reconciled(r, w, known, want).worker.session.local.terminating == w.session.local.terminating
  {
    var looked := Looking(w, known);
    if looked.out.Ok? {
      var mine := Claimed(r.claim, looked.out.value);
      DeletingKeepsLocal(looked.worker, mine);
      var cleaned := Cleaning(looked.worker, mine);
      var actual := if |mine| == 1 then Some(mine[0]) else None;
      ManagedStays(r.manager, cleaned.worker, actual, None);
      match want
      case WantChild(d) => ManagedStays(r.manager, cleaned.worker, actual, Some(d));
      case _ =>
    }
  }

  lemma ReflectsOnce(r: Reconciler, w: Worker, known: Option<seq<Found>>, want: Want)
    ensures var did := ChildReconciled(r, w, known, want);
      && did.worker.session.local.terminating == w.session.local.terminating
      && (did.out.Ok? ==> (did.out.value.Reflected? <==> !w.session.local.terminating))
  {
    ReconciledStays(r, w, known, want);
  }

  lemma {:induction false} DeletingKeepsLocal(w: Worker, extras: seq<Found>)
    ensures Deleting(w, extras).worker.session.local == w.session.local
    ensures Deleting(w, extras).worker.cache == w.cache
    decreases |extras|
  {
    if |extras| > 0 {
      DeletingKeepsLocal(OnCluster(w, DeleteChild(w.session.cluster, extras[0].uid).0), extras[1..]);
    }
  }

  /** The list was answered and the ids are in order. */
  predicate Listed(w: Worker, want: WantSet) {
    Looking(w, None).out.Ok? && !want.WantFailure? && ById(want.children).Some?
  }

  /** The set's finalizer is in place as well. */
  predicate Underway(finalizer: string, w: Worker, want: WantSet) {
    && Listed(w, want)
    && Enter(Looking(w, None).worker.session, finalizer).out.Ok?
  }

  /** From an empty stash entry: the report names, in order and once each, exactly the
      desired and known ids whose reconcilers succeeded before the first failure, all of
      them on success; on a parent being deleted, and when the finalizer could not be added,
      the report is empty; without a list or with bad ids there is none. However the pass
      ends, the entry is empty again afterwards, so nothing leaks into another set. */
  lemma SetReports(m: Manager, finalizer: string, w: Worker, want: WantSet)
    ensures SetReconciled(m, finalizer, w, None, want).entry == None
    ensures Underway(finalizer, w, want) ==>
      var w1 := Looking(w, None).worker;
      var known := Claimed(Any, Looking(w, None).out.value);
      var byId := ById(want.children).value;
      var ids := Sorted(byId.Keys + KnownIds(known));
      var k := Completed(m, w1.(session := Enter(w1.session, finalizer).session), known, byId, want.WantStatuses?, ids);
      var run := SetReconciled(m, finalizer, w, None, want);
      && run.reported.Some?
      && (if w.session.local.terminating then run.reported.value == []
          else IdsOf(run.reported.value) == ids[..k] && (run.out.Ok? <==> k == |ids|))
    ensures Listed(w, want) && !Underway(finalizer, w, want) ==>
      var run := SetReconciled(m, finalizer, w, None, want);
      run.out.Err? && run.reported == Some([])
    ensures !Listed(w, want) ==> SetReconciled(m, finalizer, w, None, want).reported == None
  {
    if Underway(finalizer, w, want) {
      var w1 := Looking(w, None).worker;
      var known := Claimed(Any, Looking(w, None).out.value);
      var byId := ById(want.children).value;
      var ids := Sorted(byId.Keys + KnownIds(known));
      BracketReports(m, finalizer, w1, known, byId, want.WantStatuses?, ids);
    }
  }

  lemma BracketReports(m: Manager, finalizer: string, w: Worker, known: seq<Found>,
                       byId: map<string, Desired>, statuses: bool, ids: seq<string>)
    requires Enter(w.session, finalizer).out.Ok?
    ensures var run := Bracketed(m, finalizer, w, None, known, byId, statuses, ids);
      var k := Completed(m, w.(session := Enter(w.session, finalizer).session), known, byId, statuses, ids);
      if w.session.local.terminating then Stashed(run.entry) == []
      else IdsOf(Stashed(run.entry)) == ids[..k] && (run.out.Ok? <==> k == |ids|)
  {
    MembersReport(m, w.(session := Enter(w.session, finalizer).session), None, known, byId, statuses, ids);
    assert IdsOf(Stashed(None)) == [];
  }

  /** An empty or repeated desired id fails before anything but the list call is made. */
  lemma BadIdsWriteNothing(m: Manager, finalizer: string, w: Worker, entry: Entry, want: WantSet)
    requires WellFormed(w.session.cluster) && !want.WantFailure?
    ensures (ById(want.children).None? <==>
               exists i | 0 <= i < |want.children| ::
                 want.children[i].id == "" || exists j | 0 <= j < i :: want.children[j].id == want.children[i].id)
    ensures ById(want.children).None? ==>
      var run := SetReconciled(m, finalizer, w, entry, want);
      && run.out.Err? && run.entry == entry && run.reported == None
      && Evolves(w.session.cluster, run.worker.session.cluster)
      && run.worker == OnCluster(w, run.worker.session.cluster)
  {
    ByIdMembers(want.children);
    BeginEvolves(w.session.cluster);
  }

  lemma {:induction false} ByIdMembers(children: seq<Desired>)
    ensures ById(children).None? <==>
      exists i | 0 <= i < |children| ::
        children[i].id == "" || exists j | 0 <= j < i :: children[j].id == children[i].id
    ensures ById(children).Some? ==>
      && (forall id :: id in ById(children).value <==> exists i | 0 <= i < |children| :: children[i].id == id)
      && forall i | 0 <= i < |children| :: ById(children).value[children[i].id] == children[i]
  {
    if |children| > 0 {
      var init := children[..|children| - 1];
      ByIdMembers(init);
      assert forall i | 0 <= i < |init| :: init[i] == children[i];
    }
  }
}
