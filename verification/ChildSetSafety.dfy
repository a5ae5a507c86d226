/** The finalizer of a ChildSetReconciler protects every child of the set. */
module ChildSetSafety {
  import opened Basics
  import opened Api
  import opened Patches
  import opened Finalizers
  import opened ResourceManagers
  import opened ChildReconcilers
  import opened ChildSafety
  import opened ChildSets

  /** One member of the set, working without a finalizer of its own. */
  lemma MemberSafe(m: Manager, w: Worker, known: seq<Found>, want: Want, id: string, f: string)
    requires m.finalizer == "" && Safe(w, Any, f)
    requires !w.session.local.terminating ==> f in w.session.local.finalizers
    requires w.session.local.terminating ==> Saw(w.session.cluster, known)
    ensures var did := ChildReconciled(Reconciler(m, Only(id)), w, Some(known), want);
      && Safe(did.worker, Any, f)
      && did.worker.session.cluster.reserved == w.session.cluster.reserved
      && did.worker.session.local == w.session.local
      && (w.session.local.terminating ==>
            && Drifts(w.session.cluster, did.worker.session.cluster)
            && Saw(did.worker.session.cluster, known)
            && (did.out.Ok? ==> forall u | Live(did.worker.session.cluster, u) ::
                  did.worker.session.cluster.children[u].id != id))
  {
    var r := Reconciler(m, Only(id));
    var did := Reconciled(r, w, Some(known), want);
    ReconciledSafe(r, w, Some(known), want, Any, f);
    ReflectingDrifts(r, did, f);
    var c, c' := did.worker.session.cluster, Reflecting(r, did).worker.session.cluster;
    DriftsSafe(did.worker, c', Any, f);
    if w.session.local.terminating {
      DriftsTrans(w.session.cluster, c, c');
      DriftsSaw(w.session.cluster, c', known);
      assert forall u | Live(c', u) :: Live(c, u) && c.children[u].id == c'.children[u].id;
      assert did.out.Ok? ==> forall u | Live(c, u) :: !LiveOurs(c, Only(id), u);
    }
  }

  lemma {:induction false} MembersSafe(m: Manager, w: Worker, entry: Entry, known: seq<Found>,
                                        byId: map<string, Desired>, statuses: bool, ids: seq<string>, f: string)
    requires m.finalizer == "" && Safe(w, Any, f)
    requires !w.session.local.terminating ==> f in w.session.local.finalizers
    requires w.session.local.terminating ==> Saw(w.session.cluster, known)
    ensures var run := Members(m, w, entry, known, byId, statuses, ids);
      && Safe(run.worker, Any, f)
      && run.worker.session.cluster.reserved == w.session.cluster.reserved
      && run.worker.session.local == w.session.local
      && (w.session.local.terminating ==>
            && Drifts(w.session.cluster, run.worker.session.cluster)
            && (run.out.Ok? ==> forall u | Live(run.worker.session.cluster, u) ::
                  run.worker.session.cluster.children[u].id !in ids))
    decreases |ids|
  {
    if |ids| > 0 {
      var want := WantOf(byId, statuses, ids[0]);
      var did := ChildReconciled(Reconciler(m, Only(ids[0])), w, Some(known), want);
      MemberSafe(m, w, known, want, ids[0], f);
      if did.out.Ok? {
        var run := Members(m, w, entry, known, byId, statuses, ids);
        MembersSafe(m, did.worker, Reflect(entry, ids[0], did.out), known, byId, statuses, ids[1..], f);
        if w.session.local.terminating {
          var c, c' := did.worker.session.cluster, run.worker.session.cluster;
          DriftsTrans(w.session.cluster, c, c');
          assert forall u | Live(c', u) :: Live(c, u) && c.children[u].id == c'.children[u].id;
          assert forall x | x in ids :: x == ids[0] || x in ids[1..];
        }
      }
    }
  }

  /** The finalizer stays on a parent that stays, and is off once a pass over a parent
      being deleted has succeeded. */
  ghost predicate ReleasedProperly(w: Worker, c': Cluster, out: Outcome<()>, f: string) {
    && (!w.session.local.terminating && f in Reserved(w.session.cluster) ==> f in Reserved(c'))
    && (w.session.local.terminating && out.Ok? ==> f !in Reserved(c'))
  }

  /** The finalizer goes on before the first member runs, and comes off only after all of
      them succeeded, when none of the children that were found is live. */
  lemma BracketedSafe(m: Manager, w: Worker, entry: Entry, known: seq<Found>,
                      byId: map<string, Desired>, statuses: bool, ids: seq<string>, f: string)
    requires m.finalizer == "" && Safe(w, Any, f) && Saw(w.session.cluster, known)
    requires forall id | id in KnownIds(known) :: id in ids
    ensures var run := Bracketed(m, f, w, entry, known, byId, statuses, ids);
      SafeCluster(run.worker.session.cluster, Any, f) && ReleasedProperly(w, run.worker.session.cluster, run.out, f)
  {
    var entered := Enter(w.session, f);
    var w1 := w.(session := entered.session);
    if !w.session.local.terminating {
      EnsureSafe(w, Any, f, f, true);
    }
    if entered.out.Ok? {
      MembersSafe(m, w1, entry, known, byId, statuses, ids, f);
      var run := Members(m, w1, entry, known, byId, statuses, ids);
      if run.out.Ok? && run.worker.session.local.terminating {
        var c := run.worker.session.cluster;
        DriftsSaw(w.session.cluster, c, known);
        forall u | Live(c, u) ensures c.children[u].id in KnownIds(known) {}
        assert forall u :: !LiveOurs(c, Any, u);
        EnsureSafe(run.worker, Any, f, f, false);
      }
    }
  }

  lemma ClaimedSaw(c: Cluster, found: seq<Found>)
    requires Saw(c, found)
    ensures Saw(c, Claimed(Any, found))
  {
    ClaimedMembers(Any, found);
  }

  lemma SetReconciledSafe(m: Manager, w: Worker, entry: Entry, want: WantSet, f: string)
    requires m.finalizer == "" && Safe(w, Any, f)
    ensures var run := SetReconciled(m, f, w, entry, want);
      SafeCluster(run.worker.session.cluster, Any, f) && ReleasedProperly(w, run.worker.session.cluster, run.out, f)
  {
    var looked := Looking(w, None);
    LookingSees(w, None);
    DriftsSafe(w, looked.worker.session.cluster, Any, f);
    if looked.out.Ok? && !want.WantFailure? && ById(want.children).Some? {
      var known := Claimed(Any, looked.out.value);
      ClaimedSaw(looked.worker.session.cluster, looked.out.value);
      var byId := ById(want.children).value;
      BracketedSafe(m, looked.worker, entry, known, byId, want.WantStatuses?, Sorted(byId.Keys + KnownIds(known)), f);
    }
  }

  /** A pass that takes the finalizer off works on a parent being deleted, and when it is
      off no child of the set is live: every child it found has been deleted or was already
      going away. */
  lemma ClearedOnlyWhenDone(m: Manager, w: Worker, entry: Entry, want: WantSet, f: string)
    requires m.finalizer == "" && Safe(w, Any, f) && f in Reserved(w.session.cluster)
    ensures var run := SetReconciled(m, f, w, entry, want);
      var c' := run.worker.session.cluster;
      && (f !in Reserved(c') ==> w.session.local.terminating && forall u :: !LiveOurs(c', Any, u))
      && (run.out.Ok? && w.session.local.terminating ==> f !in Reserved(c'))
  {
    SetReconciledSafe(m, w, entry, want, f);
  }

  // ---------- whole runs

  /** One request: load the parent, then run the set. */
  ghost function SetRequest(m: Manager, f: string, c: Cluster, cache: map<Uid, Patch>, want: WantSet): Cluster {
    var (c1, reply) := GetParent(c);
    match reply
    case Err(_) => c1
    case Ok(p) =>
      if p.terminating && |p.finalizers| == 0 then c1
      else SetReconciled(m, f, Worker(Session(c1, p), cache), None, want).worker.session.cluster
  }

  datatype SetRound = SetRound(idle: seq<EnvStep>, tape: seq<Moment>, cache: map<Uid, Patch>, want: WantSet)

  ghost function SetRequests(m: Manager, f: string, c: Cluster, rounds: seq<SetRound>): Cluster
    decreases |rounds|
  {
    if |rounds| == 0 then c
    else
      var t := rounds[0];
      SetRequests(m, f, SetRequest(m, f, HappenAll(c, t.idle).(tape := t.tape), t.cache, t.want), rounds[1..])
  }

  lemma SetRequestSafe(m: Manager, f: string, c: Cluster, cache: map<Uid, Patch>, want: WantSet)
    requires m.finalizer == "" && SafeCluster(c, Any, f)
    ensures SafeCluster(SetRequest(m, f, c, cache, want), Any, f)
  {
    FreshSynced(c);
    var (c1, reply) := GetParent(c);
    DriftsSafeCluster(c, c1, Any, f);
    if reply.Ok? {
      SetReconciledSafe(m, Worker(Session(c1, reply.value), cache), None, want, f);
    }
  }

  /** Over every run, with crashes, refused and lost calls and outside steps anywhere, and
      any answer of DesiredChildren: a live child of the set has a parent that carries the
      finalizer of the set. */
  lemma {:induction false} SetNeverOrphaned(m: Manager, f: string, c: Cluster, rounds: seq<SetRound>)
    requires m.finalizer == "" && SafeCluster(c, Any, f)
    ensures NoOrphan(SetRequests(m, f, c, rounds), Any, f)
    decreases |rounds|
  {
    if |rounds| > 0 {
      var t := rounds[0];
      HappenAllEvolves(c, t.idle);
      var c1 := HappenAll(c, t.idle).(tape := t.tape);
      DriftsSafeCluster(c, c1, Any, f);
      SetRequestSafe(m, f, c1, t.cache, t.want);
      SetNeverOrphaned(m, f, SetRequest(m, f, c1, t.cache, t.want), rounds[1..]);
    }
  }
}
