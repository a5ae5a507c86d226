/** Several ChildReconcilers in one Sequence (reconcilers/sequence.go) share a parent and the
    worker's copy of it. Each keeps its own children protected, and those of the others. */
module SharedParents {
  import opened Basics
  import opened Api
  import opened Patches
  import opened Finalizers
  import opened ResourceManagers
  import opened ChildReconcilers
  import opened ChildSafety

  /** A reconciler, what DesiredChild answers it, and its mutation cache. */
  datatype Member = Member(reconciler: Reconciler, want: Want, cache: map<Uid, Patch>)

  predicate Disjoint(a: Claim, b: Claim) {
    a.Only? && b.Only? && a.id != b.id
  }

  /** The desired child has the id its own OurChild looks for. */
  predicate Fitting(m: Member) {
    m.want.WantChild? && m.reconciler.claim.Only? ==> m.want.desired.id == m.reconciler.claim.id
  }

  /** Finalizers and claims are not shared. */
  ghost predicate Team(members: seq<Member>) {
    && (forall i | 0 <= i < |members| :: Fitting(members[i]))
    && forall i, j | 0 <= i < |members| && 0 <= j < |members| && i != j ::
         && members[i].reconciler.manager.finalizer != members[j].reconciler.manager.finalizer
         && Disjoint(members[i].reconciler.claim, members[j].reconciler.claim)
  }

  function InTurn(s: Session, members: seq<Member>): Session
    decreases |members|
  {
    if |members| == 0 then s
    else
      var did := ChildReconciled(members[0].reconciler, Worker(s, members[0].cache), None, members[0].want);
      if did.out.Err? then did.worker.session else InTurn(did.worker.session, members[1..])
  }

  // ---------- what one reconciler does to the children of another

  /** Between calls, as seen by a claim and its finalizer: safe, and known if it was known. */
  ghost predicate Guards(s: Session, s': Session, claim: Claim, f: string) {
    && Versioned(s') && SafeCluster(s'.cluster, claim, f) && s'.cluster.reserved == s.cluster.reserved
    && (Informed(s, f) ==> Informed(s', f))
  }

  lemma GuardsTrans(a: Session, b: Session, c: Session, claim: Claim, f: string)
    requires Guards(a, b, claim, f) && Guards(b, c, claim, f)
    ensures Guards(a, c, claim, f)
  {
  }

  lemma DriftsGuards(s: Session, c: Cluster, claim: Claim, f: string)
    requires Versioned(s) && SafeCluster(s.cluster, claim, f) && Drifts(s.cluster, c)
    ensures Guards(s, s.(cluster := c), claim, f)
  {
    DriftsVersioned(s, c, f);
    DriftsSafeCluster(s.cluster, c, claim, f);
  }

  lemma EnsureGuards(s: Session, name: string, add: bool, claim: Claim, f: string)
    requires Versioned(s) && SafeCluster(s.cluster, claim, f) && name != f
    ensures Guards(s, Ensure(s, name, add).session, claim, f)
  {
    EnsureOne(s, f, name, add);
    var c' := Ensure(s, name, add).session.cluster;
    assert forall u | LiveOurs(c', claim, u) :: LiveOurs(s.cluster, claim, u);
  }

  lemma CreatingGuards(m: Manager, w: Worker, d: Desired, claim: Claim, f: string)
    requires Versioned(w.session) && SafeCluster(w.session.cluster, claim, f)
    requires claim.Only? && claim.id != d.id
    ensures Guards(w.session, Creating(m, w, d).worker.session, claim, f)
  {
    var c := w.session.cluster;
    CreateEffect(c, d);
    var c1, c' := Begin(c).0, CreateChild(c, d).0;
    if c' == c1 {
      DriftsGuards(w.session, c1, claim, f);
    } else {
      var before := c'.(children := c'.children - {c1.clock});
      DriftsGuards(w.session, before, claim, f);
      assert forall u | LiveOurs(c', claim, u) :: LiveOurs(before, claim, u);
    }
  }

  lemma UpdatingGuards(m: Manager, w: Worker, a: Found, d: Desired, claim: Claim, f: string)
    requires Versioned(w.session) && SafeCluster(w.session.cluster, claim, f)
    ensures Guards(w.session, Updating(m, w, a, d).worker.session, claim, f)
  {
    var sent := Proposal(m, w.cache, a, d);
    UpdateDrifts(w.session.cluster, a.uid, a.child.version, sent);
    DriftsGuards(w.session, UpdateChild(w.session.cluster, a.uid, a.child.version, sent).0, claim, f);
  }

  lemma ManagedGuards(m: Manager, w: Worker, actual: Option<Found>, desired: Option<Desired>, claim: Claim, f: string)
    requires Versioned(w.session) && SafeCluster(w.session.cluster, claim, f) && m.finalizer != f
    requires desired.Some? ==> claim.Only? && claim.id != desired.value.id
    ensures Guards(w.session, Managed(m, w, actual, desired).worker.session, claim, f)
  {
    if desired.None? {
      if actual.None? {
        EnsureGuards(w.session, m.finalizer, false, claim, f);
      } else if !actual.value.child.terminating {
        DeleteDrifts(w.session.cluster, actual.value.uid);
        DriftsGuards(w.session, Removing(w, actual.value).worker.session.cluster, claim, f);
      }
    } else {
      EnsureGuards(w.session, m.finalizer, true, claim, f);
      var r := Ensure(w.session, m.finalizer, true);
      var w1 := w.(session := r.session);
      if r.out.Ok? {
        if actual.None? {
          CreatingGuards(m, w1, desired.value, claim, f);
        } else {
          UpdatingGuards(m, w1, actual.value, desired.value, claim, f);
        }
        GuardsTrans(w.session, w1.session, Managed(m, w, actual, desired).worker.session, claim, f);
      }
    }
  }

  lemma SettlingGuards(r: Reconciler, w: Worker, actual: Option<Found>, want: Want, claim: Claim, f: string)
    requires Versioned(w.session) && SafeCluster(w.session.cluster, claim, f) && r.manager.finalizer != f
    requires want.WantChild? ==> claim.Only? && claim.id != want.desired.id
    ensures Guards(w.session, Settling(r, w, actual, want).worker.session, claim, f)
  {
    match Wanted(w, want)
    case WantChild(d) => ManagedGuards(r.manager, w, actual, Some(d), claim, f);
    case WantNone => ManagedGuards(r.manager, w, actual, None, claim, f);
    case _ =>
  }

  lemma CleanedGuards(r: Reconciler, w: Worker, claim: Claim, f: string)
    requires Versioned(w.session) && SafeCluster(w.session.cluster, claim, f)
    ensures var looked := Looking(w, None);
      && Guards(w.session, looked.worker.session, claim, f)
      && (looked.out.Ok? ==>
            Guards(w.session, Cleaning(looked.worker, Claimed(r.claim, looked.out.value)).worker.session, claim, f))
  {
    var looked := Looking(w, None);
    BeginEvolves(w.session.cluster);
    DriftsGuards(w.session, looked.worker.session.cluster, claim, f);
    if looked.out.Ok? {
      var mine := Claimed(r.claim, looked.out.value);
      DeletingDrifts(looked.worker, mine);
      var cleaned := Cleaning(looked.worker, mine);
      DriftsGuards(looked.worker.session, cleaned.worker.session.cluster, claim, f);
    }
  }

  /** Whatever happens in its pass, a reconciler with another finalizer and other children
      leaves these protected, and what is known of their finalizer stays true. */
  lemma OthersGuarded(r: Reconciler, w: Worker, want: Want, claim: Claim, f: string)
    requires Versioned(w.session) && SafeCluster(w.session.cluster, claim, f) && r.manager.finalizer != f
    requires want.WantChild? ==> claim.Only? && claim.id != want.desired.id
    ensures Guards(w.session, ChildReconciled(r, w, None, want).worker.session, claim, f)
  {
    var looked := Looking(w, None);
    CleanedGuards(r, w, claim, f);
    var did := Reconciled(r, w, None, want);
    if looked.out.Ok? {
      var mine := Claimed(r.claim, looked.out.value);
      var cleaned := Cleaning(looked.worker, mine);
      if cleaned.out.Ok? {
        SettlingGuards(r, cleaned.worker, if |mine| == 1 then Some(mine[0]) else None, want, claim, f);
        GuardsTrans(w.session, cleaned.worker.session, did.worker.session, claim, f);
      }
    }
    ReflectingDrifts(r, did, f);
    DriftsGuards(did.worker.session, Reflecting(r, did).worker.session.cluster, claim, f);
  }

  // ---------- all of them

  ghost predicate AllSafe(c: Cluster, members: seq<Member>) {
    forall m | m in members :: SafeCluster(c, m.reconciler.claim, m.reconciler.manager.finalizer)
  }

  /** all are the members of the sequence, k how many have had their turn. */
  ghost predicate Midway(s: Session, all: seq<Member>, k: nat) {
    && k <= |all| && Team(all) && Versioned(s) && AllSafe(s.cluster, all)
    && forall i | k <= i < |all| :: Informed(s, all[i].reconciler.manager.finalizer)
  }

  lemma OneTurn(s: Session, all: seq<Member>, k: nat)
    requires Midway(s, all, k) && k < |all|
    ensures var did := ChildReconciled(all[k].reconciler, Worker(s, all[k].cache), None, all[k].want);
      Midway(did.worker.session, all, k + 1)
  {
    var m := all[k];
    var r, w := m.reconciler, Worker(s, m.cache);
    var f := r.manager.finalizer;
    assert m in all;
    ReconciledSafe(r, w, None, m.want, r.claim, f);
    ReflectingDrifts(r, Reconciled(r, w, None, m.want), f);
    var s' := ChildReconciled(r, w, None, m.want).worker.session;
    TurnVersioned(r, w, m.want);
    forall i | 0 <= i < |all|
      ensures SafeCluster(s'.cluster, all[i].reconciler.claim, all[i].reconciler.manager.finalizer)
      ensures i > k ==> Informed(s', all[i].reconciler.manager.finalizer)
    {
      if i != k {
        assert all[i] in all && Fitting(m) && Disjoint(all[i].reconciler.claim, r.claim);
        OthersGuarded(r, w, m.want, all[i].reconciler.claim, all[i].reconciler.manager.finalizer);
      }
    }
  }

  /** Versions stay meaningful through a turn. */
  lemma TurnVersioned(r: Reconciler, w: Worker, want: Want)
    requires Versioned(w.session) && SafeCluster(w.session.cluster, r.claim, r.manager.finalizer)
    ensures Versioned(ChildReconciled(r, w, None, want).worker.session)
  {
    var f := r.manager.finalizer;
    var looked := Looking(w, None);
    CleanedGuards(r, w, r.claim, f);
    if looked.out.Ok? {
      var mine := Claimed(r.claim, looked.out.value);
      var cleaned := Cleaning(looked.worker, mine);
      if cleaned.out.Ok? {
        SettlingVersioned(r, cleaned.worker, if |mine| == 1 then Some(mine[0]) else None, want);
      }
    }
    var did := Reconciled(r, w, None, want);
    ReflectingDrifts(r, did, f);
    DriftsVersioned(did.worker.session, Reflecting(r, did).worker.session.cluster, f);
  }

  lemma SettlingVersioned(r: Reconciler, w: Worker, actual: Option<Found>, want: Want)
    requires Versioned(w.session) && r.manager.finalizer in w.session.cluster.reserved
    ensures var s' := Settling(r, w, actual, want).worker.session;
      Versioned(s') && s'.cluster.reserved == w.session.cluster.reserved
  {
    var f := r.manager.finalizer;
    match Wanted(w, want)
    case WantChild(d) =>
      EnsureOne(w.session, f, f, true);
      var w1 := w.(session := Ensure(w.session, f, true).session);
      if actual.None? {
        CreateEffect(w1.session.cluster, d);
        var c1 := Begin(w1.session.cluster).0;
        DriftsVersioned(w1.session, c1, f);
      } else {
        var sent := Proposal(r.manager, w1.cache, actual.value, d);
        UpdateDrifts(w1.session.cluster, actual.value.uid, actual.value.child.version, sent);
        DriftsVersioned(w1.session, UpdateChild(w1.session.cluster, actual.value.uid, actual.value.child.version, sent).0, f);
      }
    case WantNone =>
      if actual.None? {
        EnsureOne(w.session, f, f, false);
      } else if !actual.value.child.terminating {
        DeleteDrifts(w.session.cluster, actual.value.uid);
        DriftsVersioned(w.session, DeleteChild(w.session.cluster, actual.value.uid).0, f);
      }
    case _ =>
  }

  lemma {:induction false} InTurnSafe(s: Session, all: seq<Member>, k: nat)
    requires Midway(s, all, k)
    ensures AllSafe(InTurn(s, all[k..]).cluster, all)
    decreases |all| - k
  {
    if k < |all| {
      OneTurn(s, all, k);
      assert all[k..][0] == all[k] && all[k..][1..] == all[k + 1..];
      var did := ChildReconciled(all[k].reconciler, Worker(s, all[k].cache), None, all[k].want);
      if did.out.Ok? { InTurnSafe(did.worker.session, all, k + 1); }
    }
  }

  // ---------- whole runs

  datatype TeamRound = TeamRound(idle: seq<EnvStep>, tape: seq<Moment>, members: seq<Member>)

  function TeamRequest(c: Cluster, members: seq<Member>): Cluster {
    var (c1, reply) := GetParent(c);
    match reply
    case Err(_) => c1
    case Ok(p) => if p.terminating && |p.finalizers| == 0 then c1 else InTurn(Session(c1, p), members).cluster
  }

  function TeamRequests(c: Cluster, rounds: seq<TeamRound>): Cluster
    decreases |rounds|
  {
    if |rounds| == 0 then c
    else
      var t := rounds[0];
      TeamRequests(TeamRequest(HappenAll(c, t.idle).(tape := t.tape), t.members), rounds[1..])
  }

  function Reconcilers(members: seq<Member>): seq<Reconciler> {
    seq(|members|, i requires 0 <= i < |members| => members[i].reconciler)
  }

  ghost predicate AllProtected(c: Cluster, rs: seq<Reconciler>) {
    forall i | 0 <= i < |rs| :: SafeCluster(c, rs[i].claim, rs[i].manager.finalizer)
  }

  lemma TeamRequestSafe(c: Cluster, members: seq<Member>)
    requires WellFormed(c) && Team(members) && AllProtected(c, Reconcilers(members))
    ensures AllProtected(TeamRequest(c, members), Reconcilers(members))
  {
    FreshSynced(c);
    var (c1, reply) := GetParent(c);
    var rs := Reconcilers(members);
    forall i | 0 <= i < |rs| ensures SafeCluster(c1, rs[i].claim, rs[i].manager.finalizer) {
      DriftsSafeCluster(c, c1, rs[i].claim, rs[i].manager.finalizer);
    }
    if reply.Ok? && !(reply.value.terminating && |reply.value.finalizers| == 0) {
      var s := Session(c1, reply.value);
      forall m | m in members ensures SafeCluster(c1, m.reconciler.claim, m.reconciler.manager.finalizer) {
        var i :| 0 <= i < |members| && members[i] == m;
        assert rs[i] == m.reconciler;
      }
      assert members[0..] == members;
      InTurnSafe(s, members, 0);
      forall i | 0 <= i < |rs| ensures SafeCluster(TeamRequest(c, members), rs[i].claim, rs[i].manager.finalizer) {
        assert members[i] in members;
      }
    }
  }

  /** Over every run of a sequence of ChildReconcilers with distinct finalizers and distinct
      children, with outside steps anywhere, any call refused or its reply lost, and a crash
      after any call: every live child of each has a parent that carries its finalizer. This
      includes the lost replies ChildReconciler swallows, after which the copy that the next
      reconciler gets is out of date. */
  lemma {:induction false} NoneOrphaned(c: Cluster, rs: seq<Reconciler>, rounds: seq<TeamRound>)
    requires WellFormed(c) && AllProtected(c, rs)
    requires forall t | t in rounds :: Team(t.members) && Reconcilers(t.members) == rs
    ensures AllProtected(TeamRequests(c, rounds), rs)
    decreases |rounds|
  {
    if |rounds| > 0 && |rs| > 0 {
      var t := rounds[0];
      assert t in rounds && forall x | x in rounds[1..] :: x in rounds;
      HappenAllEvolves(c, t.idle);
      var c1 := HappenAll(c, t.idle).(tape := t.tape);
      forall i | 0 <= i < |rs| ensures SafeCluster(c1, rs[i].claim, rs[i].manager.finalizer) {
        DriftsSafeCluster(c, c1, rs[i].claim, rs[i].manager.finalizer);
      }
      TeamRequestSafe(c1, t.members);
      var c2 := TeamRequest(c1, t.members);
      assert SafeCluster(c2, rs[0].claim, rs[0].manager.finalizer);
      NoneOrphaned(c2, rs, rounds[1..]);
    }
  }
}
