/** The API server as the reconcilers see it: one reconciled resource (the parent),
    the children, and a tape that decides what happens at each call.

    Nothing is assumed about a call: before it is served any number of outside
    steps may happen, it may be refused, it may take effect while its reply is lost,
    and admission may rewrite what is stored. A tape that has run out is a crash:
    no later call of that pass has any effect. A property proved for every tape
    therefore holds at every point of every pass. */
module Api {
  import opened Basics

  type Uid = nat

  /** A stored object: field path to value, and metadata.generation. */
  datatype Obj = Obj(fields: map<string, string>, generation: int)

  /** owned is what OurChild answers, id what IdentifyChild answers; held says that
      someone keeps a finalizer on the child, so deleting it only marks it. */
  datatype Child = Child(owned: bool, id: string, terminating: bool, held: bool, version: nat, obj: Obj)

  datatype Found = Found(uid: Uid, child: Child)

  datatype Desired = Desired(owned: bool, id: string, obj: Obj)

  datatype Parent = Parent(version: nat, terminating: bool, finalizers: seq<string>)

  /** Crashed is a call that never left; BadIds is a reconciler's own complaint. */
  datatype ApiError = Crashed | NotFound | Conflict | AlreadyExists(blocker: Uid) | Invalid | BadIds | Other

  datatype Outcome<+T> = Ok(value: T) | Err(error: ApiError)

  /** How one call fares, if the server finds nothing wrong with it. */
  datatype Fate = Done | Refused(error: ApiError) | ReplyLost(error: ApiError)

  /** What users, the garbage collector and other controllers may do. */
  datatype EnvStep =
    | UserDeletesParent
    | UserCreatesParent(finalizers: seq<string>)
    | OthersSetFinalizers(finalizers: seq<string>)
    | OthersTouchParent
    | UserDeletesChild(uid: Uid)
    | OthersHoldChild(uid: Uid, held: bool)
    | OthersEditChild(uid: Uid, obj: Obj)
    | OthersCreateForeign(child: Child)
    | OthersRemoveForeign(uid: Uid)

  datatype Moment = Moment(before: seq<EnvStep>, fate: Fate, admit: Obj -> Obj)

  /** A write of ours that the server accepted. */
  datatype Write = Patched | Created(uid: Uid) | Updated(uid: Uid) | Deleted(uid: Uid)

  /** reserved holds the finalizers that no outside writer adds, removes or reorders. */
  datatype Cluster = Cluster(
    parent: Option<Parent>,
    children: map<Uid, Child>,
    clock: nat,
    reserved: set<string>,
    tape: seq<Moment>,
    writes: seq<Write>)

  /** Versions and uids are drawn from one clock; an object marked for deletion stays
      only while it has a finalizer. */
  ghost predicate WellFormed(c: Cluster) {
    && (c.parent.Some? ==>
          && c.parent.value.version < c.clock
          && (c.parent.value.terminating ==> c.parent.value.finalizers != []))
    && forall u | u in c.children ::
         u < c.clock && c.children[u].version < c.clock && (c.children[u].terminating ==> c.children[u].held)
  }

  // ---------- what a write stores

  function PutParent(c: Cluster, terminating: bool, finalizers: seq<string>): Cluster {
    if terminating && |finalizers| == 0
    then c.(parent := None, clock := c.clock + 1)
    else c.(parent := Some(Parent(c.clock, terminating, finalizers)), clock := c.clock + 1)
  }

  function PutChild(c: Cluster, u: Uid, child: Child): Cluster {
    if child.terminating && !child.held
    then c.(children := c.children - {u}, clock := c.clock + 1)
    else c.(children := c.children[u := child.(version := c.clock)], clock := c.clock + 1)
  }

  function MarkDeleted(c: Cluster, u: Uid): Cluster {
    if u !in c.children || c.children[u].terminating then c
    else PutChild(c, u, c.children[u].(terminating := true))
  }

  // ---------- the outside world

  /** One outside step; a step the hypotheses forbid does nothing. */
  function Happen(c: Cluster, s: EnvStep): Cluster {
    match s
    case UserDeletesParent =>
      if c.parent.None? || c.parent.value.terminating then c
      else PutParent(c, true, c.parent.value.finalizers)
    case UserCreatesParent(fs) =>
      if c.parent.Some? || Project(fs, c.reserved) != [] then c else PutParent(c, false, fs)
    case OthersSetFinalizers(fs) =>
      if c.parent.None? || Project(fs, c.reserved) != Project(c.parent.value.finalizers, c.reserved) then c
      else PutParent(c, c.parent.value.terminating, fs)
    case OthersTouchParent =>
      if c.parent.None? then c else PutParent(c, c.parent.value.terminating, c.parent.value.finalizers)
    case UserDeletesChild(u) => MarkDeleted(c, u)
    case OthersHoldChild(u, held) =>
      if u !in c.children then c else PutChild(c, u, c.children[u].(held := held))
    case OthersEditChild(u, obj) =>
      if u !in c.children then c else PutChild(c, u, c.children[u].(obj := obj))
    case OthersCreateForeign(child) =>
      if child.owned then c else PutChild(c, c.clock, child)
    case OthersRemoveForeign(u) =>
      if u !in c.children || c.children[u].owned then c
      else c.(children := c.children - {u}, clock := c.clock + 1)
  }

  function HappenAll(c: Cluster, steps: seq<EnvStep>): Cluster
    decreases |steps|
  {
    if |steps| == 0 then c else HappenAll(Happen(c, steps[0]), steps[1..])
  }

  /** The server takes up the next call. */
  function Begin(c: Cluster): (Cluster, Fate) {
    if |c.tape| == 0 then (c, Refused(Crashed))
    else (HappenAll(c.(tape := c.tape[1..]), c.tape[0].before), c.tape[0].fate)
  }

  function Admission(c: Cluster, obj: Obj): Obj {
    if |c.tape| == 0 then obj else c.tape[0].admit(obj)
  }

  // ---------- the calls

  function Accept<T>(c: Cluster, w: Write, fate: Fate, value: T): (Cluster, Outcome<T>) {
    (c.(writes := c.writes + [w]), if fate.ReplyLost? then Err(fate.error) else Ok(value))
  }

  function GetParent(c: Cluster): (Cluster, Outcome<Parent>) {
    var (c1, fate) := Begin(c);
    if !fate.Done? then (c1, Err(fate.error))
    else if c1.parent.None? then (c1, Err(NotFound))
    else (c1, Ok(c1.parent.value))
  }

  function GetChild(c: Cluster, u: Uid): (Cluster, Outcome<Child>) {
    var (c1, fate) := Begin(c);
    if !fate.Done? then (c1, Err(fate.error))
    else if u !in c1.children then (c1, Err(NotFound))
    else (c1, Ok(c1.children[u]))
  }

  /** The children with uid below n, in creation order. */
  function Listing(children: map<Uid, Child>, n: nat): seq<Found> {
    if n == 0 then []
    else Listing(children, n - 1) + (if n - 1 in children then [Found(n - 1, children[n - 1])] else [])
  }

  function ListChildren(c: Cluster): (Cluster, Outcome<seq<Found>>) {
    var (c1, fate) := Begin(c);
    if !fate.Done? then (c1, Err(fate.error)) else (c1, Ok(Listing(c1.children, c1.clock)))
  }

  predicate AddsNew(finalizers: seq<string>, was: seq<string>) {
    exists f | f in finalizers :: f !in was
  }

  /** A merge patch of metadata.finalizers replaces the whole list (RFC 7396, section 2);
      metadata.resourceVersion in the patch makes the server refuse a stale writer. A parent
      being deleted gets no new finalizers. */
  function PatchFinalizers(c: Cluster, version: nat, finalizers: seq<string>): (Cluster, Outcome<Parent>) {
    var (c1, fate) := Begin(c);
    if fate.Refused? then (c1, Err(fate.error))
    else if c1.parent.None? then (c1, Err(NotFound))
    else if c1.parent.value.version != version then (c1, Err(Conflict))
    else if c1.parent.value.terminating && AddsNew(finalizers, c1.parent.value.finalizers) then (c1, Err(Invalid))
    else Accept(PutParent(c1, c1.parent.value.terminating, finalizers), Patched, fate,
                Parent(c1.clock, c1.parent.value.terminating, finalizers))
  }

  function CreateChild(c: Cluster, d: Desired): (Cluster, Outcome<Found>) {
    var (c1, fate) := Begin(c);
    if fate.Refused? then (c1, Err(fate.error))
    else
      var child := Child(d.owned, d.id, false, false, c1.clock, Admission(c, d.obj));
      Accept(PutChild(c1, c1.clock, child), Created(c1.clock), fate, Found(c1.clock, child))
  }

  function UpdateChild(c: Cluster, u: Uid, version: nat, obj: Obj): (Cluster, Outcome<Found>) {
    var (c1, fate) := Begin(c);
    if fate.Refused? then (c1, Err(fate.error))
    else if u !in c1.children then (c1, Err(NotFound))
    else if c1.children[u].version != version then (c1, Err(Conflict))
    else
      var child := c1.children[u].(obj := Admission(c, obj), version := c1.clock);
      Accept(PutChild(c1, u, child), Updated(u), fate, Found(u, child))
  }

  function DeleteChild(c: Cluster, u: Uid): (Cluster, Outcome<()>) {
    var (c1, fate) := Begin(c);
    if fate.Refused? then (c1, Err(fate.error))
    else if u !in c1.children then (c1, Err(NotFound))
    else Accept(MarkDeleted(c1, u), Deleted(u), fate, ())
  }

  // ---------- what outside steps cannot do

  /** Our finalizers on the stored parent, in order; none when there is no parent. */
  function Reserved(c: Cluster): seq<string> {
    if c.parent.None? then [] else Project(c.parent.value.finalizers, c.reserved)
  }

  ghost predicate Live(c: Cluster, u: Uid) {
    u in c.children && c.children[u].owned && !c.children[u].terminating
  }

  /** No child of ours appears, changes its id or comes back to life. */
  ghost predicate OwnedShrink(c: Cluster, c': Cluster) {
    forall u | u in c'.children && c'.children[u].owned ::
      && u in c.children && c.children[u].owned && c.children[u].id == c'.children[u].id
      && (c.children[u].terminating ==> c'.children[u].terminating)
  }

  /** c' follows from c without a write to the parent or a child of ours created by us. */
  ghost predicate Drifts(c: Cluster, c': Cluster) {
    && WellFormed(c')
    && c'.reserved == c.reserved
    && c.clock <= c'.clock
    && Reserved(c') == Reserved(c)
    && (c'.parent.Some? && c'.parent.value.version < c.clock ==> c'.parent == c.parent)
    && OwnedShrink(c, c')
  }

  /** c' follows from c by outside steps alone. */
  ghost predicate Evolves(c: Cluster, c': Cluster) {
    Drifts(c, c') && c'.writes == c.writes
  }

  /** Rewriting a child that keeps its owner and id, and is not brought back. */
  lemma PutDrifts(c: Cluster, u: Uid, child: Child)
    requires WellFormed(c) && u in c.children
    requires child.owned == c.children[u].owned && child.id == c.children[u].id
    requires c.children[u].terminating ==> child.terminating
    ensures Drifts(c, PutChild(c, u, child))
  {
  }

  lemma UserDeletesChildEvolves(c: Cluster, u: Uid)
    requires WellFormed(c)
    ensures Evolves(c, Happen(c, UserDeletesChild(u)))
  {
    if u in c.children { PutDrifts(c, u, c.children[u].(terminating := true)); }
  }

  lemma OthersHoldChildEvolves(c: Cluster, u: Uid, held: bool)
    requires WellFormed(c)
    ensures Evolves(c, Happen(c, OthersHoldChild(u, held)))
  {
    if u in c.children { PutDrifts(c, u, c.children[u].(held := held)); }
  }

  lemma OthersEditChildEvolves(c: Cluster, u: Uid, obj: Obj)
    requires WellFormed(c)
    ensures Evolves(c, Happen(c, OthersEditChild(u, obj)))
  {
    if u in c.children { PutDrifts(c, u, c.children[u].(obj := obj)); }
  }

  lemma ForeignEvolves(c: Cluster, s: EnvStep)
    requires WellFormed(c) && (s.OthersCreateForeign? || s.OthersRemoveForeign?)
    ensures Evolves(c, Happen(c, s))
  {
  }

  lemma ParentStepEvolves(c: Cluster, s: EnvStep)
    requires WellFormed(c)
    requires s.UserDeletesParent? || s.UserCreatesParent? || s.OthersSetFinalizers? || s.OthersTouchParent?
    ensures Evolves(c, Happen(c, s))
  {
  }

  lemma HappenEvolves(c: Cluster, s: EnvStep)
    requires WellFormed(c)
    ensures Evolves(c, Happen(c, s))
    ensures Happen(c, s).tape == c.tape
  {
    match s
    case UserDeletesChild(u) => UserDeletesChildEvolves(c, u);
    case OthersHoldChild(u, held) => OthersHoldChildEvolves(c, u, held);
    case OthersEditChild(u, obj) => OthersEditChildEvolves(c, u, obj);
    case OthersCreateForeign(_) => ForeignEvolves(c, s);
    case OthersRemoveForeign(_) => ForeignEvolves(c, s);
    case _ => ParentStepEvolves(c, s);
  }

  lemma DriftsTrans(a: Cluster, b: Cluster, c: Cluster)
    requires Drifts(a, b) && Drifts(b, c)
    ensures Drifts(a, c)
  {
  }

  lemma {:induction false} HappenAllEvolves(c: Cluster, steps: seq<EnvStep>)
    requires WellFormed(c)
    ensures Evolves(c, HappenAll(c, steps))
    ensures HappenAll(c, steps).tape == c.tape
    decreases |steps|
  {
    if |steps| > 0 {
      HappenEvolves(c, steps[0]);
      HappenAllEvolves(Happen(c, steps[0]), steps[1..]);
      DriftsTrans(c, Happen(c, steps[0]), HappenAll(c, steps));
    }
  }

  lemma BeginEvolves(c: Cluster)
    requires WellFormed(c)
    ensures Evolves(c, Begin(c).0)
  {
    if |c.tape| > 0 {
      HappenAllEvolves(c.(tape := c.tape[1..]), c.tape[0].before);
    }
  }

  /** A patch either leaves the parent as the outside world made it, or it met an equal
      version and its list is now the stored one. */
  lemma PatchEffect(c: Cluster, version: nat, fins: seq<string>)
    requires WellFormed(c)
    ensures var (c', reply) := PatchFinalizers(c, version, fins);
      var c1 := Begin(c).0;
      && Evolves(c, c1)
      && WellFormed(c') && c'.reserved == c.reserved && OwnedShrink(c, c')
      && (if c'.writes == c.writes
          then c' == c1 && reply.Err?
          else && c1.parent.Some? && c1.parent.value.version == version
               && c' == PutParent(c1, c1.parent.value.terminating, fins).(writes := c.writes + [Patched])
               && Reserved(c') == Project(fins, c.reserved)
               && (reply.Ok? ==> reply.value == Parent(c1.clock, c1.parent.value.terminating, fins)))
  {
    BeginEvolves(c);
    var (c1, fate) := Begin(c);
    if !fate.Refused? && c1.parent.Some? && c1.parent.value.version == version {
      assert |c1.writes + [Patched]| == |c1.writes| + 1;
      assert |fins| == 0 ==> Project(fins, c.reserved) == [];
    }
  }

  lemma DeleteDrifts(c: Cluster, u: Uid)
    requires WellFormed(c)
    ensures Drifts(c, DeleteChild(c, u).0)
    ensures DeleteChild(c, u).1.Ok? ==> !Live(DeleteChild(c, u).0, u)
  {
    BeginEvolves(c);
    var (c1, fate) := Begin(c);
    if !fate.Refused? && u in c1.children {
      MarkedDrifts(c1, u);
      DriftsTrans(c, c1, MarkDeleted(c1, u));
    }
  }

  lemma MarkedDrifts(c: Cluster, u: Uid)
    requires WellFormed(c) && u in c.children
    ensures Drifts(c, MarkDeleted(c, u)) && !Live(MarkDeleted(c, u), u)
  {
    PutDrifts(c, u, c.children[u].(terminating := true));
  }

  lemma UpdateDrifts(c: Cluster, u: Uid, version: nat, obj: Obj)
    requires WellFormed(c)
    ensures Drifts(c, UpdateChild(c, u, version, obj).0)
  {
    BeginEvolves(c);
    var (c1, fate) := Begin(c);
    if !fate.Refused? && u in c1.children {
      var child := c1.children[u].(obj := Admission(c, obj), version := c1.clock);
      PutDrifts(c1, u, child);
      DriftsTrans(c, c1, PutChild(c1, u, child));
    }
  }

  /** A create adds at most one child, with the desired owner and id. */
  lemma CreateEffect(c: Cluster, d: Desired)
    requires WellFormed(c)
    ensures var c1 := Begin(c).0;
      var c' := CreateChild(c, d).0;
      && Evolves(c, c1)
      && (c' != c1 ==>
            && Drifts(c, c'.(children := c'.children - {c1.clock}))
            && WellFormed(c') && c1.clock in c'.children
            && c'.children[c1.clock].owned == d.owned && c'.children[c1.clock].id == d.id)
  {
    BeginEvolves(c);
  }

  /** Nothing interferes with, refuses or loses any call still to come. */
  ghost predicate Quiet(c: Cluster) {
    forall m | m in c.tape :: |m.before| == 0 && m.fate.Done?
  }

  lemma QuietBegin(c: Cluster)
    requires Quiet(c)
    ensures Quiet(Begin(c).0)
    ensures |c.tape| > 0 ==> Begin(c) == (c.(tape := c.tape[1..]), Done)
  {
    if |c.tape| > 0 {
      assert c.tape[0] in c.tape;
    }
  }

  lemma {:induction false} ListingMembers(children: map<Uid, Child>, n: nat)
    ensures forall f :: f in Listing(children, n) <==> f.uid < n && f.uid in children && children[f.uid] == f.child
  {
    if n > 0 {
      ListingMembers(children, n - 1);
    }
  }

  // ---------- the server as an object

  class Server {
    var cluster: Cluster

    constructor (c: Cluster)
      ensures cluster == c
    {
      cluster := c;
    }

    method GetOne(u: Uid) returns (reply: Outcome<Child>)
      modifies this
      ensures (cluster, reply) == GetChild(old(cluster), u)
    {
      var (c, r) := GetChild(cluster, u);
      cluster, reply := c, r;
    }

    method List() returns (reply: Outcome<seq<Found>>)
      modifies this
      ensures (cluster, reply) == ListChildren(old(cluster))
    {
      var (c, r) := ListChildren(cluster);
      cluster, reply := c, r;
    }

    method Patch(version: nat, finalizers: seq<string>) returns (reply: Outcome<Parent>)
      modifies this
      ensures (cluster, reply) == PatchFinalizers(old(cluster), version, finalizers)
    {
      var (c, r) := PatchFinalizers(cluster, version, finalizers);
      cluster, reply := c, r;
    }

    method Create(d: Desired) returns (reply: Outcome<Found>)
      modifies this
      ensures (cluster, reply) == CreateChild(old(cluster), d)
    {
      var (c, r) := CreateChild(cluster, d);
      cluster, reply := c, r;
    }

    method Update(u: Uid, version: nat, obj: Obj) returns (reply: Outcome<Found>)
      modifies this
      ensures (cluster, reply) == UpdateChild(old(cluster), u, version, obj)
    {
      var (c, r) := UpdateChild(cluster, u, version, obj);
      cluster, reply := c, r;
    }

    method Delete(u: Uid) returns (reply: Outcome<()>)
      modifies this
      ensures (cluster, reply) == DeleteChild(old(cluster), u)
    {
      var (c, r) := DeleteChild(cluster, u);
      cluster, reply := c, r;
    }
  }
}
