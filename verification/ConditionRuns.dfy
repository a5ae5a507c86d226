/** What every run of condition operations keeps: the order of the list, and the happy
    condition as a summary of the dependents. */
module ConditionRuns {
  import opened Basics
  import opened Conditions

  datatype Op =
    | OpTrue(t: string, reason: string, message: string)
    | OpUnknown(t: string, reason: string, message: string)
    | OpFalse(t: string, reason: string, message: string)
    | OpSet(c: Condition)
    | OpClear(t: string)
    | OpInitialize

  datatype Timed = Timed(op: Op, now: int)

  function Apply(s: ConditionSet, cs: seq<Condition>, op: Op, now: int): seq<Condition> {
    match op
    case OpTrue(t, reason, message) => MarkedTrue(s, cs, t, reason, message, now)
    case OpUnknown(t, reason, message) => MarkedUnknown(s, cs, t, reason, message, now)
    case OpFalse(t, reason, message) => MarkedFalse(s, cs, t, reason, message, now)
    case OpSet(c) => Set(cs, c, now)
    case OpClear(t) => Cleared(s, cs, t)
    case OpInitialize => Initialized(s, cs, now)
  }

  function Run(s: ConditionSet, cs: seq<Condition>, ops: seq<Timed>): seq<Condition>
    decreases |ops|
  {
    if |ops| == 0 then cs else Run(s, Apply(s, cs, ops[0].op, ops[0].now), ops[1..])
  }

  // ---------- sorted, and nothing present is overwritten on initialization

  lemma InitializedOne(cs: seq<Condition>, t: string, status: Status, now: int)
    requires KindsSorted(cs)
    ensures var cs1 := if Find(cs, t).Some? then cs else Set(cs, Mark(t, status, "Initializing", ""), now);
      && KindsSorted(cs1)
      && Find(cs1, t) == (if Find(cs, t).Some? then Find(cs, t) else Some(Mark(t, status, "Initializing", "").(transition := now)))
      && forall k | k != t :: Find(cs1, k) == Find(cs, k)
  {
    SetKeepsSorted(cs, Mark(t, status, "Initializing", ""), now);
  }

  lemma {:induction false} InitializedEachKeeps(cs: seq<Condition>, dependents: seq<string>, status: Status, now: int)
    requires KindsSorted(cs)
    ensures KindsSorted(InitializedEach(cs, dependents, status, now))
    ensures forall t :: Find(InitializedEach(cs, dependents, status, now), t) == FindInitialized(cs, dependents, status, now, t)
    decreases |dependents|
  {
    if |dependents| > 0 {
      var t, rest := dependents[0], dependents[1..];
      var cs1 := if Find(cs, t).Some? then cs else Set(cs, Mark(t, status, "Initializing", ""), now);
      InitializedOne(cs, t, status, now);
      InitializedEachKeeps(cs1, rest, status, now);
      forall k ensures FindInitialized(cs1, rest, status, now, k) == FindInitialized(cs, dependents, status, now, k) {
        InTail(dependents, k);
      }
    }
  }

  lemma InTail(s: seq<string>, x: string)
    requires |s| > 0
    ensures x in s <==> x == s[0] || x in s[1..]
  {
    assert s == [s[0]] + s[1..];
  }

  function FindInitialized(cs: seq<Condition>, dependents: seq<string>, status: Status, now: int, t: string): Option<Condition> {
    if Find(cs, t).Some? || t !in dependents then Find(cs, t)
    else Some(Mark(t, status, "Initializing", "").(transition := now))
  }

  /** Initialization leaves every condition that is present, adds the missing terminal ones
      and nothing else, keeps the list sorted, and does nothing when repeated. */
  lemma InitializeFills(s: ConditionSet, cs: seq<Condition>, now: int, later: int)
    requires KindsSorted(cs)
    ensures var cs' := Initialized(s, cs, now);
      && KindsSorted(cs')
      && (forall t | Find(cs, t).Some? :: Find(cs', t) == Find(cs, t))
      && (forall t | Find(cs, t).None? :: Find(cs', t).Some? <==> Terminal(s, t))
      && Initialized(s, cs', later) == cs'
  {
    var first := Mark(s.happyType, IsUnknown, "Initializing", "");
    SetKeepsSorted(cs, first, now);
    var cs1 := if Find(cs, s.happyType).Some? then cs else Set(cs, first, now);
    var status := if StatusOf(cs1, s.happyType) == Some(IsTrue) then IsTrue else IsUnknown;
    InitializedEachKeeps(cs1, s.dependents, status, now);
    var cs' := Initialized(s, cs, now);
    forall t | Terminal(s, t) ensures Find(cs', t).Some? {
      assert Find(cs', t) == FindInitialized(cs1, s.dependents, status, now, t);
    }
    InitializedAlready(cs', s.dependents, if StatusOf(cs', s.happyType) == Some(IsTrue) then IsTrue else IsUnknown, later);
  }

  lemma {:induction false} InitializedAlready(cs: seq<Condition>, dependents: seq<string>, status: Status, now: int)
    requires forall d | d in dependents :: Find(cs, d).Some?
    ensures InitializedEach(cs, dependents, status, now) == cs
    decreases |dependents|
  {
    if |dependents| > 0 {
      assert dependents[0] in dependents;
      InitializedAlready(cs, dependents[1..], status, now);
    }
  }

  lemma ApplyKeepsSorted(s: ConditionSet, cs: seq<Condition>, op: Op, now: int)
    requires KindsSorted(cs)
    ensures KindsSorted(Apply(s, cs, op, now))
  {
    match op
    case OpTrue(t, reason, message) =>
      SetKeepsSorted(cs, Mark(t, IsTrue, reason, message), now);
      SetKeepsSorted(Set(cs, Mark(t, IsTrue, reason, message), now), Mark(s.happyType, IsTrue, s.happyReason, ""), now);
    case OpFalse(t, reason, message) => FalseKeepsSorted(s, cs, t, reason, message, now);
    case OpUnknown(t, reason, message) =>
      var cs1 := Set(cs, Mark(t, IsUnknown, reason, message), now);
      SetKeepsSorted(cs, Mark(t, IsUnknown, reason, message), now);
      FalseKeepsSorted(s, cs1, s.happyType, reason, message, now);
      SetKeepsSorted(cs1, Mark(s.happyType, IsUnknown, reason, message), now);
    case OpSet(c) => SetKeepsSorted(cs, c, now);
    case OpClear(t) => DropFinds(cs, t);
    case OpInitialize => InitializeFills(s, cs, now, now);
  }

  lemma FalseKeepsSorted(s: ConditionSet, cs: seq<Condition>, t: string, reason: string, message: string, now: int)
    requires KindsSorted(cs)
    ensures KindsSorted(MarkedFalse(s, cs, t, reason, message, now))
  {
    SetKeepsSorted(cs, Mark(t, IsFalse, reason, message), now);
    SetKeepsSorted(Set(cs, Mark(t, IsFalse, reason, message), now), Mark(s.happyType, IsFalse, reason, message), now);
  }

  lemma {:induction false} RunKeepsSorted(s: ConditionSet, cs: seq<Condition>, ops: seq<Timed>)
    requires KindsSorted(cs)
    ensures KindsSorted(Run(s, cs, ops))
    decreases |ops|
  {
    if |ops| > 0 {
      ApplyKeepsSorted(s, cs, ops[0].op, ops[0].now);
      RunKeepsSorted(s, Apply(s, cs, ops[0].op, ops[0].now), ops[1..]);
    }
  }

  // ---------- the happy condition

  /** The summary: true exactly when every dependent is, false whenever one of them is. */
  ghost predicate Faithful(s: ConditionSet, cs: seq<Condition>) {
    && KindsSorted(cs)
    && (StatusOf(cs, s.happyType) == Some(IsTrue) <==> AllTrue(cs, s.dependents))
    && (SomeFalse(cs, s.dependents) ==> StatusOf(cs, s.happyType) == Some(IsFalse))
  }

  /** Conditions a caller manages: marks on anything but the summary, and clearing. Other
      conditions may be set directly when they are not terminal. */
  predicate Proper(s: ConditionSet, op: Op) {
    match op
    case OpTrue(t, _, _) => t != s.happyType
    case OpUnknown(t, _, _) => t != s.happyType
    case OpFalse(t, _, _) => t != s.happyType
    case OpSet(c) => !Terminal(s, c.kind)
    case OpClear(_) => true
    case OpInitialize => true
  }

  lemma StatusAfterSet(cs: seq<Condition>, c: Condition, now: int)
    requires KindsSorted(cs)
    ensures KindsSorted(Set(cs, c, now))
    ensures forall t :: StatusOf(Set(cs, c, now), t) == if t == c.kind then Some(c.status) else StatusOf(cs, t)
  {
    SetKeepsSorted(cs, c, now);
  }

  lemma TrueKeepsFaithful(s: ConditionSet, cs: seq<Condition>, t: string, reason: string, message: string, now: int)
    requires Faithful(s, cs) && t != s.happyType && |s.dependents| > 0
    ensures Faithful(s, MarkedTrue(s, cs, t, reason, message, now))
  {
    var cs1 := Set(cs, Mark(t, IsTrue, reason, message), now);
    StatusAfterSet(cs, Mark(t, IsTrue, reason, message), now);
    StatusAfterSet(cs1, Mark(s.happyType, IsTrue, s.happyReason, ""), now);
    if !AllTrue(cs1, s.dependents) {
      var d :| d in s.dependents && StatusOf(cs1, d) != Some(IsTrue);
      assert StatusOf(cs, d) != Some(IsTrue);
      if SomeFalse(cs1, s.dependents) {
        var e :| e in s.dependents && StatusOf(cs1, e) == Some(IsFalse);
        assert StatusOf(cs, e) == Some(IsFalse);
      }
    }
  }

  lemma FalseKeepsFaithful(s: ConditionSet, cs: seq<Condition>, t: string, reason: string, message: string, now: int)
    requires Faithful(s, cs) && t != s.happyType && |s.dependents| > 0
    ensures Faithful(s, MarkedFalse(s, cs, t, reason, message, now))
  {
    var cs1 := Set(cs, Mark(t, IsFalse, reason, message), now);
    StatusAfterSet(cs, Mark(t, IsFalse, reason, message), now);
    StatusAfterSet(cs1, Mark(s.happyType, IsFalse, reason, message), now);
    SameDependents(s, cs, MarkedFalse(s, cs, t, reason, message, now), t);
  }

  /** When t is not a dependent, nothing about the dependents changes. */
  lemma SameDependents(s: ConditionSet, cs: seq<Condition>, cs': seq<Condition>, t: string)
    requires forall d | d in s.dependents && d != t :: StatusOf(cs', d) == StatusOf(cs, d)
    ensures t !in s.dependents ==>
      (AllTrue(cs', s.dependents) <==> AllTrue(cs, s.dependents)) && (SomeFalse(cs', s.dependents) <==> SomeFalse(cs, s.dependents))
  {
    if t !in s.dependents {
      assert forall d | d in s.dependents :: StatusOf(cs', d) == StatusOf(cs, d);
    }
  }

  lemma UnknownKeepsFaithful(s: ConditionSet, cs: seq<Condition>, t: string, reason: string, message: string, now: int)
    requires Faithful(s, cs) && t != s.happyType && |s.dependents| > 0
    ensures Faithful(s, MarkedUnknown(s, cs, t, reason, message, now))
  {
    var c := Mark(t, IsUnknown, reason, message);
    var cs1 := Set(cs, c, now);
    StatusAfterSet(cs, c, now);
    StatusAfterSet(cs1, Mark(s.happyType, IsUnknown, reason, message), now);
    StatusAfterSet(cs1, Mark(s.happyType, IsFalse, reason, message), now);
    SameDependents(s, cs, cs1, t);
    if SomeFalse(cs1, s.dependents) {
      var d :| d in s.dependents && StatusOf(cs1, d) == Some(IsFalse);
      assert StatusOf(cs, d) == Some(IsFalse);
      assert SomeFalse(cs, s.dependents);
    }
  }

  lemma OtherKeepsFaithful(s: ConditionSet, cs: seq<Condition>, op: Op, now: int)
    requires Faithful(s, cs) && Proper(s, op) && |s.dependents| > 0
    requires op.OpSet? || op.OpClear? || op.OpInitialize?
    requires forall t | Terminal(s, t) :: Find(cs, t).Some?
    ensures Faithful(s, Apply(s, cs, op, now))
  {
    var cs' := Apply(s, cs, op, now);
    ApplyKeepsSorted(s, cs, op, now);
    match op {
      case OpSet(c) => StatusAfterSet(cs, c, now);
      case OpClear(t) =>
        if !Terminal(s, t) && Find(cs, t).Some? {
          ClearedFinds(cs, t);
        }
      case OpInitialize => InitializeFills(s, cs, now, now);
    }
    assert forall t | Terminal(s, t) :: StatusOf(cs', t) == StatusOf(cs, t);
    assert forall d | d in s.dependents :: Terminal(s, d);
  }

  lemma ClearedFinds(cs: seq<Condition>, t: string)
    requires KindsSorted(cs)
    ensures forall k | k != t :: Find(Drop(cs, t), k) == Find(cs, k)
  {
    DropFinds(cs, t);
    MembersFound(cs);
    MembersFound(Drop(cs, t));
  }

  /** A sorted list with every terminal condition. */
  ghost predicate Complete(s: ConditionSet, cs: seq<Condition>) {
    KindsSorted(cs) && forall t | Terminal(s, t) :: Find(cs, t).Some?
  }

  lemma SetComplete(s: ConditionSet, cs: seq<Condition>, c: Condition, now: int)
    requires Complete(s, cs)
    ensures Complete(s, Set(cs, c, now))
  {
    SetKeepsSorted(cs, c, now);
  }

  /** No operation removes a terminal condition. */
  lemma ApplyKeepsComplete(s: ConditionSet, cs: seq<Condition>, op: Op, now: int)
    requires Complete(s, cs)
    ensures Complete(s, Apply(s, cs, op, now))
  {
    match op
    case OpTrue(t, reason, message) =>
      SetComplete(s, cs, Mark(t, IsTrue, reason, message), now);
      SetComplete(s, Set(cs, Mark(t, IsTrue, reason, message), now), Mark(s.happyType, IsTrue, s.happyReason, ""), now);
    case OpFalse(t, reason, message) =>
      FalseKeepsComplete(s, cs, t, reason, message, now);
    case OpUnknown(t, reason, message) =>
      var cs1 := Set(cs, Mark(t, IsUnknown, reason, message), now);
      SetComplete(s, cs, Mark(t, IsUnknown, reason, message), now);
      SetComplete(s, cs1, Mark(s.happyType, IsUnknown, reason, message), now);
      FalseKeepsComplete(s, cs1, s.happyType, reason, message, now);
    case OpSet(c) => SetComplete(s, cs, c, now);
    case OpClear(t) =>
      ClearedFinds(cs, t);
      DropFinds(cs, t);
    case OpInitialize => InitializeFills(s, cs, now, now);
  }

  lemma FalseKeepsComplete(s: ConditionSet, cs: seq<Condition>, t: string, reason: string, message: string, now: int)
    requires Complete(s, cs)
    ensures Complete(s, MarkedFalse(s, cs, t, reason, message, now))
  {
    SetComplete(s, cs, Mark(t, IsFalse, reason, message), now);
    SetComplete(s, Set(cs, Mark(t, IsFalse, reason, message), now), Mark(s.happyType, IsFalse, reason, message), now);
  }

  /** Over every run of proper operations, in any number of requests, the happy condition
      stays a faithful summary of the dependents. */
  lemma {:induction false} RunKeepsFaithful(s: ConditionSet, cs: seq<Condition>, ops: seq<Timed>)
    requires Faithful(s, cs) && |s.dependents| > 0 && Complete(s, cs)
    requires forall o | o in ops :: Proper(s, o.op)
    ensures Faithful(s, Run(s, cs, ops))
    decreases |ops|
  {
    if |ops| > 0 {
      var o := ops[0];
      assert o in ops && forall x | x in ops[1..] :: x in ops;
      match o.op {
        case OpTrue(t, reason, message) => TrueKeepsFaithful(s, cs, t, reason, message, o.now);
        case OpFalse(t, reason, message) => FalseKeepsFaithful(s, cs, t, reason, message, o.now);
        case OpUnknown(t, reason, message) => UnknownKeepsFaithful(s, cs, t, reason, message, o.now);
        case _ => OtherKeepsFaithful(s, cs, o.op, o.now);
      }
      ApplyKeepsComplete(s, cs, o.op, o.now);
      RunKeepsFaithful(s, Apply(s, cs, o.op, o.now), ops[1..]);
    }
  }

  /** Initialization yields a faithful summary of whatever was stored exactly when what was
      stored did not already contradict it. */
  lemma InitializeIsFaithful(s: ConditionSet, cs: seq<Condition>, now: int)
    requires KindsSorted(cs) && |s.dependents| > 0
    ensures Faithful(s, Initialized(s, cs, now)) <==>
      var happy := StatusOf(cs, s.happyType);
      && (forall d | d in s.dependents && Find(cs, d).Some? ::
            && (happy == Some(IsTrue) ==> StatusOf(cs, d) == Some(IsTrue))
            && (happy != Some(IsFalse) ==> StatusOf(cs, d) != Some(IsFalse)))
      && (happy != Some(IsTrue) ==> !AllTrue(cs, s.dependents))
  {
    InitializedStatuses(s, cs, now);
    var cs' := Initialized(s, cs, now);
    var happy := StatusOf(cs, s.happyType);
    if SomeFalse(cs', s.dependents) {
      var d :| d in s.dependents && StatusOf(cs', d) == Some(IsFalse);
      assert StatusOf(cs, d) == Some(IsFalse) && Find(cs, d).Some?;
    }
    assert s.dependents[0] in s.dependents;
  }

  lemma InitializedStatuses(s: ConditionSet, cs: seq<Condition>, now: int)
    requires KindsSorted(cs)
    ensures var cs', happy := Initialized(s, cs, now), StatusOf(cs, s.happyType);
      && KindsSorted(cs')
      && StatusOf(cs', s.happyType) == (if happy.Some? then happy else Some(IsUnknown))
      && forall d | d in s.dependents :: StatusOf(cs', d) ==
           (if Find(cs, d).Some? then StatusOf(cs, d) else if happy == Some(IsTrue) then happy else Some(IsUnknown))
  {
    var first := Mark(s.happyType, IsUnknown, "Initializing", "");
    SetKeepsSorted(cs, first, now);
    var cs1 := if Find(cs, s.happyType).Some? then cs else Set(cs, first, now);
    var status := if StatusOf(cs1, s.happyType) == Some(IsTrue) then IsTrue else IsUnknown;
    InitializedEachKeeps(cs1, s.dependents, status, now);
    var cs' := Initialized(s, cs, now);
    forall t ensures Find(cs', t) == FindInitialized(cs1, s.dependents, status, now, t) {}
  }

  /** A mark on the summary itself is not checked against the dependents: it is faithful
      exactly when it happens to agree with them. */
  lemma HappyMarks(s: ConditionSet, cs: seq<Condition>, op: Op, now: int)
    requires KindsSorted(cs) && |s.dependents| > 0
    requires (op.OpTrue? || op.OpUnknown? || op.OpFalse?) && op.t == s.happyType
    ensures Faithful(s, Apply(s, cs, op, now)) <==>
      (AllTrue(cs, s.dependents) <==> op.OpTrue?)
  {
    var t := s.happyType;
    ApplyKeepsSorted(s, cs, op, now);
    var status := if op.OpTrue? then IsTrue else if op.OpFalse? then IsFalse else IsUnknown;
    var cs1 := Set(cs, Mark(t, status, op.reason, op.message), now);
    StatusAfterSet(cs, Mark(t, status, op.reason, op.message), now);
    StatusAfterSet(cs1, Mark(t, IsTrue, s.happyReason, ""), now);
    StatusAfterSet(cs1, Mark(t, IsFalse, op.reason, op.message), now);
    var cs' := Apply(s, cs, op, now);
    assert forall d | d in s.dependents :: d != t;
    SameDependents(s, cs, cs1, t);
    SameDependents(s, cs, cs', t);
    assert s.dependents[0] in s.dependents;
  }

  /** MarkFalse is documented to set the happy condition to False. Afterwards it is False
      exactly when the type is a dependent or the happy type itself, or it was False. */
  lemma FalseMakesUnhappy(s: ConditionSet, cs: seq<Condition>, t: string, reason: string, message: string, now: int)
    requires KindsSorted(cs)
    ensures StatusOf(MarkedFalse(s, cs, t, reason, message, now), s.happyType) == Some(IsFalse) <==>
      t in s.dependents || t == s.happyType || StatusOf(cs, s.happyType) == Some(IsFalse)
  {
    var c := Mark(t, IsFalse, reason, message);
    StatusAfterSet(cs, c, now);
    StatusAfterSet(Set(cs, c, now), Mark(s.happyType, IsFalse, reason, message), now);
  }

  /** A set with dependents A and B, and its conditions. */
  function TwoParts(): ConditionSet {
    assert Deduplicated(RawSet("Ready", "Ready", ["A", "B"]));
    RawSet("Ready", "Ready", ["A", "B"])
  }

  function TwoPartsAre(a: Status, b: Status, ready: Condition): seq<Condition> {
    [Mark("A", a, "", ""), Mark("B", b, "", ""), ready]
  }

  lemma TwoPartsSorted(a: Status, b: Status, ready: Condition)
    requires ready.kind == "Ready"
    ensures KindsSorted(TwoPartsAre(a, b, ready))
    ensures StatusOf(TwoPartsAre(a, b, ready), "A") == Some(a)
    ensures StatusOf(TwoPartsAre(a, b, ready), "B") == Some(b)
    ensures Find(TwoPartsAre(a, b, ready), "Ready") == Some(ready)
  {
    var cs := TwoPartsAre(a, b, ready);
    assert cs[1..][1..] == [ready];
    assert Less("A", "B") && Less("A", "Ready") && Less("B", "Ready");
    assert cs[0].kind == "A" && cs[1].kind == "B" && cs[2].kind == "Ready";
    MembersFound(cs);
  }

  lemma TwoPartsSummary(a: Status, b: Status, ready: Condition)
    requires ready.kind == "Ready"
    ensures AllTrue(TwoPartsAre(a, b, ready), TwoParts().dependents) <==> a == b == IsTrue
    ensures SomeFalse(TwoPartsAre(a, b, ready), TwoParts().dependents) <==> a == IsFalse || b == IsFalse
  {
    TwoPartsSorted(a, b, ready);
    OnlyTwoParts();
  }

  /** A condition that is not a dependent is False, and the resource stays happy. */
  lemma FalseLeavesHappyHere(now: int)
    ensures StatusOf(MarkedFalse(TwoParts(), TwoPartsAre(IsTrue, IsTrue, Mark("Ready", IsTrue, "Ready", "")), "Other", "R", "", now), "Ready")
         == Some(IsTrue)
  {
    var cs := TwoPartsAre(IsTrue, IsTrue, Mark("Ready", IsTrue, "Ready", ""));
    TwoPartsSorted(IsTrue, IsTrue, Mark("Ready", IsTrue, "Ready", ""));
    StatusAfterSet(cs, Mark("Other", IsFalse, "R", ""), now);
  }

  /** A False summary has a False dependent. */
  ghost predicate Grounded(s: ConditionSet, cs: seq<Condition>) {
    StatusOf(cs, s.happyType) == Some(IsFalse) ==> SomeFalse(cs, s.dependents)
  }

  /** MarkTrue can take away the reason for a False summary without lifting it. It leaves
      the summary grounded exactly when it was not False, or the other dependents are all
      True, or one of them is False. */
  lemma FalseLingers(s: ConditionSet, cs: seq<Condition>, t: string, reason: string, message: string, now: int)
    requires KindsSorted(cs) && |s.dependents| > 0 && t != s.happyType
    ensures Grounded(s, MarkedTrue(s, cs, t, reason, message, now)) <==>
      || StatusOf(cs, s.happyType) != Some(IsFalse)
      || (forall d | d in s.dependents && d != t :: StatusOf(cs, d) == Some(IsTrue))
      || (exists d | d in s.dependents && d != t :: StatusOf(cs, d) == Some(IsFalse))
  {
    var c := Mark(t, IsTrue, reason, message);
    var cs1 := Set(cs, c, now);
    StatusAfterSet(cs, c, now);
    StatusAfterSet(cs1, Mark(s.happyType, IsTrue, s.happyReason, ""), now);
    if exists d | d in s.dependents && d != t :: StatusOf(cs, d) == Some(IsFalse) {
      var d :| d in s.dependents && d != t && StatusOf(cs, d) == Some(IsFalse);
      assert StatusOf(cs1, d) == Some(IsFalse);
    }
    assert AllTrue(cs1, s.dependents) <==> forall d | d in s.dependents && d != t :: StatusOf(cs, d) == Some(IsTrue);
  }

  lemma LingersWith(s: ConditionSet, cs: seq<Condition>, t: string, d: string, reason: string, now: int)
    requires KindsSorted(cs) && t != s.happyType && d in s.dependents && d != t
    requires StatusOf(cs, s.happyType) == Some(IsFalse) && StatusOf(cs, d) == Some(IsUnknown)
    requires forall e | e in s.dependents && e != t :: StatusOf(cs, e) != Some(IsFalse)
    ensures !Grounded(s, MarkedTrue(s, cs, t, reason, "", now))
  {
    FalseLingers(s, cs, t, reason, "", now);
  }

  /** A has failed, B is not known yet, and A recovers. */
  lemma FalseLingersHere(now: int)
    ensures var s, cs := TwoParts(), TwoPartsAre(IsFalse, IsUnknown, Mark("Ready", IsFalse, "", ""));
      Grounded(s, cs) && !Grounded(s, MarkedTrue(s, cs, "A", "R", "", now))
  {
    var ready := Mark("Ready", IsFalse, "", "");
    TwoPartsSorted(IsFalse, IsUnknown, ready);
    TwoPartsSummary(IsFalse, IsUnknown, ready);
    OnlyTwoParts();
    LingersWith(TwoParts(), TwoPartsAre(IsFalse, IsUnknown, ready), "A", "B", "R", now);
  }

  lemma OnlyTwoParts()
    ensures forall d :: d in TwoParts().dependents <==> d == "A" || d == "B"
    ensures TwoParts().happyType == "Ready" && "A" != "B" && "A" != "Ready"
  {
    var ds := TwoParts().dependents;
    assert ds[0] == "A" && ds[1] == "B" && |ds| == 2;
  }

  /** Ready is marked True while A is False. */
  lemma HappyMarksHere(now: int)
    ensures var s, cs := TwoParts(), TwoPartsAre(IsFalse, IsTrue, Mark("Ready", IsFalse, "", ""));
      Faithful(s, cs) && !Faithful(s, MarkedTrue(s, cs, "Ready", "R", "", now))
  {
    var s, ready := TwoParts(), Mark("Ready", IsFalse, "", "");
    var cs := TwoPartsAre(IsFalse, IsTrue, ready);
    TwoPartsSorted(IsFalse, IsTrue, ready);
    TwoPartsSummary(IsFalse, IsTrue, ready);
    OnlyTwoParts();
    HappyMarks(s, cs, OpTrue("Ready", "R", ""), now);
  }

  /** Stored as Ready although A is False: initialization leaves it so. */
  lemma InitializeKeepsContradictionHere(now: int)
    ensures var cs := TwoPartsAre(IsFalse, IsTrue, Mark("Ready", IsTrue, "", ""));
      !Faithful(TwoParts(), Initialized(TwoParts(), cs, now))
  {
    var s, ready := TwoParts(), Mark("Ready", IsTrue, "", "");
    var cs := TwoPartsAre(IsFalse, IsTrue, ready);
    TwoPartsSorted(IsFalse, IsTrue, ready);
    OnlyTwoParts();
    assert "A" in s.dependents && Find(cs, "A").Some?;
    InitializeIsFaithful(s, cs, now);
  }
}
