/** reconcilers/resource.go: restoring transition times, and the decision to write the
    status of the reconciled resource. */
module StatusSync {
  import opened Basics
  import opened Conditions
  import opened ConditionRuns

  // ---------- specification

  /** The first proposed condition of o's type becomes o, if only its time differs. */
  function SyncOne(ps: seq<Condition>, o: Condition): seq<Condition> {
    if |ps| == 0 then []
    else if ps[0].kind == o.kind then [if SameButTime(ps[0], o) then o else ps[0]] + ps[1..]
    else [ps[0]] + SyncOne(ps[1..], o)
  }

  function Synced(ps: seq<Condition>, os: seq<Condition>): seq<Condition>
    decreases |os|
  {
    if |os| == 0 then ps else Synced(SyncOne(ps, os[0]), os[1..])
  }

  // ---------- the code

  lemma {:induction false} SyncOneAt(ps: seq<Condition>, o: Condition, j: nat)
    requires j <= |ps| && forall k | 0 <= k < j :: ps[k].kind != o.kind
    ensures j == |ps| ==> SyncOne(ps, o) == ps
    ensures j < |ps| && ps[j].kind == o.kind ==>
      SyncOne(ps, o) == ps[j := if SameButTime(ps[j], o) then o else ps[j]]
  {
    if j > 0 {
      SyncOneAt(ps[1..], o, j - 1);
    } else if |ps| > 0 {
      assert forall x :: [x] + ps[1..] == ps[0 := x];
    }
  }

  method SyncLastTransitionTime(proposed: array<Condition>, original: seq<Condition>)
    modifies proposed
    ensures proposed[..] == Synced(old(proposed[..]), original)
  {
    for i := 0 to |original|
      invariant Synced(old(proposed[..]), original) == Synced(proposed[..], original[i..])
    {
      var o := original[i];
      assert original[i..][1..] == original[i + 1..];
      ghost var before := proposed[..];
      var j := 0;
      while j < proposed.Length && proposed[j].kind != o.kind
        invariant 0 <= j <= proposed.Length && proposed[..] == before
        invariant forall k | 0 <= k < j :: before[k].kind != o.kind
      {
        j := j + 1;
      }
      SyncOneAt(before, o, j);
      if j < proposed.Length {
        var p := proposed[j];
        assert p == before[j] && p.kind == o.kind;
        if o.status == p.status && o.reason == p.reason && o.message == p.message && o.generation == p.generation {
          proposed[j] := p.(transition := o.transition);
        }
        assert proposed[..] == before[j := if SameButTime(p, o) then o else p];
      }
      assert proposed[..] == SyncOne(before, o);
    }
  }

  /** The same types with the same status, reason, message and generation. */
  ghost predicate SameContent(a: seq<Condition>, b: seq<Condition>) {
    forall t :: SameButTimeAt(a, b, t)
  }

  predicate SameButTimeAt(a: seq<Condition>, b: seq<Condition>, t: string) {
    var x, y := Find(a, t), Find(b, t);
    if x.Some? && y.Some? then SameButTime(x.value, y.value) else x == y
  }

  /** The end of a reconcile request: the status is written exactly when the resource stays
      and, on lists sorted by type, something other than a transition time differs. rest is
      what the status holds beside its conditions, observedGeneration included. */
  method FinishStatus<S(==)>(proposed: array<Condition>, rest: S, original: seq<Condition>, originalRest: S, terminating: bool)
    returns (write: bool)
    modifies proposed
    ensures proposed[..] == Synced(old(proposed[..]), original)
    ensures write <==> !terminating && (rest != originalRest || proposed[..] != original)
    ensures KindsSorted(old(proposed[..])) && KindsSorted(original) ==>
      (write <==> !terminating && (rest != originalRest || !SameContent(old(proposed[..]), original)))
  {
    if KindsSorted(proposed[..]) && KindsSorted(original) {
      RestoredExactly(proposed[..], original);
    }
    SyncLastTransitionTime(proposed, original);
    write := (rest != originalRest || proposed[..] != original) && !terminating;
  }

  // ---------- what syncing restores

  lemma {:induction false} SyncOneKinds(ps: seq<Condition>, o: Condition)
    ensures |SyncOne(ps, o)| == |ps| && forall i | 0 <= i < |ps| :: SyncOne(ps, o)[i].kind == ps[i].kind
  {
    if |ps| > 0 && ps[0].kind != o.kind {
      SyncOneKinds(ps[1..], o);
    }
  }

  lemma {:induction false} SyncOneFinds(ps: seq<Condition>, o: Condition)
    requires KindsSorted(ps)
    ensures KindsSorted(SyncOne(ps, o))
    ensures forall t :: Find(SyncOne(ps, o), t) == FindSynced(ps, Some(o), t)
  {
    SyncOneKinds(ps, o);
    if |ps| > 0 {
      TailSorted(ps);
      if ps[0].kind != o.kind {
        SyncOneFinds(ps[1..], o);
      }
    }
  }

  function FindSynced(ps: seq<Condition>, o: Option<Condition>, t: string): Option<Condition> {
    var p := Find(ps, t);
    if p.Some? && o.Some? && o.value.kind == t && SameButTime(p.value, o.value) then o else p
  }

  lemma {:induction false} SyncedFinds(ps: seq<Condition>, os: seq<Condition>)
    requires KindsSorted(ps) && KindsSorted(os)
    ensures KindsSorted(Synced(ps, os))
    ensures forall t :: Find(Synced(ps, os), t) == FindSynced(ps, Find(os, t), t)
    decreases |os|
  {
    if |os| > 0 {
      TailSorted(os);
      assert os == [os[0]] + os[1..];
      SyncOneFinds(ps, os[0]);
      SyncedFinds(SyncOne(ps, os[0]), os[1..]);
      forall t ensures Find(Synced(ps, os), t) == FindSynced(ps, Find(os, t), t) {
        assert Find(SyncOne(ps, os[0]), t) == FindSynced(ps, Some(os[0]), t);
        assert t == os[0].kind ==> Find(os[1..], t).None?;
      }
    }
  }

  /** Syncing gives back the original list, element for element, exactly when the content
      is the same. */
  lemma RestoredExactly(ps: seq<Condition>, os: seq<Condition>)
    requires KindsSorted(ps) && KindsSorted(os)
    ensures Synced(ps, os) == os <==> SameContent(ps, os)
  {
    SyncedFinds(ps, os);
    if SameContent(ps, os) {
      forall t ensures Find(Synced(ps, os), t) == Find(os, t) {
        assert SameButTimeAt(ps, os, t);
      }
      SameFinds(Synced(ps, os), os);
    }
    if Synced(ps, os) == os {
      forall t ensures SameButTimeAt(ps, os, t) {
        assert Find(Synced(ps, os), t) == FindSynced(ps, Find(os, t), t);
      }
    }
  }

  /** However often conditions flapped in between, a request whose run of operations ends
      with the content it started from leaves the stored status as it is, and any other
      run is noticed. */
  lemma NoOpWritesNothing(s: ConditionSet, original: seq<Condition>, ops: seq<Timed>)
    requires KindsSorted(original)
    ensures Synced(Run(s, original, ops), original) == original <==> SameContent(Run(s, original, ops), original)
  {
    RunKeepsSorted(s, original, ops);
    RestoredExactly(Run(s, original, ops), original);
  }

  // ---------- transition times tell the truth

  /** A transition time differs only where something else does. */
  ghost predicate Honest(cs: seq<Condition>, cs': seq<Condition>) {
    forall t :: HonestAt(cs, cs', t)
  }

  predicate HonestAt(cs: seq<Condition>, cs': seq<Condition>, t: string) {
    var x, y := Find(cs, t), Find(cs', t);
    x.Some? && y.Some? && SameButTime(y.value, x.value) ==> x == y
  }

  lemma SetHonest(cs: seq<Condition>, c: Condition, now: int)
    requires KindsSorted(cs)
    ensures KindsSorted(Set(cs, c, now))
    ensures forall t :: HonestAt(cs, Set(cs, c, now), t)
    ensures forall t | t != c.kind :: Find(Set(cs, c, now), t) == Find(cs, t)
  {
    SetKeepsSorted(cs, c, now);
    forall t ensures HonestAt(cs, Set(cs, c, now), t) {
      assert Find(Set(cs, c, now), t) == FindAfter(cs, c, now, t);
    }
  }

  lemma TwoSetsHonest(cs: seq<Condition>, a: Condition, b: Condition, now: int)
    requires KindsSorted(cs) && a.kind != b.kind
    ensures Honest(cs, Set(cs, a, now)) && Honest(cs, Set(Set(cs, a, now), b, now))
  {
    SetHonest(cs, a, now);
    SetHonest(Set(cs, a, now), b, now);
    forall t ensures HonestAt(cs, Set(Set(cs, a, now), b, now), t) {
      assert HonestAt(cs, Set(cs, a, now), t) && HonestAt(Set(cs, a, now), Set(Set(cs, a, now), b, now), t);
      if t == b.kind {
        assert Find(Set(cs, a, now), t) == Find(cs, t);
      }
    }
  }

  /** No operation on anything but the summary changes a transition time without need. */
  lemma ApplyIsHonest(s: ConditionSet, cs: seq<Condition>, op: Op, now: int)
    requires KindsSorted(cs)
    requires op.OpTrue? || op.OpUnknown? || op.OpFalse? ==> op.t != s.happyType
    ensures Honest(cs, Apply(s, cs, op, now))
  {
    match op
    case OpTrue(t, reason, message) =>
      TwoSetsHonest(cs, Mark(t, IsTrue, reason, message), Mark(s.happyType, IsTrue, s.happyReason, ""), now);
    case OpFalse(t, reason, message) =>
      TwoSetsHonest(cs, Mark(t, IsFalse, reason, message), Mark(s.happyType, IsFalse, reason, message), now);
    case OpUnknown(t, reason, message) =>
      TwoSetsHonest(cs, Mark(t, IsUnknown, reason, message), Mark(s.happyType, IsFalse, reason, message), now);
      TwoSetsHonest(cs, Mark(t, IsUnknown, reason, message), Mark(s.happyType, IsUnknown, reason, message), now);
    case OpSet(c) => SetHonest(cs, c, now);
    case OpClear(t) => if KindsSorted(cs) { ClearedFinds(cs, t); DropFinds(cs, t); }
    case OpInitialize => InitializeFills(s, cs, now, now);
  }

  /** A mark on the summary that sets it twice, ending where it began. */
  predicate SetsTwice(s: ConditionSet, cs: seq<Condition>, op: Op, was: Condition) {
    match op
    case OpTrue(t, reason, message) =>
      && |s.dependents| > 0 && AllTrue(cs, s.dependents)
      && SameButTime(Mark(t, IsTrue, s.happyReason, ""), was) && !SameButTime(Mark(t, IsTrue, reason, message), was)
    case OpUnknown(t, reason, message) =>
      SomeFalse(cs, s.dependents) && SameButTime(Mark(t, IsFalse, reason, message), was)
    case _ => false
  }

  /** Marking the summary directly moves its transition time although its content ends as
      it was, exactly when the mark is overridden by one equal to what was stored. */
  lemma HappyMarkHonest(s: ConditionSet, cs: seq<Condition>, op: Op, now: int)
    requires KindsSorted(cs) && (op.OpTrue? || op.OpUnknown? || op.OpFalse?) && op.t == s.happyType
    ensures var was := Find(cs, s.happyType);
      Honest(cs, Apply(s, cs, op, now)) <==>
        was.None? || was.value.transition == now || !SetsTwice(s, cs, op, was.value)
  {
    var t := s.happyType;
    match op
    case OpTrue(_, reason, message) =>
      var first := Mark(t, IsTrue, reason, message);
      StatusAfterSet(cs, first, now);
      SameDependents(s, cs, Set(cs, first, now), t);
      SetHonest(cs, first, now);
      TwiceHonest(cs, first, Mark(t, IsTrue, s.happyReason, ""), now);
    case OpUnknown(_, reason, message) =>
      var first := Mark(t, IsUnknown, reason, message);
      StatusAfterSet(cs, first, now);
      SameDependents(s, cs, Set(cs, first, now), t);
      SetHonest(cs, first, now);
      TwiceHonest(cs, first, Mark(t, IsFalse, reason, message), now);
    case OpFalse(_, reason, message) =>
      SetHonest(cs, Mark(t, IsFalse, reason, message), now);
  }

  /** Marking Ready True with another reason, while its parts are True: only its time moves. */
  lemma HappyTimeMovesHere()
    ensures var cs := TwoPartsAre(IsTrue, IsTrue, Mark("Ready", IsTrue, "Ready", ""));
      !Honest(cs, Apply(TwoParts(), cs, OpTrue("Ready", "Other", ""), 1))
  {
    var s, ready := TwoParts(), Mark("Ready", IsTrue, "Ready", "");
    var cs := TwoPartsAre(IsTrue, IsTrue, ready);
    TwoPartsSorted(IsTrue, IsTrue, ready);
    TwoPartsSummary(IsTrue, IsTrue, ready);
    assert Find(cs, "Ready") == Some(ready) && AllTrue(cs, s.dependents);
    assert SetsTwice(s, cs, OpTrue("Ready", "Other", ""), ready);
    HappyMarkHonest(s, cs, OpTrue("Ready", "Other", ""), 1);
  }

  /** Setting one condition twice is honest unless the second restores what the first changed. */
  lemma TwiceHonest(cs: seq<Condition>, first: Condition, second: Condition, now: int)
    requires KindsSorted(cs) && first.kind == second.kind
    ensures var was := Find(cs, first.kind);
      Honest(cs, Set(Set(cs, first, now), second, now)) <==>
        was.None? || was.value.transition == now
        || !(SameButTime(second, was.value) && !SameButTime(first, was.value))
  {
    var t := first.kind;
    var cs' := Set(Set(cs, first, now), second, now);
    SetHonest(cs, first, now);
    SetHonest(Set(cs, first, now), second, now);
    SetKeepsSorted(cs, first, now);
    SetKeepsSorted(Set(cs, first, now), second, now);
    assert Find(Set(cs, first, now), t) == FindAfter(cs, first, now, t);
    assert Find(cs', t) == FindAfter(Set(cs, first, now), second, now, t);
    assert Honest(cs, cs') <==> HonestAt(cs, cs', t) by {
      forall k | k != t ensures HonestAt(cs, cs', k) {
        assert Find(cs', k) == Find(cs, k);
      }
    }
  }

  lemma FreshTimes(cs: seq<Condition>, c: Condition, now: int)
    requires KindsSorted(cs)
    ensures KindsSorted(Set(cs, c, now))
    ensures forall x | x in Set(cs, c, now) :: x in cs || x.transition == now
  {
    PutFinds(cs, c.(transition := now));
  }

  lemma {:induction false} InitializedTimes(cs: seq<Condition>, dependents: seq<string>, status: Status, now: int)
    requires KindsSorted(cs)
    ensures forall x | x in InitializedEach(cs, dependents, status, now) :: x in cs || x.transition == now
    decreases |dependents|
  {
    if |dependents| > 0 {
      var t := dependents[0];
      FreshTimes(cs, Mark(t, status, "Initializing", ""), now);
      InitializedTimes(if Find(cs, t).Some? then cs else Set(cs, Mark(t, status, "Initializing", ""), now),
                       dependents[1..], status, now);
    }
  }

  lemma ApplyTimes(s: ConditionSet, cs: seq<Condition>, op: Op, now: int)
    requires KindsSorted(cs)
    ensures forall x | x in Apply(s, cs, op, now) :: x in cs || x.transition == now
  {
    match op
    case OpTrue(t, reason, message) =>
      FreshTimes(cs, Mark(t, IsTrue, reason, message), now);
      FreshTimes(Set(cs, Mark(t, IsTrue, reason, message), now), Mark(s.happyType, IsTrue, s.happyReason, ""), now);
    case OpFalse(t, reason, message) =>
      FreshTimes(cs, Mark(t, IsFalse, reason, message), now);
      FreshTimes(Set(cs, Mark(t, IsFalse, reason, message), now), Mark(s.happyType, IsFalse, reason, message), now);
    case OpUnknown(t, reason, message) =>
      var cs1 := Set(cs, Mark(t, IsUnknown, reason, message), now);
      FreshTimes(cs, Mark(t, IsUnknown, reason, message), now);
      FreshTimes(cs1, Mark(s.happyType, IsUnknown, reason, message), now);
      FreshTimes(cs1, Mark(s.happyType, IsFalse, reason, message), now);
    case OpSet(c) => FreshTimes(cs, c, now);
    case OpClear(t) => DropFinds(cs, t);
    case OpInitialize =>
      var first := Mark(s.happyType, IsUnknown, "Initializing", "");
      FreshTimes(cs, first, now);
      var cs1 := if Find(cs, s.happyType).Some? then cs else Set(cs, first, now);
      InitializedTimes(cs1, s.dependents, if StatusOf(cs1, s.happyType) == Some(IsTrue) then IsTrue else IsUnknown, now);
  }

  lemma {:induction false} RunTimes(s: ConditionSet, cs: seq<Condition>, ops: seq<Timed>, now: int)
    requires KindsSorted(cs) && forall o | o in ops :: o.now == now
    ensures forall x | x in Run(s, cs, ops) :: x in cs || x.transition == now
    decreases |ops|
  {
    if |ops| > 0 {
      assert ops[0] in ops && forall o | o in ops[1..] :: o in ops;
      ApplyKeepsSorted(s, cs, ops[0].op, now);
      ApplyTimes(s, cs, ops[0].op, now);
      RunTimes(s, Apply(s, cs, ops[0].op, now), ops[1..], now);
    }
  }

  /** After one request, with any operations at all, every condition is either stored as it
      was or carries the time of the request and differs from what was stored in more than
      its time: syncing also mends what marks on the summary did. */
  lemma RequestIsHonest(s: ConditionSet, original: seq<Condition>, ops: seq<Timed>, now: int)
    requires KindsSorted(original) && forall o | o in ops :: o.now == now
    ensures forall x | x in Synced(Run(s, original, ops), original) ::
      x in original
      || (x.transition == now && (Find(original, x.kind).Some? ==> !SameButTime(x, Find(original, x.kind).value)))
  {
    var ps := Run(s, original, ops);
    RunKeepsSorted(s, original, ops);
    RunTimes(s, original, ops, now);
    SyncedFinds(ps, original);
    MembersFound(Synced(ps, original));
    forall x | x in Synced(ps, original)
      ensures x in original
        || (x.transition == now && (Find(original, x.kind).Some? ==> !SameButTime(x, Find(original, x.kind).value)))
    {
      assert Some(x) == FindSynced(ps, Find(original, x.kind), x.kind);
    }
  }
}
