/** What the operations leave under each type, field by field. */
module ConditionFields {
  import opened Basics
  import opened Conditions
  import opened ConditionRuns

  /** The type shows exactly these fields; its time is the old one only if the whole
      condition is. */
  predicate Shows(cs: seq<Condition>, cs': seq<Condition>, t: string, status: Status, reason: string, message: string, now: int) {
    var c := Find(cs', t);
    && c.Some? && c.value.status == status && c.value.reason == reason && c.value.message == message
    && c.value.generation == 0
    && (c == Find(cs, t) || c.value.transition == now)
  }

  predicate AsBefore(cs: seq<Condition>, cs': seq<Condition>, t: string) {
    Find(cs', t) == Find(cs, t)
  }

  lemma SetAt(cs: seq<Condition>, c: Condition, now: int, k: string)
    requires KindsSorted(cs)
    ensures KindsSorted(Set(cs, c, now)) && Find(Set(cs, c, now), k) == FindAfter(cs, c, now, k)
  {
    SetKeepsSorted(cs, c, now);
  }

  /** One condition set on a sorted list. */
  lemma SetFields(cs: seq<Condition>, c: Condition, now: int)
    requires KindsSorted(cs) && c.generation == 0
    ensures KindsSorted(Set(cs, c, now))
    ensures Shows(cs, Set(cs, c, now), c.kind, c.status, c.reason, c.message, now)
    ensures forall k | k != c.kind :: AsBefore(cs, Set(cs, c, now), k)
  {
    SetAt(cs, c, now, c.kind);
    forall k | k != c.kind ensures AsBefore(cs, Set(cs, c, now), k) {
      SetAt(cs, c, now, k);
    }
  }

  lemma StatusesKept(cs: seq<Condition>, cs': seq<Condition>, t: string, dependents: seq<string>)
    requires forall k | k != t :: AsBefore(cs, cs', k)
    ensures forall d | d in dependents && d != t :: StatusOf(cs', d) == StatusOf(cs, d)
  {
    forall d | d in dependents && d != t ensures StatusOf(cs', d) == StatusOf(cs, d) {
      assert AsBefore(cs, cs', d);
    }
  }

  ghost predicate OthersTrue(s: ConditionSet, cs: seq<Condition>, t: string) {
    forall d | d in s.dependents && d != t :: StatusOf(cs, d) == Some(IsTrue)
  }

  ghost predicate OtherFalse(s: ConditionSet, cs: seq<Condition>, t: string) {
    exists d | d in s.dependents && d != t :: StatusOf(cs, d) == Some(IsFalse)
  }

  /** MarkTrue: the type as asked; the happy condition True with the set's own reason, no
      message, exactly when all other dependents are True; nothing else. */
  lemma TrueFields(s: ConditionSet, cs: seq<Condition>, t: string, reason: string, message: string, now: int)
    requires KindsSorted(cs)
    ensures var cs' := MarkedTrue(s, cs, t, reason, message, now);
      && (forall k | k != t && k != s.happyType :: AsBefore(cs, cs', k))
      && (t != s.happyType ==> Shows(cs, cs', t, IsTrue, reason, message, now))
      && (if |s.dependents| > 0 && OthersTrue(s, cs, t)
          then Shows(cs, cs', s.happyType, IsTrue, s.happyReason, "", now)
          else if t == s.happyType then Shows(cs, cs', t, IsTrue, reason, message, now)
          else AsBefore(cs, cs', s.happyType))
  {
    var c := Mark(t, IsTrue, reason, message);
    var cs1 := Set(cs, c, now);
    SetFields(cs, c, now);
    StatusesKept(cs, cs1, t, s.dependents);
    assert AllTrue(cs1, s.dependents) <==> OthersTrue(s, cs, t);
    assert t != s.happyType ==> AsBefore(cs, cs1, s.happyType);
    if |s.dependents| > 0 && OthersTrue(s, cs, t) {
      SecondFields(cs, cs1, Mark(s.happyType, IsTrue, s.happyReason, ""), now, t);
    }
  }

  /** MarkFalse: the type as asked, and the happy condition likewise exactly for a dependent. */
  lemma FalseFields(s: ConditionSet, cs: seq<Condition>, t: string, reason: string, message: string, now: int)
    requires KindsSorted(cs)
    ensures var cs' := MarkedFalse(s, cs, t, reason, message, now);
      && (forall k | k != t && k != s.happyType :: AsBefore(cs, cs', k))
      && Shows(cs, cs', t, IsFalse, reason, message, now)
      && (t in s.dependents ==> Shows(cs, cs', s.happyType, IsFalse, reason, message, now))
      && (t !in s.dependents && t != s.happyType ==> AsBefore(cs, cs', s.happyType))
  {
    var c := Mark(t, IsFalse, reason, message);
    var cs1 := Set(cs, c, now);
    SetFields(cs, c, now);
    assert t != s.happyType ==> AsBefore(cs, cs1, s.happyType);
    if t in s.dependents {
      SecondFields(cs, cs1, Mark(s.happyType, IsFalse, reason, message), now, t);
    }
  }

  /** MarkUnknown: the type as asked; the happy condition False with the given reason when
      another dependent is False and it is not False yet, Unknown for a dependent when none
      is, and otherwise left alone. */
  lemma UnknownFields(s: ConditionSet, cs: seq<Condition>, t: string, reason: string, message: string, now: int)
    requires KindsSorted(cs)
    ensures var cs' := MarkedUnknown(s, cs, t, reason, message, now);
      && (forall k | k != t && k != s.happyType :: AsBefore(cs, cs', k))
      && (t != s.happyType ==> Shows(cs, cs', t, IsUnknown, reason, message, now))
      && (if OtherFalse(s, cs, t) then
            if t != s.happyType && StatusOf(cs, s.happyType) == Some(IsFalse) then AsBefore(cs, cs', s.happyType)
            else Shows(cs, cs', s.happyType, IsFalse, reason, message, now)
          else if t in s.dependents || t == s.happyType then Shows(cs, cs', s.happyType, IsUnknown, reason, message, now)
          else AsBefore(cs, cs', s.happyType))
  {
    var c := Mark(t, IsUnknown, reason, message);
    var cs1 := Set(cs, c, now);
    SetFields(cs, c, now);
    StatusesKept(cs, cs1, t, s.dependents);
    FalseNow(s, cs, cs1, t);
    assert t != s.happyType ==> AsBefore(cs, cs1, s.happyType);
    var cs' := MarkedUnknown(s, cs, t, reason, message, now);
    if SomeFalse(cs1, s.dependents) && StatusOf(cs1, s.happyType) != Some(IsFalse) {
      SecondFields(cs, cs1, Mark(s.happyType, IsFalse, reason, message), now, t);
    } else if !SomeFalse(cs1, s.dependents) && t in s.dependents {
      SecondFields(cs, cs1, Mark(s.happyType, IsUnknown, reason, message), now, t);
    }
  }

  lemma FalseNow(s: ConditionSet, cs: seq<Condition>, cs1: seq<Condition>, t: string)
    requires forall d | d in s.dependents && d != t :: StatusOf(cs1, d) == StatusOf(cs, d)
    requires StatusOf(cs1, t) == Some(IsUnknown)
    ensures SomeFalse(cs1, s.dependents) <==> OtherFalse(s, cs, t)
  {
    if OtherFalse(s, cs, t) {
      var d :| d in s.dependents && d != t && StatusOf(cs, d) == Some(IsFalse);
      assert StatusOf(cs1, d) == Some(IsFalse);
    }
  }

  /** A second condition set after the first, of type t. */
  lemma SecondFields(cs: seq<Condition>, cs1: seq<Condition>, c: Condition, now: int, t: string)
    requires KindsSorted(cs1) && c.generation == 0
    requires forall k | k != t :: AsBefore(cs, cs1, k)
    requires Find(cs1, t).Some? && (Find(cs1, t) == Find(cs, t) || Find(cs1, t).value.transition == now)
    ensures var cs' := Set(cs1, c, now);
      && Shows(cs, cs', c.kind, c.status, c.reason, c.message, now)
      && (forall k | k != t && k != c.kind :: AsBefore(cs, cs', k))
      && (t != c.kind ==> AsBefore(cs1, cs', t))
  {
    var cs' := Set(cs1, c, now);
    SetAt(cs1, c, now, c.kind);
    SetAt(cs1, c, now, t);
    assert c.kind != t ==> AsBefore(cs, cs1, c.kind);
    forall k | k != t && k != c.kind ensures AsBefore(cs, cs', k) {
      SetAt(cs1, c, now, k);
      assert AsBefore(cs, cs1, k);
    }
  }

  /** ClearCondition: gone unless terminal, everything else as before. */
  lemma ClearFields(s: ConditionSet, cs: seq<Condition>, t: string)
    requires KindsSorted(cs)
    ensures var cs' := Cleared(s, cs, t);
      && (forall k | k != t :: AsBefore(cs, cs', k))
      && (if t in s.dependents || t == s.happyType then AsBefore(cs, cs', t) else Find(cs', t).None?)
  {
    ClearedFinds(cs, t);
    DropFinds(cs, t);
  }

  /** InitializeConditions: what is missing says so and nothing more. */
  lemma InitialFields(s: ConditionSet, cs: seq<Condition>, now: int)
    requires KindsSorted(cs)
    ensures var cs' := Initialized(s, cs, now);
      && (Find(cs, s.happyType).None? ==> Find(cs', s.happyType) == Some(Condition(s.happyType, IsUnknown, "Initializing", "", 0, now)))
      && forall d | d in s.dependents && Find(cs, d).None? ::
           Find(cs', d) == Some(Condition(d, if StatusOf(cs, s.happyType) == Some(IsTrue) then IsTrue else IsUnknown,
                                          "Initializing", "", 0, now))
  {
    var first := Mark(s.happyType, IsUnknown, "Initializing", "");
    InitializedOne(cs, s.happyType, IsUnknown, now);
    var cs1 := if Find(cs, s.happyType).Some? then cs else Set(cs, first, now);
    var status := if StatusOf(cs1, s.happyType) == Some(IsTrue) then IsTrue else IsUnknown;
    InitializedEachKeeps(cs1, s.dependents, status, now);
    var cs' := Initialized(s, cs, now);
    assert Find(cs', s.happyType) == FindInitialized(cs1, s.dependents, status, now, s.happyType);
    forall d | d in s.dependents && Find(cs, d).None?
      ensures Find(cs', d) == Some(Condition(d, status, "Initializing", "", 0, now))
    {
      assert Find(cs', d) == FindInitialized(cs1, s.dependents, status, now, d);
    }
  }
}
