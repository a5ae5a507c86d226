/** apis/conditionset.go: a list of conditions sorted by type, with one condition that
    summarizes the dependents. */
module Conditions {
  import opened Basics

  datatype Status = IsTrue | IsFalse | IsUnknown | IsOther(text: string)

  datatype Condition = Condition(
    kind: string,
    status: Status,
    reason: string,
    message: string,
    generation: int,
    transition: int)

  datatype RawSet = RawSet(happyType: string, happyReason: string, dependents: seq<string>)

  ghost predicate Deduplicated(s: RawSet) {
    && s.happyType !in s.dependents
    && forall i, j | 0 <= i < j < |s.dependents| :: s.dependents[i] != s.dependents[j]
  }

  type ConditionSet = s: RawSet | Deduplicated(s) witness RawSet("Ready", "Ready", [])

  // ---------- lists of conditions

  predicate SameButTime(a: Condition, b: Condition) {
    a.(transition := b.transition) == b
  }

  ghost predicate KindsSorted(cs: seq<Condition>) {
    forall i, j | 0 <= i < j < |cs| :: Less(cs[i].kind, cs[j].kind)
  }

  function Find(cs: seq<Condition>, t: string): (r: Option<Condition>)
    ensures r.Some? ==> r.value in cs && r.value.kind == t
    ensures r.None? <==> forall c | c in cs :: c.kind != t
  {
    if |cs| == 0 then None
    else if cs[0].kind == t then Some(cs[0])
    else
      assert cs == [cs[0]] + cs[1..];
      Find(cs[1..], t)
  }

  function Drop(cs: seq<Condition>, t: string): seq<Condition> {
    if |cs| == 0 then []
    else
      var last := cs[|cs| - 1];
      Drop(cs[..|cs| - 1], t) + (if last.kind == t then [] else [last])
  }

  /** c in its place in a sorted list, instead of the one of its type if there is one. */
  function Put(cs: seq<Condition>, c: Condition): seq<Condition> {
    if |cs| == 0 then [c]
    else if Less(c.kind, cs[0].kind) then [c] + cs
    else if c.kind == cs[0].kind then [c] + cs[1..]
    else [cs[0]] + Put(cs[1..], c)
  }

  lemma TailSorted(cs: seq<Condition>)
    requires KindsSorted(cs) && |cs| > 0
    ensures KindsSorted(cs[1..])
    ensures forall c | c in cs[1..] :: Less(cs[0].kind, c.kind) && c.kind != cs[0].kind
  {
    forall c | c in cs[1..] ensures Less(cs[0].kind, c.kind) && c.kind != cs[0].kind {
      var k :| 0 <= k < |cs[1..]| && cs[1..][k] == c;
      assert cs[k + 1] == c;
      LessAsymmetric(cs[0].kind, c.kind);
    }
  }

  lemma ConsKindsSorted(c: Condition, tail: seq<Condition>)
    requires KindsSorted(tail) && forall d | d in tail :: Less(c.kind, d.kind)
    ensures KindsSorted([c] + tail)
  {
    assert forall j | 0 <= j < |tail| :: tail[j] in tail;
  }

  lemma HeadBelow(cs: seq<Condition>, t: string)
    requires KindsSorted(cs) && |cs| > 0 && Less(t, cs[0].kind)
    ensures forall d | d in cs :: Less(t, d.kind) && d.kind != t
  {
    TailSorted(cs);
    forall d | d in cs ensures Less(t, d.kind) && d.kind != t {
      if d != cs[0] {
        assert d in cs[1..];
        LessTransitive(t, cs[0].kind, d.kind);
      }
      LessAsymmetric(t, d.kind);
    }
  }

  lemma {:induction false} PutFinds(cs: seq<Condition>, c: Condition)
    requires KindsSorted(cs)
    ensures KindsSorted(Put(cs, c))
    ensures forall d | d in Put(cs, c) :: d == c || d in cs
    ensures forall t :: Find(Put(cs, c), t) == if t == c.kind then Some(c) else Find(cs, t)
  {
    if |cs| > 0 {
      TailSorted(cs);
      LessTotal(c.kind, cs[0].kind);
      if Less(c.kind, cs[0].kind) {
        HeadBelow(cs, c.kind);
        ConsKindsSorted(c, cs);
      } else if c.kind == cs[0].kind {
        ConsKindsSorted(c, cs[1..]);
      } else {
        PutFinds(cs[1..], c);
        ConsKindsSorted(cs[0], Put(cs[1..], c));
      }
    }
  }

  lemma {:induction false} DropFinds(cs: seq<Condition>, t: string)
    ensures forall d :: d in Drop(cs, t) <==> d in cs && d.kind != t
    ensures KindsSorted(cs) ==> KindsSorted(Drop(cs, t))
  {
    if |cs| > 0 {
      var init, last := cs[..|cs| - 1], cs[|cs| - 1];
      assert cs == init + [last];
      DropFinds(init, t);
      if KindsSorted(cs) {
        var kept := Drop(init, t);
        forall i | 0 <= i < |kept| ensures Less(kept[i].kind, last.kind) {
          assert kept[i] in init;
          var k :| 0 <= k < |init| && init[k] == kept[i];
          assert cs[k] == kept[i];
        }
      }
    }
  }

  lemma BothEmpty(a: seq<Condition>, b: seq<Condition>)
    requires forall t :: Find(a, t) == Find(b, t)
    ensures |a| == 0 <==> |b| == 0
  {
    if |a| > 0 { assert Find(a, a[0].kind).Some?; }
    if |b| > 0 { assert Find(b, b[0].kind).Some?; }
  }

  /** A sorted list is determined by what can be found in it. */
  lemma {:induction false} SameFinds(a: seq<Condition>, b: seq<Condition>)
    requires KindsSorted(a) && KindsSorted(b)
    requires forall t :: Find(a, t) == Find(b, t)
    ensures a == b
  {
    if |a| > 0 && |b| > 0 {
      TailSorted(a);
      TailSorted(b);
      var x, y := a[0], b[0];
      assert Find(a, x.kind) == Some(x) && Find(b, y.kind) == Some(y);
      LessTotal(x.kind, y.kind);
      if Less(x.kind, y.kind) { HeadBelow(b, x.kind); }
      if Less(y.kind, x.kind) { HeadBelow(a, y.kind); }
      forall t ensures Find(a[1..], t) == Find(b[1..], t) {
        assert Find(a, t) == Find(b, t);
      }
      SameFinds(a[1..], b[1..]);
      assert a == [x] + a[1..] && b == [y] + b[1..];
    } else {
      BothEmpty(a, b);
    }
  }

  lemma {:induction false} MembersFound(cs: seq<Condition>)
    requires KindsSorted(cs)
    ensures forall c | c in cs :: Find(cs, c.kind) == Some(c)
  {
    if |cs| > 0 {
      TailSorted(cs);
      MembersFound(cs[1..]);
      assert cs == [cs[0]] + cs[1..];
    }
  }

  // ---------- the operations on a sorted list

  /** A condition that would only get a new transition time is left alone. */
  function Set(cs: seq<Condition>, c: Condition, now: int): seq<Condition> {
    var was := Find(cs, c.kind);
    if was.Some? && SameButTime(c, was.value) then cs else Put(cs, c.(transition := now))
  }

  function StatusOf(cs: seq<Condition>, t: string): Option<Status> {
    var c := Find(cs, t);
    if c.None? then None else Some(c.value.status)
  }

  predicate AllTrue(cs: seq<Condition>, dependents: seq<string>) {
    forall d | d in dependents :: StatusOf(cs, d) == Some(IsTrue)
  }

  predicate SomeFalse(cs: seq<Condition>, dependents: seq<string>) {
    exists d | d in dependents :: StatusOf(cs, d) == Some(IsFalse)
  }

  function Mark(t: string, status: Status, reason: string, message: string): Condition {
    Condition(t, status, reason, message, 0, 0)
  }

  function MarkedTrue(s: ConditionSet, cs: seq<Condition>, t: string, reason: string, message: string, now: int): seq<Condition> {
    var cs1 := Set(cs, Mark(t, IsTrue, reason, message), now);
    if |s.dependents| == 0 || !AllTrue(cs1, s.dependents) then cs1
    else Set(cs1, Mark(s.happyType, IsTrue, s.happyReason, ""), now)
  }

  function MarkedFalse(s: ConditionSet, cs: seq<Condition>, t: string, reason: string, message: string, now: int): seq<Condition> {
    var cs1 := Set(cs, Mark(t, IsFalse, reason, message), now);
    if t in s.dependents then Set(cs1, Mark(s.happyType, IsFalse, reason, message), now) else cs1
  }

  function MarkedUnknown(s: ConditionSet, cs: seq<Condition>, t: string, reason: string, message: string, now: int): seq<Condition> {
    var cs1 := Set(cs, Mark(t, IsUnknown, reason, message), now);
    if SomeFalse(cs1, s.dependents) then
      if StatusOf(cs1, s.happyType) == Some(IsFalse) then cs1
      else MarkedFalse(s, cs1, s.happyType, reason, message, now)
    else if t in s.dependents then Set(cs1, Mark(s.happyType, IsUnknown, reason, message), now)
    else cs1
  }

  predicate Terminal(s: ConditionSet, t: string) {
    t in s.dependents || t == s.happyType
  }

  function Cleared(s: ConditionSet, cs: seq<Condition>, t: string): seq<Condition> {
    if Terminal(s, t) || Find(cs, t).None? then cs else Drop(cs, t)
  }

  function InitializedEach(cs: seq<Condition>, dependents: seq<string>, status: Status, now: int): seq<Condition>
    decreases |dependents|
  {
    if |dependents| == 0 then cs
    else
      var t := dependents[0];
      var cs1 := if Find(cs, t).Some? then cs else Set(cs, Mark(t, status, "Initializing", ""), now);
      InitializedEach(cs1, dependents[1..], status, now)
  }

  function Initialized(s: ConditionSet, cs: seq<Condition>, now: int): seq<Condition> {
    var cs1 := if Find(cs, s.happyType).Some? then cs
               else Set(cs, Mark(s.happyType, IsUnknown, "Initializing", ""), now);
    InitializedEach(cs1, s.dependents, if StatusOf(cs1, s.happyType) == Some(IsTrue) then IsTrue else IsUnknown, now)
  }

  // ---------- the code

  function Unique(happyType: string, dependents: seq<string>): seq<string> {
    if |dependents| == 0 then []
    else
      var rest := Unique(happyType, dependents[..|dependents| - 1]);
      var d := dependents[|dependents| - 1];
      if d == happyType || d in rest then rest else rest + [d]
  }

  method NewConditionSet(happyType: string, happyReason: string, dependents: seq<string>) returns (s: ConditionSet)
    ensures s == RawSet(happyType, happyReason, Unique(happyType, dependents))
    ensures forall d :: d in s.dependents <==> d in dependents && d != happyType
  {
    var deps: seq<string> := [];
    for i := 0 to |dependents|
      invariant deps == Unique(happyType, dependents[..i])
      invariant forall d :: d in deps <==> d in dependents[..i] && d != happyType
      invariant forall a, b | 0 <= a < b < |deps| :: deps[a] != deps[b]
    {
      assert dependents[..i + 1][..i] == dependents[..i];
      assert dependents[..i + 1] == dependents[..i] + [dependents[i]];
      var d := dependents[i];
      if d == happyType || d in deps {
        continue;
      }
      deps := deps + [d];
    }
    assert dependents[..|dependents|] == dependents;
    return RawSet(happyType, happyReason, deps);
  }

  predicate NotBelow(a: Condition, b: Condition) {
    !Less(b.kind, a.kind)
  }

  ghost predicate Ordered(cs: seq<Condition>) {
    forall i, j | 0 <= i < j < |cs| :: NotBelow(cs[i], cs[j])
  }

  /** sort.Slice: some ordered arrangement of the same conditions. */
  method SortByKind(xs: seq<Condition>) returns (r: seq<Condition>)
    ensures multiset(r) == multiset(xs) && Ordered(r)
  {
    r := [];
    for i := 0 to |xs|
      invariant multiset(r) == multiset(xs[..i]) && Ordered(r)
    {
      var k := 0;
      while k < |r| && NotBelow(r[k], xs[i])
        invariant 0 <= k <= |r| && forall j | 0 <= j < k :: NotBelow(r[j], xs[i])
      {
        k := k + 1;
      }
      OrderedInsert(r, k, xs[i]);
      assert xs[..i + 1] == xs[..i] + [xs[i]];
      assert r == r[..k] + r[k..];
      r := r[..k] + [xs[i]] + r[k..];
    }
    assert xs[..|xs|] == xs;
  }

  lemma OrderedInsert(r: seq<Condition>, k: nat, x: Condition)
    requires Ordered(r) && k <= |r|
    requires forall j | 0 <= j < k :: NotBelow(r[j], x)
    requires k < |r| ==> !NotBelow(r[k], x)
    ensures Ordered(r[..k] + [x] + r[k..])
  {
    forall j | k <= j < |r| ensures NotBelow(x, r[j]) {
      if Less(r[j].kind, x.kind) {
        LessAsymmetric(x.kind, r[k].kind);
        LessTransitive(r[j].kind, x.kind, r[k].kind);
        assert NotBelow(r[k], r[j]) || j == k;
      }
    }
  }

  lemma {:induction false} OrderedUnique(a: seq<Condition>, b: seq<Condition>)
    requires KindsSorted(a) && Ordered(b) && multiset(a) == multiset(b)
    ensures a == b
  {
    assert |a| == |multiset(a)| == |b|;
    if |a| > 0 {
      SameHead(a, b);
      SameTails(a, b);
      TailSorted(a);
      OrderedUnique(a[1..], b[1..]);
      assert a == [a[0]] + a[1..] && b == [b[0]] + b[1..];
    }
  }

  lemma SameHead(a: seq<Condition>, b: seq<Condition>)
    requires KindsSorted(a) && Ordered(b) && multiset(a) == multiset(b) && |a| > 0 && |b| > 0
    ensures a[0] == b[0]
  {
    TailSorted(a);
    assert a == [a[0]] + a[1..];
    assert a[0] in multiset(b) && b[0] in multiset(a);
    var j :| 0 <= j < |b| && b[j] == a[0];
    assert j > 0 ==> NotBelow(b[0], b[j]);
  }

  lemma SameTails(a: seq<Condition>, b: seq<Condition>)
    requires multiset(a) == multiset(b) && |a| > 0 && |b| > 0 && a[0] == b[0]
    ensures multiset(a[1..]) == multiset(b[1..])
  {
    assert a == [a[0]] + a[1..] && b == [b[0]] + b[1..];
    assert multiset(a[1..]) == multiset(a) - multiset{a[0]};
    assert multiset(b[1..]) == multiset(b) - multiset{b[0]};
  }

  lemma {:induction false} DropFront(head: Condition, tail: seq<Condition>, t: string)
    ensures Drop([head] + tail, t) == (if head.kind == t then [] else [head]) + Drop(tail, t)
  {
    if |tail| > 0 {
      assert ([head] + tail)[..|tail|] == [head] + tail[..|tail| - 1];
      DropFront(head, tail[..|tail| - 1], t);
    }
  }

  lemma DropAbsent(cs: seq<Condition>, t: string)
    requires forall c | c in cs :: c.kind != t
    ensures Drop(cs, t) == cs
  {
    assert forall i | 0 <= i < |cs| :: cs[i] in cs;
    DropNowhere(cs, t);
  }

  lemma {:induction false} DropNowhere(cs: seq<Condition>, t: string)
    requires forall i | 0 <= i < |cs| :: cs[i].kind != t
    ensures Drop(cs, t) == cs
  {
    if |cs| > 0 {
      DropNowhere(cs[..|cs| - 1], t);
      assert cs == cs[..|cs| - 1] + [cs[|cs| - 1]];
    }
  }

  lemma {:induction false} PutContents(cs: seq<Condition>, c: Condition)
    requires KindsSorted(cs)
    ensures multiset(Put(cs, c)) == multiset(Drop(cs, c.kind)) + multiset{c}
  {
    if |cs| > 0 {
      var head, tail := cs[0], cs[1..];
      TailSorted(cs);
      assert cs == [head] + tail;
      if Less(c.kind, head.kind) {
        HeadBelow(cs, c.kind);
        DropAbsent(cs, c.kind);
      } else if c.kind == head.kind {
        DropHead(head, tail, c.kind);
      } else {
        DropFront(head, tail, c.kind);
        PutContents(tail, c);
        ConsContents(head, Put(tail, c), Drop(tail, c.kind), c);
      }
    }
  }

  lemma DropHead(head: Condition, tail: seq<Condition>, t: string)
    requires head.kind == t && forall c | c in tail :: c.kind != t
    ensures Drop([head] + tail, t) == tail
  {
    DropFront(head, tail, t);
    DropAbsent(tail, t);
    assert [] + tail == tail;
  }

  lemma ConsContents(head: Condition, xs: seq<Condition>, ys: seq<Condition>, c: Condition)
    requires multiset(xs) == multiset(ys) + multiset{c}
    ensures multiset([head] + xs) == multiset([head] + ys) + multiset{c}
  {
  }

  // ---------- the operations on any list

  /** cs' is what storing c may leave of cs, sorted or not. */
  ghost predicate Stores(cs: seq<Condition>, c: Condition, now: int, cs': seq<Condition>) {
    if exists x | x in cs :: x.kind == c.kind && SameButTime(c, x) then cs' == cs
    else Ordered(cs') && multiset(cs') == multiset(Drop(cs, c.kind)) + multiset{c.(transition := now)}
  }

  ghost predicate StoresTrue(s: ConditionSet, cs: seq<Condition>, t: string, reason: string, message: string, now: int, cs': seq<Condition>) {
    exists cs1 :: Stores(cs, Mark(t, IsTrue, reason, message), now, cs1) &&
      if |s.dependents| == 0 || !AllTrue(cs1, s.dependents) then cs' == cs1
      else Stores(cs1, Mark(s.happyType, IsTrue, s.happyReason, ""), now, cs')
  }

  ghost predicate StoresFalse(s: ConditionSet, cs: seq<Condition>, t: string, reason: string, message: string, now: int, cs': seq<Condition>) {
    exists cs1 :: Stores(cs, Mark(t, IsFalse, reason, message), now, cs1) &&
      if t in s.dependents then Stores(cs1, Mark(s.happyType, IsFalse, reason, message), now, cs') else cs' == cs1
  }

  ghost predicate StoresUnknown(s: ConditionSet, cs: seq<Condition>, t: string, reason: string, message: string, now: int, cs': seq<Condition>) {
    exists cs1 :: Stores(cs, Mark(t, IsUnknown, reason, message), now, cs1) &&
      if SomeFalse(cs1, s.dependents) then
        if StatusOf(cs1, s.happyType) == Some(IsFalse) then cs' == cs1
        else Stores(cs1, Mark(s.happyType, IsFalse, reason, message), now, cs')
      else if t in s.dependents then Stores(cs1, Mark(s.happyType, IsUnknown, reason, message), now, cs')
      else cs' == cs1
  }

  ghost predicate StoresMissing(cs: seq<Condition>, t: string, status: Status, now: int, cs': seq<Condition>) {
    if Find(cs, t).Some? then cs' == cs else Stores(cs, Mark(t, status, "Initializing", ""), now, cs')
  }

  /** lists are the stages of initializing the types one after the other. */
  ghost predicate Stages(lists: seq<seq<Condition>>, types: seq<string>, status: Status, now: int) {
    && |lists| == |types| + 1
    && forall i | 0 <= i < |types| :: StoresMissing(lists[i], types[i], status, now, lists[i + 1])
  }

  lemma StagesMore(lists: seq<seq<Condition>>, types: seq<string>, status: Status, now: int, t: string, cs: seq<Condition>)
    returns (more: seq<seq<Condition>>)
    requires Stages(lists, types, status, now) && StoresMissing(lists[|types|], t, status, now, cs)
    ensures Stages(more, types + [t], status, now) && more[0] == lists[0] && more[|types| + 1] == cs
  {
    more := lists + [cs];
    forall i | 0 <= i < |types + [t]| ensures StoresMissing(more[i], (types + [t])[i], status, now, more[i + 1]) {
      if i < |types| { assert StoresMissing(lists[i], types[i], status, now, lists[i + 1]); }
    }
  }

  ghost predicate StoresEach(cs: seq<Condition>, types: seq<string>, status: Status, now: int, cs': seq<Condition>) {
    exists lists :: Stages(lists, types, status, now) && lists[0] == cs && lists[|types|] == cs'
  }

  ghost predicate StoresInitial(s: ConditionSet, cs: seq<Condition>, now: int, cs': seq<Condition>) {
    exists cs1 :: StoresMissing(cs, s.happyType, IsUnknown, now, cs1)
      && StoresEach(cs1, s.dependents, if StatusOf(cs, s.happyType) == Some(IsTrue) then IsTrue else IsUnknown, now, cs')
  }

  /** On a sorted list there is only one result. */
  lemma StoresSorted(cs: seq<Condition>, c: Condition, now: int, cs': seq<Condition>)
    requires Stores(cs, c, now, cs')
    ensures KindsSorted(cs) ==> cs' == Set(cs, c, now) && KindsSorted(cs')
  {
    if KindsSorted(cs) {
      MembersFound(cs);
      if !exists x | x in cs :: x.kind == c.kind && SameButTime(c, x) {
        var added := c.(transition := now);
        PutContents(cs, added);
        PutFinds(cs, added);
        OrderedUnique(Put(cs, added), cs');
      }
    }
  }

  lemma TrueStored(s: ConditionSet, cs: seq<Condition>, cs1: seq<Condition>, t: string, reason: string, message: string, now: int, cs': seq<Condition>)
    requires Stores(cs, Mark(t, IsTrue, reason, message), now, cs1)
    requires if |s.dependents| == 0 || !AllTrue(cs1, s.dependents) then cs' == cs1
             else Stores(cs1, Mark(s.happyType, IsTrue, s.happyReason, ""), now, cs')
    ensures StoresTrue(s, cs, t, reason, message, now, cs')
    ensures KindsSorted(cs) ==> cs' == MarkedTrue(s, cs, t, reason, message, now)
  {
    StoresSorted(cs, Mark(t, IsTrue, reason, message), now, cs1);
    if |s.dependents| > 0 && AllTrue(cs1, s.dependents) {
      StoresSorted(cs1, Mark(s.happyType, IsTrue, s.happyReason, ""), now, cs');
    }
  }

  lemma FalseStored(s: ConditionSet, cs: seq<Condition>, cs1: seq<Condition>, t: string, reason: string, message: string, now: int, cs': seq<Condition>)
    requires Stores(cs, Mark(t, IsFalse, reason, message), now, cs1)
    requires if t in s.dependents then Stores(cs1, Mark(s.happyType, IsFalse, reason, message), now, cs') else cs' == cs1
    ensures StoresFalse(s, cs, t, reason, message, now, cs')
    ensures KindsSorted(cs) ==> cs' == MarkedFalse(s, cs, t, reason, message, now)
  {
    StoresSorted(cs, Mark(t, IsFalse, reason, message), now, cs1);
    if t in s.dependents { StoresSorted(cs1, Mark(s.happyType, IsFalse, reason, message), now, cs'); }
  }

  lemma OneFalseStored(s: ConditionSet, cs: seq<Condition>, cs1: seq<Condition>, t: string, reason: string, message: string, now: int, cs': seq<Condition>, d: string)
    requires Stores(cs, Mark(t, IsUnknown, reason, message), now, cs1)
    requires d in s.dependents && StatusOf(cs1, d) == Some(IsFalse)
    requires if StatusOf(cs1, s.happyType) == Some(IsFalse) then cs' == cs1
             else StoresFalse(s, cs1, s.happyType, reason, message, now, cs')
    ensures StoresUnknown(s, cs, t, reason, message, now, cs')
    ensures KindsSorted(cs) ==> cs' == MarkedUnknown(s, cs, t, reason, message, now)
  {
    assert SomeFalse(cs1, s.dependents);
    StoresSorted(cs, Mark(t, IsUnknown, reason, message), now, cs1);
    if StatusOf(cs1, s.happyType) != Some(IsFalse) {
      StoresSorted(cs1, Mark(s.happyType, IsFalse, reason, message), now, cs');
    }
  }

  lemma NoneFalseStored(s: ConditionSet, cs: seq<Condition>, cs1: seq<Condition>, t: string, reason: string, message: string, now: int, cs': seq<Condition>)
    requires Stores(cs, Mark(t, IsUnknown, reason, message), now, cs1)
    requires !SomeFalse(cs1, s.dependents)
    requires if t in s.dependents then Stores(cs1, Mark(s.happyType, IsUnknown, reason, message), now, cs') else cs' == cs1
    ensures StoresUnknown(s, cs, t, reason, message, now, cs')
    ensures KindsSorted(cs) ==> cs' == MarkedUnknown(s, cs, t, reason, message, now)
  {
    StoresSorted(cs, Mark(t, IsUnknown, reason, message), now, cs1);
    if t in s.dependents {
      StoresSorted(cs1, Mark(s.happyType, IsUnknown, reason, message), now, cs');
    }
  }

  lemma MissingSorted(cs: seq<Condition>, t: string, status: Status, now: int, cs': seq<Condition>)
    requires StoresMissing(cs, t, status, now, cs') && KindsSorted(cs)
    ensures KindsSorted(cs')
    ensures cs' == if Find(cs, t).Some? then cs else Set(cs, Mark(t, status, "Initializing", ""), now)
  {
    if Find(cs, t).None? { StoresSorted(cs, Mark(t, status, "Initializing", ""), now, cs'); }
  }

  lemma {:induction false} StagesSorted(lists: seq<seq<Condition>>, types: seq<string>, status: Status, now: int)
    requires Stages(lists, types, status, now) && KindsSorted(lists[0])
    ensures lists[|types|] == InitializedEach(lists[0], types, status, now)
    decreases |types|
  {
    if |types| > 0 {
      MissingSorted(lists[0], types[0], status, now, lists[1]);
      assert StoresMissing(lists[0], types[0], status, now, lists[1]);
      forall i | 0 <= i < |types[1..]| ensures StoresMissing(lists[1..][i], types[1..][i], status, now, lists[1..][i + 1]) {
        assert StoresMissing(lists[i + 1], types[i + 1], status, now, lists[i + 2]);
      }
      StagesSorted(lists[1..], types[1..], status, now);
    }
  }

  lemma InitialStored(s: ConditionSet, cs: seq<Condition>, lists: seq<seq<Condition>>, status: Status, now: int)
    requires Stages(lists, s.dependents, status, now) && StoresMissing(cs, s.happyType, IsUnknown, now, lists[0])
    requires status == if StatusOf(cs, s.happyType) == Some(IsTrue) then IsTrue else IsUnknown
    ensures var cs' := lists[|s.dependents|];
      StoresInitial(s, cs, now, cs') && (KindsSorted(cs) ==> cs' == Initialized(s, cs, now))
  {
    var cs' := lists[|s.dependents|];
    assert StoresEach(lists[0], s.dependents, status, now, cs');
    if KindsSorted(cs) {
      MissingSorted(cs, s.happyType, IsUnknown, now, lists[0]);
      StagesSorted(lists, s.dependents, status, now);
      if Find(cs, s.happyType).None? {
        SetKeepsSorted(cs, Mark(s.happyType, IsUnknown, "Initializing", ""), now);
      }
    }
  }

  class ConditionManager {
    const family: ConditionSet
    const now: int
    var conditions: seq<Condition>

    constructor (s: ConditionSet, now: int, conditions: seq<Condition>)
      ensures family == s && this.now == now && this.conditions == conditions
    {
      family, this.now, this.conditions := s, now, conditions;
    }

    method GetCondition(t: string) returns (r: Option<Condition>)
      ensures r == Find(conditions, t)
    {
      for i := 0 to |conditions|
        invariant Find(conditions, t) == Find(conditions[i..], t)
      {
        assert conditions[i..][1..] == conditions[i + 1..];
        if conditions[i].kind == t {
          return Some(conditions[i]);
        }
      }
      return None;
    }

    /** On any list: unchanged if only a time would change, or else ordered, with wanted
        instead of all conditions of its type. */
    method SetCondition(wanted: Condition)
      modifies this
      ensures Stores(old(conditions), wanted, now, conditions)
      ensures KindsSorted(old(conditions)) ==> conditions == Set(old(conditions), wanted, now)
    {
      var t := wanted.kind;
      var kept: seq<Condition> := [];
      for i := 0 to |conditions|
        invariant conditions == old(conditions)
        invariant kept == Drop(conditions[..i], t)
        invariant forall c | c in conditions[..i] && c.kind == t :: !SameButTime(wanted, c)
      {
        var c := conditions[i];
        assert conditions[..i + 1] == conditions[..i] + [c];
        assert conditions[..i + 1][..i] == conditions[..i];
        if c.kind != t {
          kept := kept + [c];
        } else if SameButTime(wanted, c) {
          StoresSorted(conditions, wanted, now, conditions);
          return;
        }
      }
      assert conditions[..|conditions|] == conditions;
      conditions := SortByKind(kept + [wanted.(transition := now)]);
      StoresSorted(old(conditions), wanted, now, conditions);
    }

    method ClearCondition(t: string) returns (ok: bool)
      modifies this
      ensures ok == !Terminal(family, t)
      ensures KindsSorted(old(conditions)) ==> conditions == Cleared(family, old(conditions), t)
      ensures conditions == old(conditions)
        || (Ordered(conditions) && multiset(conditions) == multiset(Drop(old(conditions), t)))
    {
      if Terminal(family, t) {
        return false;
      }
      var cond := GetCondition(t);
      if cond.None? {
        return true;
      }
      var kept: seq<Condition> := [];
      for i := 0 to |conditions|
        invariant conditions == old(conditions)
        invariant kept == Drop(conditions[..i], t)
      {
        assert conditions[..i + 1] == conditions[..i] + [conditions[i]];
        assert conditions[..i + 1][..i] == conditions[..i];
        if conditions[i].kind != t {
          kept := kept + [conditions[i]];
        }
      }
      assert conditions[..|conditions|] == conditions;
      DropFinds(conditions, t);
      conditions := SortByKind(kept);
      if KindsSorted(old(conditions)) {
        OrderedUnique(kept, conditions);
      }
      return true;
    }

    method MarkTrue(t: string, reason: string, message: string)
      modifies this
      ensures StoresTrue(family, old(conditions), t, reason, message, now, conditions)
      ensures KindsSorted(old(conditions)) ==>
        conditions == MarkedTrue(family, old(conditions), t, reason, message, now)
    {
      SetCondition(Mark(t, IsTrue, reason, message));
      ghost var marked := conditions;
      if |family.dependents| == 0 {
        TrueStored(family, old(conditions), marked, t, reason, message, now, conditions);
        return;
      }
      for i := 0 to |family.dependents|
        invariant conditions == marked
        invariant forall j | 0 <= j < i :: StatusOf(marked, family.dependents[j]) == Some(IsTrue)
      {
        var c := GetCondition(family.dependents[i]);
        if c.None? || !c.value.status.IsTrue? {
          assert family.dependents[i] in family.dependents;
          TrueStored(family, old(conditions), marked, t, reason, message, now, conditions);
          return;
        }
      }
      SetCondition(Mark(family.happyType, IsTrue, family.happyReason, ""));
      TrueStored(family, old(conditions), marked, t, reason, message, now, conditions);
    }

    method MarkFalse(t: string, reason: string, message: string)
      modifies this
      ensures StoresFalse(family, old(conditions), t, reason, message, now, conditions)
      ensures KindsSorted(old(conditions)) ==>
        conditions == MarkedFalse(family, old(conditions), t, reason, message, now)
    {
      var types := [t];
      for i := 0 to |family.dependents|
        invariant types == if t in family.dependents[..i] then [t, family.happyType] else [t]
      {
        assert family.dependents[..i + 1] == family.dependents[..i] + [family.dependents[i]];
        if family.dependents[i] == t {
          types := types + [family.happyType];
        }
      }
      assert family.dependents[..|family.dependents|] == family.dependents;
      ghost var marked := conditions;
      for i := 0 to |types|
        invariant i == 0 ==> conditions == old(conditions)
        invariant i >= 1 ==> Stores(old(conditions), Mark(t, IsFalse, reason, message), now, marked)
        invariant i == 1 ==> conditions == marked
        invariant i == 2 ==> Stores(marked, Mark(family.happyType, IsFalse, reason, message), now, conditions)
      {
        SetCondition(Mark(types[i], IsFalse, reason, message));
        if i == 0 { marked := conditions; }
      }
      FalseStored(family, old(conditions), marked, t, reason, message, now, conditions);
    }

    method MarkUnknown(t: string, reason: string, message: string)
      modifies this
      ensures StoresUnknown(family, old(conditions), t, reason, message, now, conditions)
      ensures KindsSorted(old(conditions)) ==>
        conditions == MarkedUnknown(family, old(conditions), t, reason, message, now)
    {
      SetCondition(Mark(t, IsUnknown, reason, message));
      ghost var marked := conditions;
      var failed, isDependent := CheckDependents(t);
      if failed.Some? {
        var happy := GetCondition(family.happyType);
        if happy.None? || !happy.value.status.IsFalse? {
          MarkFalse(family.happyType, reason, message);
        }
        OneFalseStored(family, old(conditions), marked, t, reason, message, now, conditions, failed.value);
        return;
      }
      if isDependent {
        SetCondition(Mark(family.happyType, IsUnknown, reason, message));
      }
      NoneFalseStored(family, old(conditions), marked, t, reason, message, now, conditions);
    }

    /** The first dependent that is False, or else whether t is a dependent. */
    method CheckDependents(t: string) returns (failed: Option<string>, isDependent: bool)
      ensures failed.Some? ==> failed.value in family.dependents && StatusOf(conditions, failed.value) == Some(IsFalse)
      ensures failed.None? ==> !SomeFalse(conditions, family.dependents) && (isDependent <==> t in family.dependents)
    {
      isDependent := false;
      for i := 0 to |family.dependents|
        invariant forall j | 0 <= j < i :: StatusOf(conditions, family.dependents[j]) != Some(IsFalse)
        invariant isDependent <==> exists j | 0 <= j < i :: family.dependents[j] == t
      {
        var c := GetCondition(family.dependents[i]);
        if c.Some? && c.value.status.IsFalse? {
          return Some(family.dependents[i]), isDependent;
        }
        if family.dependents[i] == t {
          isDependent := true;
        }
      }
      return None, isDependent;
    }

    method InitializeConditions()
      modifies this
      ensures StoresInitial(family, old(conditions), now, conditions)
      ensures KindsSorted(old(conditions)) ==> conditions == Initialized(family, old(conditions), now)
    {
      var happy := GetCondition(family.happyType);
      var status := if happy.Some? && happy.value.status.IsTrue? then IsTrue else IsUnknown;
      assert status == if StatusOf(conditions, family.happyType) == Some(IsTrue) then IsTrue else IsUnknown;
      InitializeCondition(family.happyType, IsUnknown);
      ghost var lists := InitializeDependents(status);
      InitialStored(family, old(conditions), lists, status, now);
    }

    method InitializeDependents(status: Status) returns (ghost lists: seq<seq<Condition>>)
      modifies this
      ensures Stages(lists, family.dependents, status, now)
      ensures lists[0] == old(conditions) && lists[|family.dependents|] == conditions
    {
      lists := [conditions];
      for i := 0 to |family.dependents|
        invariant Stages(lists, family.dependents[..i], status, now)
        invariant lists[0] == old(conditions) && lists[i] == conditions
      {
        InitializeCondition(family.dependents[i], status);
        lists := StagesMore(lists, family.dependents[..i], status, now, family.dependents[i], conditions);
        assert family.dependents[..i + 1] == family.dependents[..i] + [family.dependents[i]];
      }
      assert family.dependents[..|family.dependents|] == family.dependents;
    }

    method InitializeCondition(t: string, status: Status)
      modifies this
      ensures StoresMissing(old(conditions), t, status, now, conditions)
    {
      var c := GetCondition(t);
      if c.None? {
        SetCondition(Mark(t, status, "Initializing", ""));
      }
    }

    method IsHappy() returns (b: bool)
      ensures b <==> StatusOf(conditions, family.happyType) == Some(IsTrue)
    {
      var c := GetCondition(family.happyType);
      return c.Some? && c.value.status.IsTrue?;
    }
  }

  function FindAfter(cs: seq<Condition>, c: Condition, now: int, t: string): Option<Condition> {
    var was := Find(cs, t);
    if t != c.kind || (was.Some? && SameButTime(c, was.value)) then was else Some(c.(transition := now))
  }

  lemma SetKeepsSorted(cs: seq<Condition>, c: Condition, now: int)
    requires KindsSorted(cs)
    ensures KindsSorted(Set(cs, c, now))
    ensures forall t :: Find(Set(cs, c, now), t) == FindAfter(cs, c, now, t)
  {
    PutFinds(cs, c.(transition := now));
  }
}
