/** Helpers shared by every part of the model: optional values, the order Go
    uses on strings, and the list filters the reconcilers are built from. */
module Basics {

  datatype Option<+T> = None | Some(value: T)

  /** Go compares strings byte by byte, which on UTF-8 is code point by code point. */
  predicate Less(a: string, b: string) {
    if |b| == 0 then false
    else if |a| == 0 then true
    else a[0] < b[0] || (a[0] == b[0] && Less(a[1..], b[1..]))
  }

  lemma {:induction false} LessTotal(a: string, b: string)
    ensures a != b ==> Less(a, b) || Less(b, a)
  {
    if |a| > 0 && |b| > 0 && a[0] == b[0] {
      LessTotal(a[1..], b[1..]);
      assert a[1..] == b[1..] ==> a == [a[0]] + a[1..] == [b[0]] + b[1..] == b;
    }
  }

  lemma {:induction false} LessAsymmetric(a: string, b: string)
    requires Less(a, b)
    ensures !Less(b, a) && a != b
  {
    if |a| > 0 && |b| > 0 && a[0] == b[0] {
      LessAsymmetric(a[1..], b[1..]);
    }
  }

  lemma {:induction false} LessTransitive(a: string, b: string, c: string)
    requires Less(a, b) && Less(b, c)
    ensures Less(a, c)
  {
    if |a| > 0 && a[0] == b[0] && b[0] == c[0] {
      LessTransitive(a[1..], b[1..], c[1..]);
    }
  }

  ghost predicate StrictlySorted(s: seq<string>) {
    forall i, j | 0 <= i < j < |s| :: Less(s[i], s[j])
  }

  /** The head of a strictly sorted list is below every other element and occurs once. */
  lemma SortedHead(s: seq<string>)
    requires StrictlySorted(s) && |s| > 0
    ensures StrictlySorted(s[1..])
    ensures forall x | x in s[1..] :: Less(s[0], x) && x != s[0]
  {
    forall x | x in s[1..] ensures Less(s[0], x) && x != s[0] {
      var k :| 0 <= k < |s[1..]| && s[1..][k] == x;
      assert s[k + 1] == x;
      LessAsymmetric(s[0], x);
    }
  }

  lemma SameEmptiness(a: seq<string>, b: seq<string>)
    requires forall x :: x in a <==> x in b
    ensures |a| == 0 <==> |b| == 0
  {
    if |a| > 0 { assert a[0] in a; }
    if |b| > 0 { assert b[0] in b; }
  }

  /** A strictly sorted list is determined by its elements. */
  lemma {:induction false} SortedUnique(a: seq<string>, b: seq<string>)
    requires StrictlySorted(a) && StrictlySorted(b)
    requires forall x :: x in a <==> x in b
    ensures a == b
  {
    SameEmptiness(a, b);
    if |a| > 0 {
      SortedHead(a);
      SortedHead(b);
      assert a == [a[0]] + a[1..] && b == [b[0]] + b[1..];
      if a[0] != b[0] {
        assert a[0] in b && b[0] in a;
        assert a[0] in b[1..] && b[0] in a[1..];
        LessAsymmetric(a[0], b[0]);
        assert false;
      }
      forall x ensures x in a[1..] <==> x in b[1..] {
        assert x in a[1..] ==> x in a;
        assert x in b[1..] ==> x in b;
      }
      SortedUnique(a[1..], b[1..]);
    }
  }

  /** s with every occurrence of x removed. */
  function Without(s: seq<string>, x: string): (r: seq<string>)
    ensures forall y :: y in r <==> y in s && y != x
  {
    if |s| == 0 then []
    else Without(s[..|s| - 1], x) + (if s[|s| - 1] == x then [] else [s[|s| - 1]])
  }

  /** The elements of s that lie in keep, in order. */
  function Project(s: seq<string>, keep: set<string>): (r: seq<string>)
    ensures forall y :: y in r <==> y in s && y in keep
  {
    if |s| == 0 then []
    else Project(s[..|s| - 1], keep) + (if s[|s| - 1] in keep then [s[|s| - 1]] else [])
  }

  lemma WithoutAppend(s: seq<string>, x: string, y: string)
    ensures Without(s + [y], x) == Without(s, x) + (if y == x then [] else [y])
  {
    assert (s + [y])[..|s|] == s;
  }

  lemma ProjectAppend(s: seq<string>, y: string, keep: set<string>)
    ensures Project(s + [y], keep) == Project(s, keep) + (if y in keep then [y] else [])
  {
    assert (s + [y])[..|s|] == s;
  }

  lemma {:induction false} WithoutAbsent(s: seq<string>, x: string)
    requires x !in s
    ensures Without(s, x) == s
  {
    if |s| > 0 {
      WithoutAbsent(s[..|s| - 1], x);
      assert s == s[..|s| - 1] + [s[|s| - 1]];
    }
  }

  /** Removing an element commutes with projecting. */
  lemma {:induction false} ProjectWithout(s: seq<string>, x: string, keep: set<string>)
    ensures Project(Without(s, x), keep) == Without(Project(s, keep), x)
  {
    if |s| > 0 {
      var init, last := s[..|s| - 1], s[|s| - 1];
      ProjectWithout(init, x, keep);
      ProjectAppend(Without(init, x), last, keep);
      WithoutAppend(Project(init, keep), x, last);
      assert Without(init, x) + [] == Without(init, x);
      assert Project(init, keep) + [] == Project(init, keep);
    }
  }

  /** x put into its place, unless it is there. */
  function Insert(list: seq<string>, x: string): (r: seq<string>)
    ensures forall y :: y in r <==> y == x || y in list
  {
    if |list| == 0 then [x]
    else if Less(x, list[0]) then [x] + list
    else if x == list[0] then list
    else
      assert list == [list[0]] + list[1..];
      [list[0]] + Insert(list[1..], x)
  }

  lemma {:induction false} InsertSorted(list: seq<string>, x: string)
    requires StrictlySorted(list)
    ensures StrictlySorted(Insert(list, x))
  {
    if |list| > 0 {
      SortedHead(list);
      LessTotal(x, list[0]);
      if Less(x, list[0]) {
        forall j | 0 <= j < |list| ensures Less(x, list[j]) {
          if j > 0 { LessTransitive(x, list[0], list[j]); }
        }
      } else if x != list[0] {
        InsertSorted(list[1..], x);
        ConsSorted(list[0], Insert(list[1..], x));
      }
    }
  }

  lemma ConsSorted(head: string, tail: seq<string>)
    requires StrictlySorted(tail) && forall y | y in tail :: Less(head, y)
    ensures StrictlySorted([head] + tail)
  {
    assert forall j | 0 <= j < |tail| :: tail[j] in tail;
  }

  /** The elements of a set in order. */
  ghost function Sorted(s: set<string>): (r: seq<string>)
    ensures StrictlySorted(r) && forall x :: x in r <==> x in s
  {
    if s == {} then []
    else
      var x :| x in s;
      var rest := Sorted(s - {x});
      InsertSorted(rest, x);
      Insert(rest, x)
  }

  method ListSorted(s: set<string>) returns (list: seq<string>)
    ensures list == Sorted(s)
  {
    list := [];
    var todo := s;
    while todo != {}
      invariant StrictlySorted(list)
      invariant todo <= s && forall x :: x in list <==> x in s && x !in todo
      decreases |todo|
    {
      var x :| x in todo;
      InsertSorted(list, x);
      list := Insert(list, x);
      todo := todo - {x};
    }
    SortedUnique(list, Sorted(s));
  }
}
