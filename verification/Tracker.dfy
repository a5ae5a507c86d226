/** tracker/enqueue.go: who observes what, kept in two nested maps whose expired entries
    are dropped only when a lookup meets them. */
module Tracker {
  import opened Basics

  datatype Key = Key(namespace: string, name: string)

  type Labels = map<string, string>

  /** Selectors are represented by their text: equal text selects the same labels. */
  datatype Reference = Reference(
    apiGroup: string,
    kind: string,
    namespace: string,
    name: string,
    selector: Option<string>)

  datatype Tracked = Tracked(apiGroup: string, kind: string, namespace: string, name: string, labels: Labels)

  datatype MatcherKey = MatcherKey(selector: string, namespace: string)

  datatype Matcher = Matcher(selector: string, expiry: int)

  /** The checks of the validation library on kinds, subdomains and labels, and label
      selector matching. */
  datatype Rules = Rules(
    lease: int,
    isIdentifier: string -> bool,
    isSubdomain: string -> bool,
    isLabel: string -> bool,
    selects: (string, Labels) -> bool)

  type ExactSet = map<Key, int>
  type Matchers = map<MatcherKey, Matcher>
  type InexactSet = map<Key, Matchers>

  datatype Index = Index(exact: map<Reference, ExactSet>, inexact: map<Reference, InexactSet>)

  // ---------- specification of the two operations

  predicate Valid(rules: Rules, ref: Reference) {
    && rules.isIdentifier(ref.kind)
    && (ref.apiGroup == "" || rules.isSubdomain(ref.apiGroup))
    && (ref.namespace == "" || rules.isLabel(ref.namespace))
    && (ref.selector.Some? <==> ref.name == "")
    && (ref.name == "" || rules.isSubdomain(ref.name))
  }

  function PartialOf(ref: Reference): Reference {
    Reference(ref.apiGroup, ref.kind, "", "", None)
  }

  function NameOf(obj: Tracked): Reference {
    Reference(obj.apiGroup, obj.kind, obj.namespace, obj.name, None)
  }

  function GetOr<K, V>(m: map<K, V>, k: K, otherwise: V): V {
    if k in m then m[k] else otherwise
  }

  function Tracking(rules: Rules, ix: Index, ref: Reference, key: Key, now: int): Index {
    if ref.selector.None? then
      ix.(exact := ix.exact[ref := GetOr(ix.exact, ref, map[])[key := now + rules.lease]])
    else
      var ws := GetOr(ix.inexact, PartialOf(ref), map[]);
      var ms := GetOr(ws, key, map[])[MatcherKey(ref.selector.value, ref.namespace)
                                      := Matcher(ref.selector.value, now + rules.lease)];
      ix.(inexact := ix.inexact[PartialOf(ref) := ws[key := ms]])
  }

  function LiveExact(s: ExactSet, now: int): ExactSet {
    map k | k in s && now <= s[k] :: s[k]
  }

  function LiveMatchers(ms: Matchers, now: int): Matchers {
    map k | k in ms && now <= ms[k].expiry :: ms[k]
  }

  function LiveInexact(ws: InexactSet, now: int): InexactSet {
    map k | k in ws && LiveMatchers(ws[k], now) != map[] :: LiveMatchers(ws[k], now)
  }

  function PutBack<V(==)>(m: map<Reference, map<Key, V>>, ref: Reference, s: map<Key, V>): map<Reference, map<Key, V>> {
    if ref !in m then m else if s == map[] then m - {ref} else m[ref := s]
  }

  /** What a lookup leaves behind. */
  function Pruned(ix: Index, obj: Tracked, now: int): Index {
    var ref, partial := NameOf(obj), PartialOf(NameOf(obj));
    Index(PutBack(ix.exact, ref, LiveExact(GetOr(ix.exact, ref, map[]), now)),
          PutBack(ix.inexact, partial, LiveInexact(GetOr(ix.inexact, partial, map[]), now)))
  }

  predicate Hits(rules: Rules, k: MatcherKey, m: Matcher, obj: Tracked) {
    (k.namespace == "" || k.namespace == obj.namespace) && rules.selects(m.selector, obj.labels)
  }

  predicate Hit(rules: Rules, ms: Matchers, obj: Tracked, now: int) {
    exists k | k in ms :: now <= ms[k].expiry && Hits(rules, k, ms[k], obj)
  }

  /** What a lookup answers. */
  function Answer(rules: Rules, ix: Index, obj: Tracked, now: int): set<Key> {
    var ws := GetOr(ix.inexact, PartialOf(NameOf(obj)), map[]);
    LiveExact(GetOr(ix.exact, NameOf(obj), map[]), now).Keys
    + (set k | k in ws && Hit(rules, ws[k], obj, now))
  }

  // ---------- the code

  method ScanExact(s: ExactSet, now: int) returns (kept: ExactSet, keys: set<Key>)
    ensures kept == LiveExact(s, now) && keys == kept.Keys
  {
    kept, keys := s, {};
    var todo := s.Keys;
    while todo != {}
      invariant todo <= s.Keys
      invariant forall k :: k in keys <==> k in s && k !in todo && now <= s[k]
      invariant forall k :: k in kept <==> k in s && (k in todo || now <= s[k])
      invariant forall k | k in kept :: kept[k] == s[k]
      decreases |todo|
    {
      var k :| k in todo;
      todo := todo - {k};
      if now > kept[k] {
        kept := kept - {k};
        continue;
      }
      keys := keys + {k};
    }
  }

  method ScanMatchers(rules: Rules, ms: Matchers, obj: Tracked, now: int) returns (kept: Matchers, hit: bool)
    ensures kept == LiveMatchers(ms, now) && hit == Hit(rules, ms, obj, now)
  {
    kept, hit := ms, false;
    var todo := ms.Keys;
    while todo != {}
      invariant todo <= ms.Keys
      invariant hit <==> exists k | k in ms && k !in todo :: now <= ms[k].expiry && Hits(rules, k, ms[k], obj)
      invariant forall k :: k in kept <==> k in ms && (k in todo || now <= ms[k].expiry)
      invariant forall k | k in kept :: kept[k] == ms[k]
      decreases |todo|
    {
      var k :| k in todo;
      todo := todo - {k};
      var m := kept[k];
      if now > m.expiry {
        kept := kept - {k};
        continue;
      }
      if k.namespace != "" && k.namespace != obj.namespace {
        continue;
      }
      if !rules.selects(m.selector, obj.labels) {
        continue;
      }
      hit := true;
    }
  }

  method ScanInexact(rules: Rules, ws: InexactSet, obj: Tracked, now: int) returns (kept: InexactSet, keys: set<Key>)
    ensures kept == LiveInexact(ws, now)
    ensures forall k :: k in keys <==> k in ws && Hit(rules, ws[k], obj, now)
  {
    kept, keys := ws, {};
    var todo := ws.Keys;
    while todo != {}
      invariant todo <= ws.Keys
      invariant forall k :: k in keys <==> k in ws && k !in todo && Hit(rules, ws[k], obj, now)
      invariant forall k :: k in kept <==> k in ws && (k in todo || LiveMatchers(ws[k], now) != map[])
      invariant forall k | k in kept :: kept[k] == if k in todo then ws[k] else LiveMatchers(ws[k], now)
      decreases |todo|
    {
      var k :| k in todo;
      var ms, hit := ScanMatchers(rules, ws[k], obj, now);
      todo := todo - {k};
      kept := if ms == map[] then kept - {k} else kept[k := ms];
      if hit {
        keys := keys + {k};
      }
    }
  }

  class LeaseTracker {
    const rules: Rules
    var exact: map<Reference, ExactSet>
    var inexact: map<Reference, InexactSet>

    constructor (rules: Rules)
      ensures this.rules == rules && Contents() == Index(map[], map[])
    {
      this.rules := rules;
      exact, inexact := map[], map[];
    }

    function Contents(): Index
      reads this
    {
      Index(exact, inexact)
    }

    method TrackReference(ref: Reference, key: Key, now: int) returns (ok: bool)
      modifies this
      ensures ok == Valid(rules, ref) == Acceptable(rules, ref)
      ensures Contents() == if ok then Tracking(rules, old(Contents()), ref, key, now) else old(Contents())
    {
      var invalid := !rules.isIdentifier(ref.kind);
      if ref.apiGroup != "" && !rules.isSubdomain(ref.apiGroup) {
        invalid := true;
      }
      if ref.namespace != "" && !rules.isLabel(ref.namespace) {
        invalid := true;
      }
      if ref.selector.Some? && ref.name != "" {
        invalid := true;
      } else if ref.name != "" {
        invalid := invalid || !rules.isSubdomain(ref.name);
      } else if ref.selector.None? {
        invalid := true;
      }
      if invalid {
        return false;
      }
      if ref.selector.None? {
        var l := GetOr(exact, ref, map[]);
        l := l[key := now + rules.lease];
        exact := exact[ref := l];
        return true;
      }
      var partialRef := PartialOf(ref);
      var ws := GetOr(inexact, partialRef, map[]);
      var m := GetOr(ws, key, map[]);
      m := m[MatcherKey(ref.selector.value, ref.namespace) := Matcher(ref.selector.value, now + rules.lease)];
      ws := ws[key := m];
      inexact := inexact[partialRef := ws];
      return true;
    }

    method GetObservers(obj: Tracked, now: int) returns (keys: set<Key>)
      modifies this
      ensures keys == Answer(rules, old(Contents()), obj, now)
      ensures Contents() == Pruned(old(Contents()), obj, now)
    {
      keys := {};
      var ref := NameOf(obj);
      if ref in exact {
        var s, found := ScanExact(exact[ref], now);
        keys := found;
        exact := if s == map[] then exact - {ref} else exact[ref := s];
      }
      var partialRef := PartialOf(ref);
      if partialRef in inexact {
        var ws, found := ScanInexact(rules, inexact[partialRef], obj, now);
        keys := keys + found;
        inexact := if ws == map[] then inexact - {partialRef} else inexact[partialRef := ws];
      }
    }
  }

  // ---------- the flat history

  /** A request to track, valid or not. */
  datatype Entry = Entry(ref: Reference, key: Key, time: int)

  predicate Matches(rules: Rules, ref: Reference, obj: Tracked) {
    if ref.selector.None? then
      && ref.apiGroup == obj.apiGroup && ref.kind == obj.kind
      && ref.namespace == obj.namespace && ref.name == obj.name
    else
      && ref.apiGroup == obj.apiGroup && ref.kind == obj.kind
      && (ref.namespace == "" || ref.namespace == obj.namespace)
      && rules.selects(ref.selector.value, obj.labels)
  }

  /** A request names one object or selects some, not both, and its parts are well formed. */
  predicate Acceptable(rules: Rules, ref: Reference) {
    && rules.isIdentifier(ref.kind)
    && (ref.apiGroup != "" ==> rules.isSubdomain(ref.apiGroup))
    && (ref.namespace != "" ==> rules.isLabel(ref.namespace))
    && match ref.selector
       case None => ref.name != "" && rules.isSubdomain(ref.name)
       case Some(_) => ref.name == ""
  }

  /** The keys with an acceptable past request that matches and whose lease has not run out. */
  function Observers(rules: Rules, log: seq<Entry>, obj: Tracked, now: int): set<Key> {
    set e | e in log && Acceptable(rules, e.ref) && Matches(rules, e.ref, obj) && now <= e.time + rules.lease :: e.key
  }

  // ---------- the maps refine the history

  function ExactAt(ix: Index, ref: Reference, key: Key): Option<int> {
    if ref in ix.exact && key in ix.exact[ref] then Some(ix.exact[ref][key]) else None
  }

  function InexactAt(ix: Index, partial: Reference, key: Key, k: MatcherKey): Option<Matcher> {
    if partial in ix.inexact && key in ix.inexact[partial] && k in ix.inexact[partial][key]
    then Some(ix.inexact[partial][key][k])
    else None
  }

  lemma TrackingAt(rules: Rules, ix: Index, ref: Reference, key: Key, now: int)
    ensures var ix' := Tracking(rules, ix, ref, key, now);
      && (forall r, k :: ExactAt(ix', r, k) ==
            (if ref.selector.None? && r == ref && k == key then Some(now + rules.lease) else ExactAt(ix, r, k)))
      && (forall p, k, mk :: InexactAt(ix', p, k, mk) ==
            (if ref.selector.Some? && p == PartialOf(ref) && k == key && mk == MatcherKey(ref.selector.value, ref.namespace)
             then Some(Matcher(ref.selector.value, now + rules.lease))
             else InexactAt(ix, p, k, mk)))
  {
  }

  lemma PrunedAt(ix: Index, obj: Tracked, now: int)
    ensures var ix' := Pruned(ix, obj, now);
      && (forall r, k :: ExactAt(ix', r, k) ==
            (var e := ExactAt(ix, r, k); if r == NameOf(obj) && e.Some? && now > e.value then None else e))
      && (forall p, k, mk :: InexactAt(ix', p, k, mk) ==
            (var m := InexactAt(ix, p, k, mk);
             if p == PartialOf(NameOf(obj)) && m.Some? && now > m.value.expiry then None else m))
  {
    var ref, partial := NameOf(obj), PartialOf(NameOf(obj));
    if ref in ix.exact {
      assert forall k :: k in LiveExact(ix.exact[ref], now) <==> k in ix.exact[ref] && now <= ix.exact[ref][k];
    }
    if partial in ix.inexact {
      var ws := ix.inexact[partial];
      forall k, mk | k in ws
        ensures mk in LiveMatchers(ws[k], now) <==> mk in ws[k] && now <= ws[k][mk].expiry
        ensures mk in LiveMatchers(ws[k], now) ==> k in LiveInexact(ws, now)
        ensures k in LiveInexact(ws, now) ==> LiveInexact(ws, now)[k] == LiveMatchers(ws[k], now)
      {
      }
    }
  }

  ghost predicate Past(log: seq<Entry>, clock: int) {
    forall e | e in log :: e.time <= clock
  }

  predicate Exactly(rules: Rules, e: Entry, ref: Reference, key: Key) {
    Valid(rules, e.ref) && e.ref.selector.None? && e.ref == ref && e.key == key
  }

  /** Every entry of the exact map stems from a request, and every request by name whose
      lease is running is still covered, possibly by a later one. */
  ghost predicate RefinesExact(rules: Rules, ix: Index, log: seq<Entry>, clock: int) {
    && (forall r, k | ExactAt(ix, r, k).Some? ::
          exists e | e in log :: Exactly(rules, e, r, k) && ExactAt(ix, r, k).value == e.time + rules.lease)
    && (forall e | e in log && Exactly(rules, e, e.ref, e.key) && clock <= e.time + rules.lease ::
          ExactAt(ix, e.ref, e.key).Some? && e.time + rules.lease <= ExactAt(ix, e.ref, e.key).value)
  }

  /** The same of the inexact map and requests by selector. */
  ghost predicate RefinesInexact(rules: Rules, ix: Index, log: seq<Entry>, clock: int) {
    && (forall p, k, mk | InexactAt(ix, p, k, mk).Some? ::
          exists e | e in log :: Covers(rules, e, p, k, mk)
                                 && InexactAt(ix, p, k, mk).value == Matcher(mk.selector, e.time + rules.lease))
    && (forall e, mk | e in log && Covers(rules, e, PartialOf(e.ref), e.key, mk) && clock <= e.time + rules.lease ::
          var m := InexactAt(ix, PartialOf(e.ref), e.key, mk);
          m.Some? && e.time + rules.lease <= m.value.expiry)
  }

  ghost predicate Refines(rules: Rules, ix: Index, log: seq<Entry>, clock: int) {
    Past(log, clock) && RefinesExact(rules, ix, log, clock) && RefinesInexact(rules, ix, log, clock)
  }

  predicate Covers(rules: Rules, e: Entry, partial: Reference, key: Key, mk: MatcherKey) {
    && Valid(rules, e.ref) && e.ref.selector == Some(mk.selector) && e.ref.namespace == mk.namespace
    && PartialOf(e.ref) == partial && e.key == key
  }

  lemma TrackingRefines(rules: Rules, ix: Index, log: seq<Entry>, clock: int, ref: Reference, key: Key, now: int)
    requires Refines(rules, ix, log, clock) && clock <= now
    ensures Refines(rules, if Valid(rules, ref) then Tracking(rules, ix, ref, key, now) else ix,
                    log + [Entry(ref, key, now)], now)
  {
    TrackingExact(rules, ix, log, clock, ref, key, now);
    TrackingInexact(rules, ix, log, clock, ref, key, now);
  }

  lemma TrackingExact(rules: Rules, ix: Index, log: seq<Entry>, clock: int, ref: Reference, key: Key, now: int)
    requires Past(log, clock) && RefinesExact(rules, ix, log, clock) && clock <= now
    ensures RefinesExact(rules, if Valid(rules, ref) then Tracking(rules, ix, ref, key, now) else ix,
                         log + [Entry(ref, key, now)], now)
  {
    TrackingAt(rules, ix, ref, key, now);
    var log' := log + [Entry(ref, key, now)];
    assert Entry(ref, key, now) in log' && forall x | x in log :: x in log';
  }

  lemma TrackingInexact(rules: Rules, ix: Index, log: seq<Entry>, clock: int, ref: Reference, key: Key, now: int)
    requires Past(log, clock) && RefinesInexact(rules, ix, log, clock) && clock <= now
    ensures RefinesInexact(rules, if Valid(rules, ref) then Tracking(rules, ix, ref, key, now) else ix,
                           log + [Entry(ref, key, now)], now)
  {
    TrackingAt(rules, ix, ref, key, now);
    var log' := log + [Entry(ref, key, now)];
    assert Entry(ref, key, now) in log' && forall x | x in log :: x in log';
  }

  lemma PrunedRefines(rules: Rules, ix: Index, log: seq<Entry>, clock: int, obj: Tracked, now: int)
    requires Refines(rules, ix, log, clock) && clock <= now
    ensures Refines(rules, Pruned(ix, obj, now), log, now)
  {
    PrunedAt(ix, obj, now);
  }

  lemma AnswerAt(rules: Rules, ix: Index, obj: Tracked, now: int, key: Key)
    ensures key in Answer(rules, ix, obj, now) <==>
      || (ExactAt(ix, NameOf(obj), key).Some? && now <= ExactAt(ix, NameOf(obj), key).value)
      || exists mk :: var m := InexactAt(ix, PartialOf(NameOf(obj)), key, mk);
           m.Some? && now <= m.value.expiry && Hits(rules, mk, m.value, obj)
  {
    var p := PartialOf(NameOf(obj));
    if p in ix.inexact && key in ix.inexact[p] {
      var ms := ix.inexact[p][key];
      assert forall mk | mk in ms :: InexactAt(ix, p, key, mk) == Some(ms[mk]);
    }
  }

  /** Any state that refines the history answers as the history does. */
  lemma AnswerRefines(rules: Rules, ix: Index, log: seq<Entry>, clock: int, obj: Tracked, now: int)
    requires Refines(rules, ix, log, clock) && clock <= now
    ensures Answer(rules, ix, obj, now) == Observers(rules, log, obj, now)
  {
    forall key ensures key in Answer(rules, ix, obj, now) <==> key in Observers(rules, log, obj, now) {
      AnswerAt(rules, ix, obj, now, key);
      if key in Answer(rules, ix, obj, now) {
        AnswerSound(rules, ix, log, clock, obj, now, key);
      }
      if key in Observers(rules, log, obj, now) {
        var e :| e in log && Valid(rules, e.ref) && Matches(rules, e.ref, obj) && now <= e.time + rules.lease && e.key == key;
        if e.ref.selector.Some? {
          var mk := MatcherKey(e.ref.selector.value, e.ref.namespace);
          assert PartialOf(e.ref) == PartialOf(NameOf(obj)) && Covers(rules, e, PartialOf(e.ref), key, mk);
          var m := InexactAt(ix, PartialOf(e.ref), key, mk);
          assert m.Some? && now <= m.value.expiry && Hits(rules, mk, m.value, obj);
        }
      }
    }
  }

  lemma AnswerSound(rules: Rules, ix: Index, log: seq<Entry>, clock: int, obj: Tracked, now: int, key: Key)
    requires Refines(rules, ix, log, clock) && clock <= now && key in Answer(rules, ix, obj, now)
    ensures key in Observers(rules, log, obj, now)
  {
    AnswerAt(rules, ix, obj, now, key);
    if !(ExactAt(ix, NameOf(obj), key).Some? && now <= ExactAt(ix, NameOf(obj), key).value) {
      var p := PartialOf(NameOf(obj));
      var mk :| var m := InexactAt(ix, p, key, mk); m.Some? && now <= m.value.expiry && Hits(rules, mk, m.value, obj);
      var e :| e in log && Covers(rules, e, p, key, mk)
        && InexactAt(ix, p, key, mk).value == Matcher(mk.selector, e.time + rules.lease);
      assert Matches(rules, e.ref, obj);
    }
  }

  // ---------- whole runs

  datatype Event = Track(ref: Reference, key: Key, at: int) | Observe(obj: Tracked, at: int)

  ghost predicate InOrder(clock: int, events: seq<Event>)
    decreases |events|
  {
    |events| > 0 ==> clock <= events[0].at && InOrder(events[0].at, events[1..])
  }

  function After(rules: Rules, ix: Index, e: Event): Index {
    match e
    case Track(ref, key, at) => if Valid(rules, ref) then Tracking(rules, ix, ref, key, at) else ix
    case Observe(obj, at) => Pruned(ix, obj, at)
  }

  /** The answers of the lookups of a run, in order. */
  function Answers(rules: Rules, ix: Index, events: seq<Event>): seq<set<Key>>
    decreases |events|
  {
    if |events| == 0 then []
    else
      (if events[0].Observe? then [Answer(rules, ix, events[0].obj, events[0].at)] else [])
      + Answers(rules, After(rules, ix, events[0]), events[1..])
  }

  function Logged(log: seq<Entry>, e: Event): seq<Entry> {
    if e.Track? then log + [Entry(e.ref, e.key, e.at)] else log
  }

  /** What the history alone says the lookups should answer. */
  function Expected(rules: Rules, log: seq<Entry>, events: seq<Event>): seq<set<Key>>
    decreases |events|
  {
    if |events| == 0 then []
    else
      (if events[0].Observe? then [Observers(rules, log, events[0].obj, events[0].at)] else [])
      + Expected(rules, Logged(log, events[0]), events[1..])
  }

  /** After any interleaving of requests and lookups under a clock that does not go back,
      every lookup answers exactly what the flat history of requests says. */
  lemma {:induction false} RunRefines(rules: Rules, ix: Index, log: seq<Entry>, clock: int, events: seq<Event>)
    requires Refines(rules, ix, log, clock) && InOrder(clock, events)
    ensures Answers(rules, ix, events) == Expected(rules, log, events)
    decreases |events|
  {
    if |events| > 0 {
      var e := events[0];
      StepRefines(rules, ix, log, clock, e);
      RunRefines(rules, After(rules, ix, e), Logged(log, e), e.at, events[1..]);
    }
  }

  lemma StepRefines(rules: Rules, ix: Index, log: seq<Entry>, clock: int, e: Event)
    requires Refines(rules, ix, log, clock) && clock <= e.at
    ensures Refines(rules, After(rules, ix, e), Logged(log, e), e.at)
    ensures e.Observe? ==> Answer(rules, ix, e.obj, e.at) == Observers(rules, log, e.obj, e.at)
  {
    match e
    case Track(ref, key, at) => TrackingRefines(rules, ix, log, clock, ref, key, at);
    case Observe(obj, at) =>
      AnswerRefines(rules, ix, log, clock, obj, at);
      PrunedRefines(rules, ix, log, clock, obj, at);
  }

  lemma NewRefines(rules: Rules, clock: int)
    ensures Refines(rules, Index(map[], map[]), [], clock)
  {
  }

  function LoggedAll(log: seq<Entry>, events: seq<Event>): seq<Entry>
    decreases |events|
  {
    if |events| == 0 then log else LoggedAll(Logged(log, events[0]), events[1..])
  }

  lemma {:induction false} ExpectedSplit(rules: Rules, log: seq<Entry>, a: seq<Event>, b: seq<Event>)
    ensures Expected(rules, log, a + b) == Expected(rules, log, a) + Expected(rules, LoggedAll(log, a), b)
    decreases |a|
  {
    if |a| == 0 {
      assert a + b == b;
    } else {
      assert (a + b)[1..] == a[1..] + b;
      ExpectedSplit(rules, Logged(log, a[0]), a[1..], b);
    }
  }

  lemma {:induction false} InOrderWithout(clock: int, a: seq<Event>, o: Event, b: seq<Event>)
    requires InOrder(clock, a + [o] + b)
    ensures InOrder(clock, a + b)
    decreases |a|
  {
    var whole := a + [o] + b;
    if |a| == 0 {
      assert a + b == b && whole[1..] == b;
      if |b| > 0 { assert o.at <= b[0].at; }
    } else {
      assert whole[1..] == a[1..] + [o] + b && (a + b)[1..] == a[1..] + b;
      InOrderWithout(whole[0].at, a[1..], o, b);
    }
  }

  function Lookups(events: seq<Event>): nat {
    if |events| == 0 then 0 else (if events[0].Observe? then 1 else 0) + Lookups(events[1..])
  }

  lemma {:induction false} OneAnswerEach(rules: Rules, log: seq<Entry>, events: seq<Event>)
    ensures |Expected(rules, log, events)| == Lookups(events)
    decreases |events|
  {
    if |events| > 0 {
      OneAnswerEach(rules, Logged(log, events[0]), events[1..]);
    }
  }

  /** A lookup more or less, anywhere in a run, changes no other answer. */
  lemma PruningIsInvisible(rules: Rules, ix: Index, log: seq<Entry>, clock: int, a: seq<Event>, o: Event, b: seq<Event>)
    requires Refines(rules, ix, log, clock) && o.Observe? && InOrder(clock, a + [o] + b)
    ensures var with, without, n := Answers(rules, ix, a + [o] + b), Answers(rules, ix, a + b), Lookups(a);
      |with| == |without| + 1 && n <= |without| && with[..n] == without[..n] && with[n + 1..] == without[n..]
  {
    InOrderWithout(clock, a, o, b);
    RunRefines(rules, ix, log, clock, a + [o] + b);
    RunRefines(rules, ix, log, clock, a + b);
    ExpectedSplit(rules, log, a, b);
    ExpectedAround(rules, log, a, o, b);
    OneAnswerEach(rules, log, a);
  }

  /** The answer to a lookup, put in between what the history says before and after it. */
  lemma ExpectedAround(rules: Rules, log: seq<Entry>, a: seq<Event>, o: Event, b: seq<Event>)
    requires o.Observe?
    ensures var before, after := Expected(rules, log, a), Expected(rules, LoggedAll(log, a), b);
      Expected(rules, log, a + [o] + b)
        == before + ([Observers(rules, LoggedAll(log, a), o.obj, o.at)] + after)
  {
    assert a + [o] + b == a + ([o] + b);
    ExpectedSplit(rules, log, a, [o] + b);
    ExpectedLookup(rules, LoggedAll(log, a), o, b);
  }

  lemma ExpectedLookup(rules: Rules, log: seq<Entry>, o: Event, b: seq<Event>)
    requires o.Observe?
    ensures Expected(rules, log, [o] + b) == [Observers(rules, log, o.obj, o.at)] + Expected(rules, log, b)
  {
    assert ([o] + b)[1..] == b;
  }

  /** A lookup leaves no expired entry and no empty map in the buckets it visits. */
  lemma BucketsAreClean(ix: Index, obj: Tracked, now: int)
    ensures var ix' := Pruned(ix, obj, now);
      var ref := Reference(obj.apiGroup, obj.kind, obj.namespace, obj.name, None);
      var partial := Reference(obj.apiGroup, obj.kind, "", "", None);
      && (ref in ix'.exact ==> ix'.exact[ref] != map[] && forall k | k in ix'.exact[ref] :: now <= ix'.exact[ref][k])
      && (partial in ix'.inexact ==>
            && ix'.inexact[partial] != map[]
            && forall k | k in ix'.inexact[partial] ::
                 && ix'.inexact[partial][k] != map[]
                 && forall mk | mk in ix'.inexact[partial][k] :: now <= ix'.inexact[partial][k][mk].expiry)
      && ix'.exact - {ref} == ix.exact - {ref} && ix'.inexact - {partial} == ix.inexact - {partial}
  {
  }
}
