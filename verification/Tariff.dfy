// The duty in force for a query: internal/domain/regulatory/tariff.go. One pass indexes the most
// specific candidate of each measure and notices rivals; the result is specified on the multiset of
// candidates.
module Tariff {
  import opened Prelude

  datatype MeasureType = Mfn | Additional

  datatype Key = Key(kind: MeasureType, code: string)

  datatype RateType = AdValorem | Specific | Compound | UnsupportedMeasure

  datatype Measure = Measure(id: string, hsCode: string, origin: string, kind: MeasureType, code: string,
                             rate: RateType)

  datatype Query = Query(origin: string, hsCode: string)

  function KeyOf(m: Measure): Key {
    Key(m.kind, m.code)
  }

  const MFN_KEY := Key(Mfn, "")

  function BoolRank(b: bool): int {
    if b then 1 else 0
  }

  // Nothing about b is more specific than a: not its origin, nor, if both or neither match the query's, the
  // length of its code.
  predicate AsSpecific(q: Query, a: Measure, b: Measure) {
    && (b.origin == q.origin ==> a.origin == q.origin)
    && ((a.origin == q.origin <==> b.origin == q.origin) ==> |b.hsCode| <= |a.hsCode|)
  }

  // Positive when a is more specific than b: its origin matches and b's does not, or else a longer code.
  function CompareSpecificity(q: Query, a: Measure, b: Measure): (c: int)
    ensures c >= 0 <==> AsSpecific(q, a, b)
    ensures c <= 0 <==> AsSpecific(q, b, a)
  {
    var byOrigin := CompareInt(BoolRank(a.origin == q.origin), BoolRank(b.origin == q.origin));
    if byOrigin != 0 then byOrigin else CompareInt(|a.hsCode|, |b.hsCode|)
  }

  function CompareStrings(a: string, b: string): int {
    if a == [] && b == [] then 0
    else if a == [] then -1
    else if b == [] then 1
    else if a[0] != b[0] then CompareInt(a[0] as int, b[0] as int)
    else CompareStrings(a[1..], b[1..])
  }

  function CompareKeys(a: Key, b: Key): int {
    var byKind := CompareInt(BoolRank(b.kind == Mfn), BoolRank(a.kind == Mfn));
    if byKind != 0 then byKind else CompareStrings(a.code, b.code)
  }

  predicate Before(a: Key, b: Key) {
    CompareKeys(a, b) < 0
  }

  lemma {:induction false} StringsTotal(a: string, b: string)
    ensures CompareStrings(a, b) == -CompareStrings(b, a) && (CompareStrings(a, b) == 0 <==> a == b)
  {
    if a != [] && b != [] && a[0] == b[0] {
      StringsTotal(a[1..], b[1..]);
      assert a == [a[0]] + a[1..] && b == [b[0]] + b[1..];
    }
  }

  lemma {:induction false} StringsTransitive(a: string, b: string, c: string)
    requires CompareStrings(a, b) < 0 && CompareStrings(b, c) < 0
    ensures CompareStrings(a, c) < 0
  {
    if a != [] && b != [] && c != [] && a[0] == b[0] && b[0] == c[0] {
      StringsTransitive(a[1..], b[1..], c[1..]);
    }
  }

  // Codes compare as dictionaries do: the first difference decides, and a proper prefix comes first.
  lemma {:induction false} StringsAlphabetical(p: string, x: char, a: string, y: char, b: string)
    ensures x < y ==> CompareStrings(p + [x] + a, p + [y] + b) < 0
    ensures CompareStrings(p, p + [x] + a) < 0
  {
    if p == [] {
      assert [] + [x] + a == [x] + a && [] + [y] + b == [y] + b;
    } else {
      StringsAlphabetical(p[1..], x, a, y, b);
      assert (p + [x] + a)[1..] == p[1..] + [x] + a && (p + [y] + b)[1..] == p[1..] + [y] + b;
    }
  }

  lemma KeysTotal(a: Key, b: Key)
    ensures Before(a, b) || Before(b, a) || a == b
    ensures !(Before(a, b) && Before(b, a)) && !Before(a, a)
    ensures a.kind == Mfn && b.kind != Mfn ==> Before(a, b)
    ensures a.kind == b.kind ==> (Before(a, b) <==> CompareStrings(a.code, b.code) < 0)
  {
    StringsTotal(a.code, b.code);
    StringsTotal(a.code, a.code);
  }

  lemma KeysTransitive(a: Key, b: Key, c: Key)
    requires Before(a, b) && Before(b, c)
    ensures Before(a, c)
  {
    if a.kind == b.kind == c.kind { StringsTransitive(a.code, b.code, c.code); }
  }

  // ---------------------------------------------------------------- the index

  predicate TiedAt(tied: map<Key, bool>, k: Key) {
    k in tied && tied[k]
  }

  predicate Rival(q: Query, cs: seq<Measure>, n: nat, j: nat, i: nat)
    requires n <= |cs| && j < |cs|
  {
    i < n && i != j && KeyOf(cs[i]) == KeyOf(cs[j]) && CompareSpecificity(q, cs[i], cs[j]) == 0
  }

  ghost predicate HasRival(q: Query, cs: seq<Measure>, n: nat, j: nat)
    requires n <= |cs| && j < |cs|
  {
    exists i :: Rival(q, cs, n, j, i)
  }

  // Among the first n candidates, j is a most specific one of measure k; `tied` says whether it has an
  // equally specific rival.
  ghost predicate KeyIndexed(q: Query, cs: seq<Measure>, n: nat, k: Key, j: nat, tied: bool)
    requires n <= |cs|
  {
    && j < n && KeyOf(cs[j]) == k
    && (forall i | 0 <= i < n && KeyOf(cs[i]) == k :: CompareSpecificity(q, cs[i], cs[j]) <= 0)
    && (tied <==> HasRival(q, cs, n, j))
  }

  // What the two maps say about the first n candidates.
  ghost predicate Indexed(q: Query, cs: seq<Measure>, n: nat, best: map<Key, nat>, tied: map<Key, bool>)
    requires n <= |cs|
  {
    && (forall i | 0 <= i < n :: KeyOf(cs[i]) in best)
    && (forall k | k in tied :: k in best)
    && (forall k | k in best :: KeyIndexed(q, cs, n, k, best[k], TiedAt(tied, k)))
  }

  // A candidate of another measure, or a less specific one, is nobody's rival.
  lemma SameRivals(q: Query, cs: seq<Measure>, n: nat, j: nat)
    requires n < |cs| && j < |cs| && (KeyOf(cs[n]) != KeyOf(cs[j]) || CompareSpecificity(q, cs[n], cs[j]) < 0)
    ensures HasRival(q, cs, n + 1, j) <==> HasRival(q, cs, n, j)
  {
    if HasRival(q, cs, n, j) {
      var i :| Rival(q, cs, n, j, i);
      assert Rival(q, cs, n + 1, j, i);
    }
    if HasRival(q, cs, n + 1, j) {
      var i :| Rival(q, cs, n + 1, j, i);
      assert Rival(q, cs, n, j, i);
    }
  }

  // A candidate of another measure changes nothing.
  lemma KeyUnaffected(q: Query, cs: seq<Measure>, n: nat, k: Key, j: nat, tied: bool)
    requires n < |cs| && KeyOf(cs[n]) != k && KeyIndexed(q, cs, n, k, j, tied)
    ensures KeyIndexed(q, cs, n + 1, k, j, tied)
  {
    SameRivals(q, cs, n, j);
  }

  // The first candidate of a measure.
  lemma KeyNew(q: Query, cs: seq<Measure>, n: nat)
    requires n < |cs| && forall i | 0 <= i < n :: KeyOf(cs[i]) != KeyOf(cs[n])
    ensures KeyIndexed(q, cs, n + 1, KeyOf(cs[n]), n, false)
  {}

  // A further one: more specific, equally specific or less.
  lemma KeyUpdated(q: Query, cs: seq<Measure>, n: nat, j: nat, tied: bool)
    requires n < |cs| && KeyIndexed(q, cs, n, KeyOf(cs[n]), j, tied)
    ensures var k, c := KeyOf(cs[n]), CompareSpecificity(q, cs[n], cs[j]);
            && (c > 0 ==> KeyIndexed(q, cs, n + 1, k, n, false))
            && (c == 0 ==> KeyIndexed(q, cs, n + 1, k, j, true))
            && (c < 0 ==> KeyIndexed(q, cs, n + 1, k, j, tied))
  {
    var c := CompareSpecificity(q, cs[n], cs[j]);
    if c > 0 {
      forall i | 0 <= i < n && KeyOf(cs[i]) == KeyOf(cs[n]) ensures CompareSpecificity(q, cs[i], cs[n]) < 0 {
        assert CompareSpecificity(q, cs[i], cs[j]) <= 0;
      }
    } else if c == 0 {
      assert Rival(q, cs, n + 1, j, n);
    } else {
      SameRivals(q, cs, n, j);
    }
  }

  // The index after one more candidate: its own measure's entry is right and the others are as before.
  lemma IndexGrows(q: Query, cs: seq<Measure>, n: nat, was: map<Key, nat>, tiedWas: map<Key, bool>, best: map<Key, nat>,
                   tied: map<Key, bool>)
    requires n < |cs| && Indexed(q, cs, n, was, tiedWas)
    requires best.Keys == was.Keys + {KeyOf(cs[n])} && tied.Keys <= best.Keys
    requires forall j | j in was && j != KeyOf(cs[n]) :: best[j] == was[j] && TiedAt(tied, j) == TiedAt(tiedWas, j)
    requires KeyIndexed(q, cs, n + 1, KeyOf(cs[n]), best[KeyOf(cs[n])], TiedAt(tied, KeyOf(cs[n])))
    ensures Indexed(q, cs, n + 1, best, tied)
  {
    var k := KeyOf(cs[n]);
    forall j | j in best ensures KeyIndexed(q, cs, n + 1, j, best[j], TiedAt(tied, j)) {
      if j != k {
        assert j in was.Keys;
        KeyUnaffected(q, cs, n, j, was[j], TiedAt(tiedWas, j));
      }
    }
    forall i | 0 <= i < n + 1 ensures KeyOf(cs[i]) in best {
      if i < n { assert KeyOf(cs[i]) in was.Keys; } else { assert KeyOf(cs[i]) in best.Keys; }
    }
    forall j | j in tied ensures j in best { assert j in tied.Keys; }
  }

  // A measure seen for the first time.
  lemma IndexNew(q: Query, cs: seq<Measure>, n: nat, best: map<Key, nat>, tied: map<Key, bool>)
    requires n < |cs| && Indexed(q, cs, n, best, tied) && KeyOf(cs[n]) !in best
    ensures Indexed(q, cs, n + 1, best[KeyOf(cs[n]) := n], tied)
  {
    KeyNew(q, cs, n);
    forall k | k in tied ensures k in best {}
    IndexGrows(q, cs, n, best, tied, best[KeyOf(cs[n]) := n], tied);
  }

  // A measure seen before: the new candidate wins, ties or loses.
  lemma IndexSeen(q: Query, cs: seq<Measure>, n: nat, best: map<Key, nat>, tied: map<Key, bool>)
    requires n < |cs| && Indexed(q, cs, n, best, tied) && KeyOf(cs[n]) in best
    ensures var k := KeyOf(cs[n]);
            best[k] < |cs|
            && var c := CompareSpecificity(q, cs[n], cs[best[k]]);
               && (c > 0 ==> Indexed(q, cs, n + 1, best[k := n], tied[k := false]))
               && (c == 0 ==> Indexed(q, cs, n + 1, best, tied[k := true]))
               && (c < 0 ==> Indexed(q, cs, n + 1, best, tied))
  {
    var k := KeyOf(cs[n]);
    KeyUpdated(q, cs, n, best[k], TiedAt(tied, k));
    var c := CompareSpecificity(q, cs[n], cs[best[k]]);
    IndexedDomains(q, cs, n, best, tied);
    if c > 0 {
      IndexGrows(q, cs, n, best, tied, best[k := n], tied[k := false]);
    } else if c == 0 {
      IndexGrows(q, cs, n, best, tied, best, tied[k := true]);
    } else {
      IndexGrows(q, cs, n, best, tied, best, tied);
    }
  }

  method MostSpecific(q: Query, cs: seq<Measure>) returns (best: map<Key, nat>, tied: map<Key, bool>)
    ensures Indexed(q, cs, |cs|, best, tied)
  {
    best, tied := map[], map[];
    for i := 0 to |cs|
      invariant Indexed(q, cs, i, best, tied)
    {
      var k := KeyOf(cs[i]);
      if k !in best {
        IndexNew(q, cs, i, best, tied);
        best := best[k := i];
      } else {
        IndexSeen(q, cs, i, best, tied);
        var c := CompareSpecificity(q, cs[i], cs[best[k]]);
        if c > 0 {
          best, tied := best[k := i], tied[k := false];
        } else if c == 0 {
          tied := tied[k := true];
        }
      }
    }
  }

  lemma IndexedDomains(q: Query, cs: seq<Measure>, n: nat, best: map<Key, nat>, tied: map<Key, bool>)
    requires n <= |cs| && Indexed(q, cs, n, best, tied)
    ensures tied.Keys <= best.Keys
  {}

  // ---------------------------------------------------------------- the declarative reading

  // m is a most specific candidate of its measure.
  ghost predicate Top(q: Query, cs: multiset<Measure>, m: Measure) {
    m in cs && forall c | c in cs && KeyOf(c) == KeyOf(m) :: CompareSpecificity(q, c, m) <= 0
  }

  // ... and the only one.
  ghost predicate Sole(q: Query, cs: multiset<Measure>, m: Measure) {
    Top(q, cs, m) && cs[m] == 1
    && forall c | c in cs && KeyOf(c) == KeyOf(m) && CompareSpecificity(q, c, m) == 0 :: c == m
  }

  ghost predicate HasKey(cs: multiset<Measure>, k: Key) {
    exists c :: c in cs && KeyOf(c) == k
  }

  // The measure has one most specific rule and it is supported.
  ghost predicate Settled(q: Query, cs: multiset<Measure>, k: Key, m: Measure) {
    KeyOf(m) == k && Sole(q, cs, m) && m.rate != UnsupportedMeasure
  }

  datatype Resolution = Resolved(measures: seq<Measure>) | NoRate | Ambiguous(key: Key) | Unsupported(key: Key)

  ghost predicate SettledBefore(q: Query, cs: multiset<Measure>, k: Key) {
    forall j | HasKey(cs, j) && Before(j, k) :: exists m :: Settled(q, cs, j, m)
  }

  // What a resolution must be; it only looks at which candidates there are.
  ghost predicate Meets(q: Query, cs: multiset<Measure>, r: Resolution) {
    match r
    case NoRate => !HasKey(cs, MFN_KEY)
    case Resolved(ms) =>
      && HasKey(cs, MFN_KEY)
      && (forall i | 0 <= i < |ms| :: Settled(q, cs, KeyOf(ms[i]), ms[i]))
      && (forall k | HasKey(cs, k) :: exists i :: 0 <= i < |ms| && KeyOf(ms[i]) == k)
      && (forall i, j | 0 <= i < j < |ms| :: Before(KeyOf(ms[i]), KeyOf(ms[j])))
    case Ambiguous(k) =>
      HasKey(cs, MFN_KEY) && HasKey(cs, k) && SettledBefore(q, cs, k) && forall m | KeyOf(m) == k :: !Sole(q, cs, m)
    case Unsupported(k) =>
      HasKey(cs, MFN_KEY) && HasKey(cs, k) && SettledBefore(q, cs, k)
      && exists m :: KeyOf(m) == k && Sole(q, cs, m) && m.rate == UnsupportedMeasure
  }

  // ---------------------------------------------------------------- resolving

  lemma MultisetElements(cs: seq<Measure>)
    ensures forall m :: m in multiset(cs) <==> exists i :: 0 <= i < |cs| && cs[i] == m
  {
    forall m ensures m in multiset(cs) <==> exists i :: 0 <= i < |cs| && cs[i] == m {
      assert m in multiset(cs) <==> m in cs;
    }
  }

  lemma {:induction false} CountTwo(cs: seq<Measure>, i: nat, j: nat)
    requires i < j < |cs| && cs[i] == cs[j]
    ensures multiset(cs)[cs[i]] >= 2
  {
    assert cs == cs[..j] + [cs[j]] + cs[j+1..];
    assert cs[i] in cs[..j];
  }

  lemma {:induction false} CountOne(cs: seq<Measure>, i: nat)
    requires i < |cs| && forall j | 0 <= j < |cs| && j != i :: cs[j] != cs[i]
    ensures multiset(cs)[cs[i]] == 1
  {
    assert cs == cs[..i] + [cs[i]] + cs[i+1..];
    assert cs[i] !in cs[..i] && cs[i] !in cs[i+1..];
  }

  // The index agrees with the declarative reading: the entry is the only most specific rule exactly when
  // it is not tied, and when it is tied there is none.
  lemma {:induction false} IndexMeans(q: Query, cs: seq<Measure>, k: Key, j: nat, tied: bool)
    requires KeyIndexed(q, cs, |cs|, k, j, tied)
    ensures Top(q, multiset(cs), cs[j]) && HasKey(multiset(cs), k)
    ensures !tied ==> Sole(q, multiset(cs), cs[j])
    ensures tied ==> forall m | KeyOf(m) == k :: !Sole(q, multiset(cs), m)
  {
    MultisetElements(cs);
    assert cs[j] in multiset(cs);
    if tied {
      var i :| Rival(q, cs, |cs|, j, i);
      forall m | KeyOf(m) == k ensures !Sole(q, multiset(cs), m) {
        TiedNotSole(q, cs, i, j, m);
      }
    } else {
      forall i | 0 <= i < |cs| && i != j && KeyOf(cs[i]) == k ensures CompareSpecificity(q, cs[i], cs[j]) != 0 {
        assert !Rival(q, cs, |cs|, j, i);
      }
      CountOne(cs, j);
    }
  }

  lemma {:induction false} TiedNotSole(q: Query, cs: seq<Measure>, i: nat, j: nat, m: Measure)
    requires j < |cs| && Rival(q, cs, |cs|, j, i) && Top(q, multiset(cs), cs[j]) && KeyOf(m) == KeyOf(cs[j])
    ensures !Sole(q, multiset(cs), m)
  {
    assert cs[i] in multiset(cs) && cs[j] in multiset(cs);
    if Sole(q, multiset(cs), m) {
      assert CompareSpecificity(q, cs[j], m) == 0 && CompareSpecificity(q, cs[i], m) == 0;
      assert cs[i] == m && cs[j] == m;
      CountTwo(cs, if i < j then i else j, if i < j then j else i);
      assert false;
    }
  }

  ghost predicate SortedKeys(keys: seq<Key>, of: set<Key>) {
    && (forall i, j | 0 <= i < j < |keys| :: Before(keys[i], keys[j]))
    && (forall k :: k in keys <==> k in of)
  }

  method First(keys: set<Key>) returns (first: Key)
    requires keys != {}
    ensures first in keys && forall k | k in keys && k != first :: Before(first, k)
  {
    first := Any(keys);
    var left := keys - {first};
    while left != {}
      invariant left <= keys && first in keys && first !in left
      invariant forall k | k in keys && k !in left && k != first :: Before(first, k)
      decreases left
    {
      var k := Any(left);
      left := left - {k};
      KeysTotal(k, first);
      if Before(k, first) {
        forall j | j in keys && j !in left && j != k ensures Before(k, j) {
          if j != first { KeysTransitive(k, first, j); }
        }
        first := k;
      }
    }
  }

  method SortKeys(of: set<Key>) returns (keys: seq<Key>)
    ensures SortedKeys(keys, of)
  {
    keys := [];
    var left := of;
    while left != {}
      invariant left <= of && SortedKeys(keys, of - left)
      invariant forall k, j | k in keys && j in left :: Before(k, j)
      decreases left
    {
      var first := First(left);
      keys := keys + [first];
      left := left - {first};
    }
  }

  // The first i keys are settled, each with its measure.
  ghost predicate SettledKeys(q: Query, cs: multiset<Measure>, keys: seq<Key>, measures: seq<Measure>) {
    |measures| <= |keys| && forall j | 0 <= j < |measures| :: Settled(q, cs, keys[j], measures[j])
  }

  lemma EarlierAreSettled(q: Query, cs: multiset<Measure>, keys: seq<Key>, of: set<Key>, measures: seq<Measure>)
    requires SortedKeys(keys, of) && SettledKeys(q, cs, keys, measures) && |measures| < |keys|
    requires forall k | HasKey(cs, k) :: k in of
    ensures SettledBefore(q, cs, keys[|measures|])
  {
    var i := |measures|;
    forall j | HasKey(cs, j) && Before(j, keys[i]) ensures exists m :: Settled(q, cs, j, m) {
      assert j in keys;
      var n :| 0 <= n < |keys| && keys[n] == j;
      KeysTotal(j, keys[i]);
      assert n < i;
      assert Settled(q, cs, j, measures[n]);
    }
  }

  lemma AllAreSettled(q: Query, cs: multiset<Measure>, keys: seq<Key>, of: set<Key>, measures: seq<Measure>)
    requires SortedKeys(keys, of) && SettledKeys(q, cs, keys, measures) && |measures| == |keys|
    requires HasKey(cs, MFN_KEY) && forall k | HasKey(cs, k) :: k in of
    ensures Meets(q, cs, Resolved(measures))
  {
    forall k | HasKey(cs, k) ensures exists i :: 0 <= i < |measures| && KeyOf(measures[i]) == k {
      assert k in keys;
      var n :| 0 <= n < |keys| && keys[n] == k;
      assert Settled(q, cs, keys[n], measures[n]);
    }
    assert forall i | 0 <= i < |measures| :: Settled(q, cs, keys[i], measures[i]);
  }

  lemma IndexedKeys(q: Query, cs: seq<Measure>, best: map<Key, nat>, tied: map<Key, bool>)
    requires Indexed(q, cs, |cs|, best, tied)
    ensures forall k :: k in best <==> HasKey(multiset(cs), k)
  {
    MultisetElements(cs);
    forall k | k in best ensures HasKey(multiset(cs), k) {
      IndexMeans(q, cs, k, best[k], TiedAt(tied, k));
    }
    forall k | HasKey(multiset(cs), k) ensures k in best {
      var c :| c in multiset(cs) && KeyOf(c) == k;
      var i :| 0 <= i < |cs| && cs[i] == c;
    }
  }

  // What the next key in order decides, once the ones before it are settled; m is its entry.
  lemma {:induction false} EntryDecides(q: Query, cs: multiset<Measure>, of: set<Key>, keys: seq<Key>,
                                        measures: seq<Measure>, m: Measure, tied: bool)
    requires SortedKeys(keys, of) && (forall k | HasKey(cs, k) :: k in of) && HasKey(cs, MFN_KEY)
    requires SettledKeys(q, cs, keys, measures) && |measures| < |keys| && KeyOf(m) == keys[|measures|] && m in cs
    requires if tied then forall n | KeyOf(n) == KeyOf(m) :: !Sole(q, cs, n) else Sole(q, cs, m)
    ensures tied ==> Meets(q, cs, Ambiguous(KeyOf(m)))
    ensures !tied && m.rate == UnsupportedMeasure ==> Meets(q, cs, Unsupported(KeyOf(m)))
    ensures !tied && m.rate != UnsupportedMeasure ==> SettledKeys(q, cs, keys, measures + [m])
  {
    EarlierAreSettled(q, cs, keys, of, measures);
    if !tied && m.rate != UnsupportedMeasure {
      assert Settled(q, cs, KeyOf(m), m);
    }
  }

  lemma {:induction false} KeyDecides(q: Query, cs: seq<Measure>, best: map<Key, nat>, tied: map<Key, bool>,
                                      keys: seq<Key>, measures: seq<Measure>)
    requires Indexed(q, cs, |cs|, best, tied) && MFN_KEY in best && SortedKeys(keys, best.Keys)
    requires SettledKeys(q, multiset(cs), keys, measures) && |measures| < |keys|
    ensures var k := keys[|measures|];
            && k in best && best[k] < |cs|
            && (TiedAt(tied, k) ==> Meets(q, multiset(cs), Ambiguous(k)))
            && (!TiedAt(tied, k) && cs[best[k]].rate == UnsupportedMeasure ==> Meets(q, multiset(cs), Unsupported(k)))
            && (!TiedAt(tied, k) && cs[best[k]].rate != UnsupportedMeasure ==>
                  SettledKeys(q, multiset(cs), keys, measures + [cs[best[k]]]))
  {
    var k := keys[|measures|];
    assert k in keys;
    IndexedKeys(q, cs, best, tied);
    IndexMeans(q, cs, k, best[k], TiedAt(tied, k));
    EntryDecides(q, multiset(cs), best.Keys, keys, measures, cs[best[k]], TiedAt(tied, k));
  }

  // The last word, when every key is settled or there is no MFN rule.
  lemma {:induction false} IndexDecides(q: Query, cs: seq<Measure>, best: map<Key, nat>, tied: map<Key, bool>,
                                        keys: seq<Key>, measures: seq<Measure>)
    requires Indexed(q, cs, |cs|, best, tied)
    ensures MFN_KEY !in best ==> Meets(q, multiset(cs), NoRate)
    ensures (MFN_KEY in best && SortedKeys(keys, best.Keys) && SettledKeys(q, multiset(cs), keys, measures)
             && |measures| == |keys|) ==> Meets(q, multiset(cs), Resolved(measures))
  {
    IndexedKeys(q, cs, best, tied);
    if MFN_KEY in best && SortedKeys(keys, best.Keys) && SettledKeys(q, multiset(cs), keys, measures)
       && |measures| == |keys| {
      AllAreSettled(q, multiset(cs), keys, best.Keys, measures);
    }
  }

  // Candidates of one measure.
  predicate SameMeasure(a: Measure, b: Measure) {
    a.kind == b.kind && a.code == b.code
  }

  // Every other candidate of m's measure is strictly less specific: it is for another origin while m is for
  // the query's, or, if both or neither are, it has a shorter code.
  ghost predicate BeatsAll(q: Query, cs: multiset<Measure>, m: Measure) {
    && cs[m] == 1
    && forall c | c in cs && SameMeasure(c, m) ::
         && (c.origin == q.origin ==> m.origin == q.origin)
         && ((c.origin == q.origin <==> m.origin == q.origin) ==>
               |c.hsCode| <= |m.hsCode| && (|c.hsCode| == |m.hsCode| ==> c == m))
  }

  // Candidate m is the most specific of its measure but not the only one.
  ghost predicate Contested(q: Query, cs: multiset<Measure>, m: Measure) {
    && m in cs
    && (forall c | c in cs && SameMeasure(c, m) ::
          && (c.origin == q.origin ==> m.origin == q.origin)
          && ((c.origin == q.origin <==> m.origin == q.origin) ==> |c.hsCode| <= |m.hsCode|))
    && (cs[m] > 1
        || exists c :: c in cs && c != m && SameMeasure(c, m) && |c.hsCode| == |m.hsCode|
                       && (c.origin == q.origin <==> m.origin == q.origin))
  }

  lemma SoleBeats(q: Query, cs: multiset<Measure>, m: Measure)
    ensures Sole(q, cs, m) <==> BeatsAll(q, cs, m)
  {
    if Sole(q, cs, m) {
      forall c | c in cs && SameMeasure(c, m)
        ensures AsSpecific(q, m, c) && (AsSpecific(q, c, m) ==> c == m)
      {
        assert CompareSpecificity(q, c, m) <= 0;
      }
    }
    if BeatsAll(q, cs, m) {
      forall c | c in cs && KeyOf(c) == KeyOf(m)
        ensures CompareSpecificity(q, c, m) <= 0 && (CompareSpecificity(q, c, m) == 0 ==> c == m)
      {
        assert SameMeasure(c, m);
      }
    }
  }

  // A resolution, said of origins and code lengths: each of its rules is supported and beats every other
  // candidate of its measure.
  lemma ResolvedIsLongest(q: Query, cs: multiset<Measure>, ms: seq<Measure>, m: Measure)
    requires Meets(q, cs, Resolved(ms)) && m in ms
    ensures m in cs && m.rate != UnsupportedMeasure && BeatsAll(q, cs, m)
  {
    var i :| 0 <= i < |ms| && ms[i] == m;
    assert Settled(q, cs, KeyOf(ms[i]), ms[i]);
    SoleBeats(q, cs, m);
  }

  // And there is one for the MFN rate and for each measure with a candidate.
  lemma EachIsResolved(q: Query, cs: multiset<Measure>, ms: seq<Measure>, c: Measure) returns (m: Measure)
    requires Meets(q, cs, Resolved(ms)) && (c in cs || (c.kind == Mfn && c.code == ""))
    ensures m in ms && SameMeasure(m, c)
  {
    assert HasKey(cs, KeyOf(c));
    var i :| 0 <= i < |ms| && KeyOf(ms[i]) == KeyOf(c);
    m := ms[i];
  }

  // Some candidate is at least as specific as all others of its measure.
  lemma {:induction false} TopExists(q: Query, cs: multiset<Measure>, c: Measure) returns (m: Measure)
    requires c in cs
    ensures Top(q, cs, m) && SameMeasure(m, c)
    decreases |cs|
  {
    var rest := cs - multiset{c};
    if d :| d in rest && SameMeasure(d, c) {
      assert cs == rest + multiset{c};
      m := TopExists(q, rest, d);
      if CompareSpecificity(q, c, m) > 0 { m := c; }
    } else {
      assert cs == rest + multiset{c};
      m := c;
    }
  }

  // The errors, likewise: no MFN rule; a measure whose most specific candidate has a rival; or one whose
  // candidate that beats all others is unsupported.
  lemma ErrorsMean(q: Query, cs: multiset<Measure>, r: Resolution)
    requires Meets(q, cs, r)
    ensures r.NoRate? <==> forall c | c in cs :: !(c.kind == Mfn && c.code == "")
    ensures r.Ambiguous? ==> exists m: Measure :: m.kind == r.key.kind && m.code == r.key.code && Contested(q, cs, m)
    ensures r.Unsupported? ==>
              exists m: Measure ::
                m.kind == r.key.kind && m.code == r.key.code && m in cs && m.rate == UnsupportedMeasure
                && BeatsAll(q, cs, m)
  {
    if forall c | c in cs :: !(c.kind == Mfn && c.code == "") {
      assert !HasKey(cs, MFN_KEY);
    }
    if r.NoRate? {
      forall c | c in cs ensures !(c.kind == Mfn && c.code == "") {
        assert KeyOf(c) != MFN_KEY;
      }
    } else if r.Ambiguous? {
      var c :| c in cs && KeyOf(c) == r.key;
      var m := TopExists(q, cs, c);
      assert KeyOf(m) == r.key && !Sole(q, cs, m);
      TopContested(q, cs, m);
    } else if r.Unsupported? {
      var m :| KeyOf(m) == r.key && Sole(q, cs, m) && m.rate == UnsupportedMeasure;
      SoleBeats(q, cs, m);
    }
  }

  lemma TopContested(q: Query, cs: multiset<Measure>, m: Measure)
    requires Top(q, cs, m) && !Sole(q, cs, m)
    ensures Contested(q, cs, m)
  {
    forall c | c in cs && SameMeasure(c, m) ensures AsSpecific(q, m, c) {
      assert CompareSpecificity(q, c, m) <= 0;
    }
    if cs[m] == 1 {
      var c :| c in cs && KeyOf(c) == KeyOf(m) && CompareSpecificity(q, c, m) == 0 && c != m;
      assert AsSpecific(q, c, m) && AsSpecific(q, m, c) && SameMeasure(c, m);
    }
  }

  // Keeps the most specific rule of each measure, or says why not at the first measure in order.
  method ResolveTariff(q: Query, cs: seq<Measure>) returns (r: Resolution)
    ensures Meets(q, multiset(cs), r)
  {
    var best, tied := MostSpecific(q, cs);
    if MFN_KEY !in best {
      IndexDecides(q, cs, best, tied, [], []);
      return NoRate;
    }
    var keys := SortKeys(best.Keys);
    var measures := [];
    for i := 0 to |keys|
      invariant |measures| == i && SettledKeys(q, multiset(cs), keys, measures)
    {
      var k := keys[i];
      KeyDecides(q, cs, best, tied, keys, measures);
      if TiedAt(tied, k) {
        return Ambiguous(k);
      }
      var m := cs[best[k]];
      if m.rate == UnsupportedMeasure {
        return Unsupported(k);
      }
      measures := measures + [m];
    }
    IndexDecides(q, cs, best, tied, keys, measures);
    return Resolved(measures);
  }

  // ---------------------------------------------------------------- what the specification says

  lemma SoleIsUnique(q: Query, cs: multiset<Measure>, a: Measure, b: Measure)
    requires Sole(q, cs, a) && Top(q, cs, b) && KeyOf(a) == KeyOf(b)
    ensures a == b
  {}

  // It succeeds exactly when there is an MFN rule and every measure has one most specific rule, which
  // is supported.
  lemma ResolvesIff(q: Query, cs: multiset<Measure>, r: Resolution)
    requires Meets(q, cs, r)
    ensures r.Resolved? <==> HasKey(cs, MFN_KEY) && forall k | HasKey(cs, k) :: exists m :: Settled(q, cs, k, m)
  {
    match r
    case Resolved(ms) =>
      forall k | HasKey(cs, k) ensures exists m :: Settled(q, cs, k, m) {
        var i :| 0 <= i < |ms| && KeyOf(ms[i]) == k;
        assert Settled(q, cs, k, ms[i]);
      }
    case NoRate =>
    case Ambiguous(k) => assert forall m :: !Settled(q, cs, k, m);
    case Unsupported(k) =>
      var u :| KeyOf(u) == k && Sole(q, cs, u) && u.rate == UnsupportedMeasure;
      forall m ensures !Settled(q, cs, k, m) {
        if Settled(q, cs, k, m) { SoleIsUnique(q, cs, u, m); }
      }
  }

  // A resolution holds, for each measure, exactly its only most specific rule.
  lemma ResolvedExactly(q: Query, cs: multiset<Measure>, ms: seq<Measure>, m: Measure)
    requires Meets(q, cs, Resolved(ms))
    ensures m in ms <==> Sole(q, cs, m)
  {
    if Sole(q, cs, m) {
      assert HasKey(cs, KeyOf(m));
      var i :| 0 <= i < |ms| && KeyOf(ms[i]) == KeyOf(m);
      SoleIsUnique(q, cs, m, ms[i]);
    }
  }

  lemma NotEmpty(a: seq<Measure>, b: seq<Measure>)
    requires b != [] && forall m :: m in b ==> m in a
    ensures a != []
  {
    assert b[0] in a;
  }

  // The place of the first element of one of two sorted lists in the other.
  lemma {:induction false} SortedOnce(a: seq<Measure>, b: seq<Measure>)
    requires forall i, j | 0 <= i < j < |a| :: Before(KeyOf(a[i]), KeyOf(a[j]))
    requires forall i, j | 0 <= i < j < |b| :: Before(KeyOf(b[i]), KeyOf(b[j]))
    requires forall m :: m in a <==> m in b
    ensures a == b
  {
    if b == [] {
      if a != [] { NotEmpty(b, a); }
    } else {
      NotEmpty(a, b);
      assert a[0] in b;
      assert b != [] && b[0] in a;
      assert a[0] == b[0] by {
        var i :| 0 <= i < |b| && b[i] == a[0];
        var j :| 0 <= j < |a| && a[j] == b[0];
        if i > 0 && j > 0 { KeysTotal(KeyOf(a[0]), KeyOf(b[0])); }
      }
      forall m ensures m in a[1..] <==> m in b[1..] {
        TailWithoutHead(a, m);
        TailWithoutHead(b, m);
      }
      SortedOnce(a[1..], b[1..]);
      assert a == [a[0]] + a[1..] && b == [b[0]] + b[1..];
    }
  }

  lemma TailWithoutHead(a: seq<Measure>, m: Measure)
    requires a != [] && forall i, j | 0 <= i < j < |a| :: Before(KeyOf(a[i]), KeyOf(a[j]))
    ensures m in a[1..] <==> m in a && m != a[0]
  {
    if m in a[1..] {
      var i :| 0 <= i < |a| - 1 && a[1..][i] == m;
      KeysTotal(KeyOf(a[0]), KeyOf(a[i+1]));
    }
  }

  // Two candidate lists with the same rules, in any order, resolve alike: the same measures in the same
  // order, or the same kind of error at the same measure.
  lemma OrderDoesNotMatter(q: Query, cs: multiset<Measure>, r: Resolution, s: Resolution)
    requires Meets(q, cs, r) && Meets(q, cs, s)
    ensures r == s
  {
    ResolvesIff(q, cs, r);
    ResolvesIff(q, cs, s);
    if r.Resolved? {
      forall m ensures m in r.measures <==> m in s.measures {
        ResolvedExactly(q, cs, r.measures, m);
        ResolvedExactly(q, cs, s.measures, m);
      }
      SortedOnce(r.measures, s.measures);
    } else if !r.NoRate? {
      FailsAt(q, cs, r);
      FailsAt(q, cs, s);
      KeysTotal(r.key, s.key);
      assert r.key == s.key;
    }
  }

  // An error names the first measure that is not settled.
  lemma FailsAt(q: Query, cs: multiset<Measure>, r: Resolution)
    requires Meets(q, cs, r) && (r.Ambiguous? || r.Unsupported?)
    ensures HasKey(cs, r.key) && SettledBefore(q, cs, r.key) && forall m :: !Settled(q, cs, r.key, m)
  {
    if r.Unsupported? {
      var u :| KeyOf(u) == r.key && Sole(q, cs, u) && u.rate == UnsupportedMeasure;
      forall m ensures !Settled(q, cs, r.key, m) {
        if Settled(q, cs, r.key, m) { SoleIsUnique(q, cs, u, m); }
      }
    }
  }

  // ---------------------------------------------------------------- prefixes

  // The code and every shorter one a rule may be keyed on, longest first.
  method HSPrefixes(code: string) returns (prefixes: seq<string>)
    requires |code| % 2 == 0
    ensures |prefixes| == |code| / 2
    ensures forall i | 0 <= i < |prefixes| :: prefixes[i] == code[..|code| - 2 * i]
    ensures forall n | 2 <= n <= |code| && n % 2 == 0 :: code[..n] in prefixes
  {
    prefixes := [];
    var n := |code|;
    while n >= 2
      invariant 0 <= n <= |code| && n % 2 == 0 && |prefixes| == (|code| - n) / 2
      invariant forall i | 0 <= i < |prefixes| :: prefixes[i] == code[..|code| - 2 * i]
    {
      prefixes := prefixes + [code[..n]];
      n := n - 2;
    }
    forall m | 2 <= m <= |code| && m % 2 == 0 ensures code[..m] in prefixes {
      assert prefixes[(|code| - m) / 2] == code[..m];
    }
  }
}
