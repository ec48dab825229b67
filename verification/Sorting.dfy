// The library's stable sort, for any total preorder.
module Sorting {

  ghost predicate TotalPreorder<T(!new)>(leq: (T, T) -> bool) {
    && (forall a, b :: leq(a, b) || leq(b, a))
    && (forall a, b, c :: leq(a, b) && leq(b, c) ==> leq(a, c))
  }

  ghost predicate Ordered<T>(rs: seq<T>, leq: (T, T) -> bool) {
    forall i, j | 0 <= i < j < |rs| :: leq(rs[i], rs[j])
  }

  // Puts r after every element that does not come later: one step of a stable sort.
  function Insert<T>(rs: seq<T>, r: T, leq: (T, T) -> bool): seq<T> {
    if rs == [] || leq(rs[|rs|-1], r) then rs + [r]
    else Insert(rs[..|rs|-1], r, leq) + [rs[|rs|-1]]
  }

  function StableSort<T>(rs: seq<T>, leq: (T, T) -> bool): seq<T> {
    if rs == [] then [] else Insert(StableSort(rs[..|rs|-1], leq), rs[|rs|-1], leq)
  }

  lemma OrderedSnoc<T>(rs: seq<T>, r: T, leq: (T, T) -> bool)
    requires Ordered(rs, leq) && forall x | x in rs :: leq(x, r)
    ensures Ordered(rs + [r], leq)
  {
    var out := rs + [r];
    forall i, j | 0 <= i < j < |out| ensures leq(out[i], out[j]) {
      if j == |rs| { assert out[i] in rs; }
    }
  }

  lemma {:induction false} InsertOrders<T(!new)>(rs: seq<T>, r: T, leq: (T, T) -> bool)
    requires TotalPreorder(leq) && Ordered(rs, leq)
    ensures Ordered(Insert(rs, r, leq), leq) && multiset(Insert(rs, r, leq)) == multiset(rs) + multiset{r}
  {
    if rs == [] {
    } else if leq(rs[|rs|-1], r) {
      assert forall x | x in rs :: leq(x, rs[|rs|-1]);
      OrderedSnoc(rs, r, leq);
    } else {
      var init, last := rs[..|rs|-1], rs[|rs|-1];
      assert rs == init + [last];
      InsertOrders(init, r, leq);
      var out := Insert(init, r, leq);
      forall x | x in out ensures leq(x, last) {
        assert x in multiset(out);
        assert x == r || x in init;
      }
      OrderedSnoc(out, last, leq);
    }
  }

  lemma {:induction false} SortOrders<T(!new)>(rs: seq<T>, leq: (T, T) -> bool)
    requires TotalPreorder(leq)
    ensures Ordered(StableSort(rs, leq), leq) && multiset(StableSort(rs, leq)) == multiset(rs)
  {
    if rs != [] {
      SortOrders(rs[..|rs|-1], leq);
      InsertOrders(StableSort(rs[..|rs|-1], leq), rs[|rs|-1], leq);
      assert rs == rs[..|rs|-1] + [rs[|rs|-1]];
    }
  }

  lemma LastIsGreatest<T>(a: seq<T>, x: T, leq: (T, T) -> bool)
    requires Ordered(a, leq) && x in multiset(a)
    ensures a != [] && (x == a[|a|-1] || leq(x, a[|a|-1]))
  {
    var i :| 0 <= i < |a| && a[i] == x;
  }

  lemma InitMultiset<T>(a: seq<T>)
    requires a != []
    ensures multiset(a) == multiset(a[..|a|-1]) + multiset{a[|a|-1]}
  {
    assert a == a[..|a|-1] + [a[|a|-1]];
  }

  lemma SameInit<T>(a: seq<T>, b: seq<T>)
    requires a != [] && b != [] && multiset(a) == multiset(b) && a[|a|-1] == b[|b|-1]
    ensures multiset(a[..|a|-1]) == multiset(b[..|b|-1])
  {
    InitMultiset(a);
    InitMultiset(b);
    var m, n := multiset(a[..|a|-1]), multiset(b[..|b|-1]);
    assert m == (m + multiset{a[|a|-1]}) - multiset{a[|a|-1]};
    assert n == (n + multiset{a[|a|-1]}) - multiset{a[|a|-1]};
  }

  lemma SameLast<T>(a: seq<T>, b: seq<T>, leq: (T, T) -> bool)
    requires Ordered(a, leq) && Ordered(b, leq) && multiset(a) == multiset(b) && a != [] && b != []
    requires Separates(leq, multiset(a))
    ensures a[|a|-1] == b[|b|-1]
  {
    var x, y := a[|a|-1], b[|b|-1];
    assert x in multiset(a) && y in multiset(b);
    LastIsGreatest(b, x, leq);
    LastIsGreatest(a, y, leq);
  }

  lemma SeparatesInit<T>(a: seq<T>, leq: (T, T) -> bool)
    requires a != [] && Separates(leq, multiset(a))
    ensures Separates(leq, multiset(a[..|a|-1]))
  {
    InitMultiset(a);
  }

  // The order tells the elements of m apart.
  ghost predicate Separates<T>(leq: (T, T) -> bool, m: multiset<T>) {
    forall x, y | x in m && y in m :: leq(x, y) && leq(y, x) ==> x == y
  }

  // Two orderings of the same elements agree when the order tells them apart.
  lemma {:induction false} OrderedPermutationUnique<T>(a: seq<T>, b: seq<T>, leq: (T, T) -> bool)
    requires Ordered(a, leq) && Ordered(b, leq) && multiset(a) == multiset(b)
    requires Separates(leq, multiset(a))
    ensures a == b
  {
    assert |a| == |multiset(a)| == |multiset(b)| == |b|;
    if a != [] {
      SameLast(a, b, leq);
      SameInit(a, b);
      SeparatesInit(a, leq);
      OrderedPermutationUnique(a[..|a|-1], b[..|b|-1], leq);
    }
  }
}
