/** Small vocabulary on sequences shared by the store, the verifier and the metrics. */
module Sequences {

  datatype Option<+T> = None | Some(value: T)

  ghost predicate NoDup<T>(s: seq<T>) {
    forall i, j :: 0 <= i < j < |s| ==> s[i] != s[j]
  }

  function Elements<T>(s: seq<T>): set<T> { set x | x in s }

  /** The elements of `s` that satisfy `p`, in order. */
  function Filter<T>(s: seq<T>, p: T -> bool): (r: seq<T>)
    ensures forall x :: x in r ==> x in s && p(x)
    ensures forall x :: x in s && p(x) ==> x in r
    ensures |r| <= |s|
  {
    if s == [] then [] else
      var n := |s| - 1;
      assert s == s[..n] + [s[n]];
      Filter(s[..n], p) + (if p(s[n]) then [s[n]] else [])
  }

  lemma FilterSnoc<T>(s: seq<T>, x: T, p: T -> bool)
    ensures Filter(s + [x], p) == Filter(s, p) + (if p(x) then [x] else [])
  {
    assert (s + [x])[..|s|] == s;
  }

  lemma {:induction false} FilterAppend<T>(a: seq<T>, b: seq<T>, p: T -> bool)
    ensures Filter(a + b, p) == Filter(a, p) + Filter(b, p)
  {
    if b == [] {
      assert a + b == a;
    } else {
      hide Filter;
      var init, x := b[..|b| - 1], b[|b| - 1];
      assert b == init + [x];
      assert a + b == (a + init) + [x];
      FilterAppend(a, init, p);
      FilterSnoc(init, x, p);
      FilterSnoc(a + init, x, p);
      var f, g, last := Filter(a, p), Filter(init, p), if p(x) then [x] else [];
      assert (f + g) + last == f + (g + last);
    }
  }

  lemma {:induction false} FilterSame<T>(s: seq<T>, p: T -> bool, q: T -> bool)
    requires forall x :: x in s ==> p(x) == q(x)
    ensures Filter(s, p) == Filter(s, q)
  {
    if s != [] {
      FilterSame(s[..|s| - 1], p, q);
      assert s[|s| - 1] in s;
    }
  }

  lemma {:induction false} FilterFilter<T>(s: seq<T>, p: T -> bool, q: T -> bool, both: T -> bool)
    requires forall x :: x in s ==> both(x) == (p(x) && q(x))
    ensures Filter(Filter(s, p), q) == Filter(s, both)
  {
    if s != [] {
      var n := |s| - 1;
      var init, x := s[..n], s[n];
      assert s == init + [x] && x in s;
      FilterFilter(init, p, q, both);
      var kept := Filter(init, p);
      FilterSnoc(init, x, p);
      FilterSnoc(init, x, both);
      if p(x) {
        FilterSnoc(kept, x, q);
        assert Filter(s, p) == kept + [x];
      } else {
        assert Filter(s, p) == kept;
      }
    }
  }

  lemma {:induction false} FilterNoDup<T>(s: seq<T>, p: T -> bool)
    requires NoDup(s)
    ensures NoDup(Filter(s, p))
  {
    if s != [] {
      var n := |s| - 1;
      FilterNoDup(s[..n], p);
      assert s[n] !in s[..n];
    }
  }

  lemma {:induction false} FilterNone<T>(s: seq<T>, p: T -> bool)
    requires forall x :: x in s ==> !p(x)
    ensures Filter(s, p) == []
  {
    if s != [] {
      FilterNone(s[..|s| - 1], p);
      assert s[|s| - 1] in s;
    }
  }

  lemma {:induction false} FilterAll<T>(s: seq<T>, p: T -> bool)
    requires forall x :: x in s ==> p(x)
    ensures Filter(s, p) == s
  {
    if s != [] {
      FilterAll(s[..|s| - 1], p);
      assert s[|s| - 1] in s;
      assert s == s[..|s| - 1] + [s[|s| - 1]];
    }
  }

  /** The places of `s` where `p` holds. */
  function Places<T>(s: seq<T>, p: T -> bool): set<int> {
    set k | 0 <= k < |s| && p(s[k])
  }

  lemma PlacesSnoc<T>(s: seq<T>, x: T, p: T -> bool)
    ensures Places(s + [x], p) == Places(s, p) + (if p(x) then {|s|} else {})
    ensures |s| !in Places(s, p)
  {
    forall k ensures k in Places(s + [x], p) <==> k in Places(s, p) + (if p(x) then {|s|} else {}) {
      if 0 <= k < |s| { assert (s + [x])[k] == s[k]; }
    }
  }

  /** Filtering keeps one entry for each place where the condition holds. */
  lemma {:induction false} FilterCountsPlaces<T>(s: seq<T>, p: T -> bool)
    ensures |Filter(s, p)| == |Places(s, p)|
  {
    if s == [] {
      assert Places(s, p) == {};
    } else {
      var init, x := s[..|s| - 1], s[|s| - 1];
      assert s == init + [x];
      FilterCountsPlaces(init, p);
      FilterSnoc(init, x, p);
      PlacesSnoc(init, x, p);
      hide Filter, Places;
    }
  }

  function One(p: bool): nat { if p then 1 else 0 }

  /** The sum of `f` over the entries of `s`. */
  function Sum<T>(s: seq<T>, f: T -> int): int {
    if s == [] then 0 else Sum(s[..|s| - 1], f) + f(s[|s| - 1])
  }

  lemma SumSnoc<T>(s: seq<T>, x: T, f: T -> int)
    ensures Sum(s + [x], f) == Sum(s, f) + f(x)
  {
    assert (s + [x])[..|s|] == s;
  }

  lemma {:induction false} SumAppend<T>(a: seq<T>, b: seq<T>, f: T -> int)
    ensures Sum(a + b, f) == Sum(a, f) + Sum(b, f)
  {
    if b == [] {
      assert a + b == a;
    } else {
      var n := |b| - 1;
      SumAppend(a, b[..n], f);
      assert a + b == (a + b[..n]) + [b[n]];
      SumSnoc(a + b[..n], b[n], f);
    }
  }

  /** Sums add up when their summands do. */
  lemma {:induction false} SumAdds<T>(s: seq<T>, f: T -> int, g: T -> int, h: T -> int)
    requires forall x :: x in s ==> f(x) == g(x) + h(x)
    ensures Sum(s, f) == Sum(s, g) + Sum(s, h)
  {
    if s != [] {
      SumAdds(s[..|s| - 1], f, g, h);
      assert s[|s| - 1] in s;
    }
  }

  lemma {:induction false} SumAtMost<T>(s: seq<T>, f: T -> int, g: T -> int)
    requires forall x :: x in s ==> f(x) <= g(x)
    ensures Sum(s, f) <= Sum(s, g)
  {
    if s != [] {
      SumAtMost(s[..|s| - 1], f, g);
      assert s[|s| - 1] in s;
    }
  }

  lemma SumSame<T>(s: seq<T>, f: T -> int, g: T -> int)
    requires forall x :: x in s ==> f(x) == g(x)
    ensures Sum(s, f) == Sum(s, g)
  {
    SumAtMost(s, f, g);
    SumAtMost(s, g, f);
  }

  lemma {:induction false} SumConst<T>(s: seq<T>, f: T -> int, c: int)
    requires forall x :: x in s ==> f(x) == c
    ensures Sum(s, f) == c * |s|
  {
    if s != [] {
      SumConst(s[..|s| - 1], f, c);
      assert s[|s| - 1] in s;
    }
  }

  /** Counting by a filter and counting by summing ones agree. */
  lemma {:induction false} SumIsCount<T>(s: seq<T>, p: T -> bool, f: T -> int)
    requires forall x :: x in s ==> f(x) == if p(x) then 1 else 0
    ensures Sum(s, f) == |Filter(s, p)|
  {
    if s != [] {
      SumIsCount(s[..|s| - 1], p, f);
      assert s[|s| - 1] in s;
    }
  }

  /** A change at one entry changes the sum by exactly that much. */
  lemma {:induction false} SumOneChange<T>(s: seq<T>, k: T, f: T -> int, g: T -> int)
    requires NoDup(s) && k in s
    requires forall x :: x in s && x != k ==> f(x) == g(x)
    ensures Sum(s, f) - Sum(s, g) == f(k) - g(k)
  {
    var n := |s| - 1;
    assert s == s[..n] + [s[n]];
    if s[n] == k {
      SumSame(s[..n], f, g);
    } else {
      SumOneChange(s[..n], k, f, g);
      assert s[n] in s;
    }
  }

  /** A set is no larger than any sequence that lists it. */
  lemma {:induction false} SetNoLargerThanSeq<T>(a: set<T>, s: seq<T>)
    requires forall x :: x in a ==> x in s
    ensures |a| <= |s|
  {
    if s == [] {
      assert a == {};
    } else {
      var n := |s| - 1;
      var b := a - {s[n]};
      forall x | x in b ensures x in s[..n] { assert s == s[..n] + [s[n]]; }
      SetNoLargerThanSeq(b, s[..n]);
      assert a <= b + {s[n]};
      assert |a| <= |b + {s[n]}|  by { SubsetSize(a, b + {s[n]}); }
    }
  }

  lemma {:induction false} SubsetSize<T>(a: set<T>, b: set<T>)
    requires a <= b
    ensures |a| <= |b|
  {
    if a != {} {
      var x :| x in a;
      SubsetSize(a - {x}, b - {x});
    }
  }

  // ── Sorting ────────────────────────────────────────────────────────────

  ghost predicate SortedBy<T>(s: seq<T>, key: T -> real) {
    forall i, j :: 0 <= i < j < |s| ==> key(s[i]) <= key(s[j])
  }

  /** Where a stable sort puts `x`: after every entry that is not larger. */
  function Insert<T>(s: seq<T>, x: T, key: T -> real): (r: seq<T>)
    ensures multiset(r) == multiset(s) + multiset{x}
  {
    if s == [] then [x] else
      var n := |s| - 1;
      assert s == s[..n] + [s[n]];
      if key(s[n]) <= key(x) then s + [x] else Insert(s[..n], x, key) + [s[n]]
  }

  lemma {:induction false} InsertSorts<T>(s: seq<T>, x: T, key: T -> real)
    requires SortedBy(s, key)
    ensures SortedBy(Insert(s, x, key), key)
  {
    if s != [] && key(s[|s| - 1]) > key(x) {
      var n := |s| - 1;
      InsertSorts(s[..n], x, key);
      var r := Insert(s[..n], x, key);
      assert Insert(s, x, key) == r + [s[n]];
      hide Insert;
      forall i | 0 <= i < |r| ensures key(r[i]) <= key(s[n]) {
        assert r[i] in multiset(s[..n]) + multiset{x};
      }
    }
  }

  /** The stable ascending sort the source takes from its language's library. */
  function Sorted<T>(s: seq<T>, key: T -> real): (r: seq<T>)
    ensures multiset(r) == multiset(s)
  {
    if s == [] then [] else
      assert s == s[..|s| - 1] + [s[|s| - 1]];
      Insert(Sorted(s[..|s| - 1], key), s[|s| - 1], key)
  }

  lemma {:induction false} SortedSorts<T>(s: seq<T>, key: T -> real)
    ensures SortedBy(Sorted(s, key), key)
    ensures |Sorted(s, key)| == |s|
  {
    if s != [] {
      SortedSorts(s[..|s| - 1], key);
      InsertSorts(Sorted(s[..|s| - 1], key), s[|s| - 1], key);
    }
    assert |multiset(Sorted(s, key))| == |multiset(s)|;
  }

  lemma {:induction false} SortedIsStable<T>(s: seq<T>, key: T -> real)
    requires SortedBy(s, key)
    ensures Sorted(s, key) == s
  {
    if s != [] {
      SortedIsStable(s[..|s| - 1], key);
      assert s == s[..|s| - 1] + [s[|s| - 1]];
    }
  }

  lemma {:induction false} SortedSame<T>(s: seq<T>, f: T -> real, g: T -> real)
    requires forall x :: x in s ==> f(x) == g(x)
    ensures Sorted(s, f) == Sorted(s, g)
  {
    if s != [] {
      var init, x := s[..|s| - 1], s[|s| - 1];
      assert s == init + [x];
      SortedSame(init, f, g);
      forall y | y in Sorted(init, f) ensures f(y) == g(y) { assert y in multiset(init); }
      InsertSame(Sorted(init, f), x, f, g);
    }
  }

  lemma {:induction false} InsertSame<T>(s: seq<T>, x: T, f: T -> real, g: T -> real)
    requires f(x) == g(x) && forall y :: y in s ==> f(y) == g(y)
    ensures Insert(s, x, f) == Insert(s, x, g)
  {
    if s != [] {
      assert s[|s| - 1] in s;
      InsertSame(s[..|s| - 1], x, f, g);
    }
  }
}
