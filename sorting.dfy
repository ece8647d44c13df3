/** `Array.prototype.sort(cmp)` with a comparator: JavaScript's sort is stable,
    and `cmp(a, b) <= 0` lets `a` stay before `b`. A comparator is modelled by
    `le(a, b)`, standing for `cmp(a, b) <= 0`; the sort below is a stable
    insertion sort, so it yields exactly the order JavaScript yields. */
module Sorting {
  import opened Seqs

  /** What the comparators of the storefront satisfy: any two elements are
      comparable, and `le` is transitive. */
  ghost predicate TotalPreorder<T(!new)>(le: (T, T) -> bool) {
    && (forall a, b :: le(a, b) || le(b, a))
    && (forall a, b, c :: le(a, b) && le(b, c) ==> le(a, c))
  }

  predicate SortedBy<T>(s: seq<T>, le: (T, T) -> bool) {
    forall i, j :: 0 <= i < j < |s| ==> le(s[i], s[j])
  }

  /** `x` and `y` compare equal: the comparator returns 0 both ways. */
  predicate Tied<T>(le: (T, T) -> bool, x: T, y: T) {
    le(x, y) && le(y, x)
  }

  /** Places `x` before the first element it may precede. */
  function Insert<T>(x: T, s: seq<T>, le: (T, T) -> bool): (r: seq<T>)
    ensures multiset(r) == multiset(s) + multiset{x}
  {
    if s == [] then [x]
    else if le(x, s[0]) then [x] + s
    else
      assert s == [s[0]] + s[1..];
      [s[0]] + Insert(x, s[1..], le)
  }

  /** The stable sort of `s` by `le`. */
  function SortBy<T>(s: seq<T>, le: (T, T) -> bool): (r: seq<T>)
    ensures multiset(r) == multiset(s)
  {
    if s == [] then []
    else
      assert s == [s[0]] + s[1..];
      Insert(s[0], SortBy(s[1..], le), le)
  }

  lemma {:induction false} InsertSorted<T(!new)>(x: T, s: seq<T>, le: (T, T) -> bool)
    requires TotalPreorder(le) && SortedBy(s, le)
    ensures SortedBy(Insert(x, s, le), le)
  {
    if s != [] && !le(x, s[0]) {
      InsertSorted(x, s[1..], le);
      var r := Insert(x, s, le);
      var t := Insert(x, s[1..], le);
      assert r == [s[0]] + t;
      forall k | 0 <= k < |t| ensures le(s[0], t[k]) {
        assert t[k] in multiset(t);
        assert t[k] == x || t[k] in multiset(s[1..]);
        if t[k] != x {
          var m :| 0 <= m < |s[1..]| && s[1..][m] == t[k];
          assert s[1 + m] == t[k];
        }
      }
    }
  }

  /** The result of sorting is ordered by the comparator. */
  lemma {:induction false} SortBySorted<T(!new)>(s: seq<T>, le: (T, T) -> bool)
    requires TotalPreorder(le)
    ensures SortedBy(SortBy(s, le), le)
  {
    if s != [] {
      SortBySorted(s[1..], le);
      InsertSorted(s[0], SortBy(s[1..], le), le);
    }
  }

  /** Sorting yields a permutation: the same elements, as often each. */
  lemma SortByPermutes<T>(s: seq<T>, le: (T, T) -> bool)
    ensures |SortBy(s, le)| == |s|
    ensures forall x :: x in SortBy(s, le) <==> x in s
  {
    var r := SortBy(s, le);
    assert |r| == |multiset(r)| == |multiset(s)| == |s|;
    forall x ensures x in r <==> x in s {
      assert x in r <==> x in multiset(r);
      assert x in s <==> x in multiset(s);
    }
  }

  /** Two elements tied with `y` may precede each other. */
  lemma TiedTransitive<T(!new)>(le: (T, T) -> bool, x: T, w: T, y: T)
    requires TotalPreorder(le)
    ensures Tied(le, x, y) && Tied(le, w, y) ==> le(x, w)
  {
  }

  lemma {:induction false} InsertStable<T(!new)>(x: T, s: seq<T>, le: (T, T) -> bool, y: T, e: T -> bool)
    requires TotalPreorder(le)
    requires forall z :: e(z) == Tied(le, z, y)
    ensures Filter(Insert(x, s, le), e) == (if e(x) then [x] else []) + Filter(s, e)
  {
    if s == [] {
      assert Insert(x, s, le) == [x];
      assert Filter([x], e) == (if e(x) then [x] else []) + Filter([], e);
    } else if le(x, s[0]) {
      assert Insert(x, s, le) == [x] + s;
      FilterConcat([x], s, e);
    } else {
      InsertStable(x, s[1..], le, y, e);
      // x cannot precede s[0], so the two are never both tied with y
      TiedTransitive(le, x, s[0], y);
      var t := Insert(x, s[1..], le);
      assert Insert(x, s, le) == [s[0]] + t;
      FilterConcat([s[0]], t, e);
      assert s == [s[0]] + s[1..];
      FilterConcat([s[0]], s[1..], e);
    }
  }

  lemma {:induction false} SortByStableWith<T(!new)>(s: seq<T>, le: (T, T) -> bool, y: T, e: T -> bool)
    requires TotalPreorder(le)
    requires forall z :: e(z) == Tied(le, z, y)
    ensures Filter(SortBy(s, le), e) == Filter(s, e)
  {
    if s != [] {
      SortByStableWith(s[1..], le, y, e);
      InsertStable(s[0], SortBy(s[1..], le), le, y, e);
      assert Filter(s, e) == (if e(s[0]) then [s[0]] else []) + Filter(s[1..], e);
    }
  }

  /** Stability: among elements the comparator ties, sorting keeps the input order. */
  lemma SortByStable<T(!new)>(s: seq<T>, le: (T, T) -> bool, y: T)
    requires TotalPreorder(le)
    ensures Filter(SortBy(s, le), z => Tied(le, z, y)) == Filter(s, z => Tied(le, z, y))
  {
    SortByStableWith(s, le, y, z => Tied(le, z, y));
  }

  /** Sorting an input already ordered by the comparator changes nothing. */
  lemma {:induction false} SortBySortedInput<T(!new)>(s: seq<T>, le: (T, T) -> bool)
    requires SortedBy(s, le)
    ensures SortBy(s, le) == s
  {
    if s != [] {
      assert SortedBy(s[1..], le);
      SortBySortedInput(s[1..], le);
      if |s| > 1 {
        assert le(s[0], s[1]);
      }
    }
  }
}
