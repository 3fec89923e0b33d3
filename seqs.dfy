// Sequence filters, sums and counts: the `filter`, `reduce` and `length`
// expressions that the list pages and statistics cards are built from.
module Seqs {

  /** `s.filter(p)`: the elements satisfying `p`, in their original order. */
  function Filter<T>(s: seq<T>, p: T -> bool): (r: seq<T>)
    ensures |r| <= |s|
    ensures forall i :: 0 <= i < |r| ==> p(r[i])
  {
    if s == [] then [] else (if p(s[0]) then [s[0]] else []) + Filter(s[1..], p)
  }

  /** The filter keeps something exactly when some element satisfies `p`. */
  lemma {:induction false} FilterNonEmpty<T>(s: seq<T>, p: T -> bool)
    ensures |Filter(s, p)| > 0 <==> exists i :: 0 <= i < |s| && p(s[i])
  {
    if s != [] {
      FilterNonEmpty(s[1..], p);
      if exists i :: 0 <= i < |s| && p(s[i]) {
        var i :| 0 <= i < |s| && p(s[i]);
        if i > 0 {
          assert p(s[1..][i - 1]);
        }
      }
      if exists j :: 0 <= j < |s[1..]| && p(s[1..][j]) {
        var j :| 0 <= j < |s[1..]| && p(s[1..][j]);
        assert p(s[j + 1]);
      }
    }
  }

  /** An element is kept exactly when it occurs in the input and satisfies `p`. */
  lemma {:induction false} FilterMem<T>(s: seq<T>, p: T -> bool, x: T)
    ensures x in Filter(s, p) <==> x in s && p(x)
  {
    if s != [] {
      FilterMem(s[1..], p, x);
      assert x in s <==> x == s[0] || x in s[1..];
    }
  }

  /** `a` can be obtained from `b` by deleting elements (order is kept). */
  predicate IsSubseq<T(==)>(a: seq<T>, b: seq<T>)
  {
    if a == [] then true
    else if b == [] then false
    else if a[0] == b[0] then IsSubseq(a[1..], b[1..])
    else IsSubseq(a, b[1..])
  }

  /** `s.reduce((sum, x) => sum + f(x), 0)` */
  function Sum<T>(s: seq<T>, f: T -> real): real
  {
    if s == [] then 0.0 else f(s[0]) + Sum(s[1..], f)
  }

  /** Number of elements satisfying `p`: `s.filter(p).length`. */
  function Count<T>(s: seq<T>, p: T -> bool): nat
  {
    |Filter(s, p)|
  }

  lemma {:induction false} IsSubseqDrop<T>(a: seq<T>, b: seq<T>)
    requires a != [] && IsSubseq(a, b)
    ensures IsSubseq(a[1..], b)
    decreases |b|, 0
  {
    if b != [] && a[0] != b[0] {
      IsSubseqDrop(a, b[1..]);
      IsSubseqCons(a[1..], b[1..], b[0]);
    } else if b != [] {
      IsSubseqCons(a[1..], b[1..], b[0]);
    }
  }

  lemma {:induction false} IsSubseqCons<T>(a: seq<T>, b: seq<T>, x: T)
    requires IsSubseq(a, b)
    ensures IsSubseq(a, [x] + b)
    decreases |b|, 1
  {
    if a != [] && a[0] == x {
      IsSubseqDrop(a, b);
      assert ([x] + b)[1..] == b;
    } else if a != [] {
      assert ([x] + b)[1..] == b;
    }
  }

  lemma {:induction false} IsSubseqRefl<T>(s: seq<T>)
    ensures IsSubseq(s, s)
  {
    if s != [] { IsSubseqRefl(s[1..]); }
  }

  /** Every filter result is a subsequence of its input. */
  lemma {:induction false} FilterIsSubseq<T>(s: seq<T>, p: T -> bool)
    ensures IsSubseq(Filter(s, p), s)
  {
    if s != [] {
      FilterIsSubseq(s[1..], p);
      if p(s[0]) {
        assert Filter(s, p) == [s[0]] + Filter(s[1..], p);
        assert Filter(s, p)[1..] == Filter(s[1..], p);
      } else {
        assert Filter(s, p) == Filter(s[1..], p);
        IsSubseqCons(Filter(s[1..], p), s[1..], s[0]);
        assert [s[0]] + s[1..] == s;
      }
    }
  }

  lemma {:induction false} IsSubseqTrans<T>(a: seq<T>, b: seq<T>, c: seq<T>)
    requires IsSubseq(a, b) && IsSubseq(b, c)
    ensures IsSubseq(a, c)
    decreases |c|
  {
    if a != [] && c != [] {
      assert b != [];
      if b[0] == c[0] {
        if a[0] == b[0] {
          IsSubseqTrans(a[1..], b[1..], c[1..]);
        } else {
          IsSubseqTrans(a, b[1..], c[1..]);
        }
      } else {
        IsSubseqTrans(a, b, c[1..]);
        if a[0] == c[0] {
          IsSubseqDrop(a, c[1..]);
        }
      }
    }
  }

  lemma {:induction false} FilterConcat<T>(a: seq<T>, b: seq<T>, p: T -> bool)
    ensures Filter(a + b, p) == Filter(a, p) + Filter(b, p)
  {
    if a == [] {
      assert a + b == b;
    } else {
      FilterConcat(a[1..], b, p);
      var ab := a + b;
      assert ab[1..] == a[1..] + b;
      FilterCons(a, ab, p);
      var head := if p(a[0]) then [a[0]] else [];
      AppendAssoc(head, Filter(a[1..], p), Filter(b, p));
    }
  }

  /** Two non-empty lists with the same first element filter to that element's part
    * followed by the filtered tail. */
  lemma FilterCons<T>(s: seq<T>, t: seq<T>, p: T -> bool)
    requires s != [] && t != [] && s[0] == t[0]
    ensures Filter(s, p) == (if p(s[0]) then [s[0]] else []) + Filter(s[1..], p)
    ensures Filter(t, p) == (if p(s[0]) then [s[0]] else []) + Filter(t[1..], p)
  {
  }

  lemma AppendAssoc<T>(x: seq<T>, y: seq<T>, z: seq<T>)
    ensures x + (y + z) == (x + y) + z
  {
  }

  /** Filtering twice by the same predicate filters once. */
  lemma {:induction false} FilterIdempotent<T>(s: seq<T>, p: T -> bool)
    ensures Filter(Filter(s, p), p) == Filter(s, p)
  {
    if s != [] {
      FilterIdempotent(s[1..], p);
      FilterConcat(if p(s[0]) then [s[0]] else [], Filter(s[1..], p), p);
    }
  }

  /** A filter whose predicate holds everywhere returns its input. */
  lemma {:induction false} FilterAll<T>(s: seq<T>, p: T -> bool)
    requires forall i :: 0 <= i < |s| ==> p(s[i])
    ensures Filter(s, p) == s
  {
    if s != [] { FilterAll(s[1..], p); }
  }

  /** A filter whose predicate holds nowhere returns the empty list. */
  lemma {:induction false} FilterNone<T>(s: seq<T>, p: T -> bool)
    requires forall i :: 0 <= i < |s| ==> !p(s[i])
    ensures Filter(s, p) == []
  {
    if s != [] { FilterNone(s[1..], p); }
  }

  /** Two successive filters are one filter by the conjunction. */
  lemma {:induction false} FilterFilter<T>(s: seq<T>, p: T -> bool, q: T -> bool, pq: T -> bool)
    requires forall x :: pq(x) == (p(x) && q(x))
    ensures Filter(Filter(s, p), q) == Filter(s, pq)
  {
    if s != [] {
      FilterFilter(s[1..], p, q, pq);
      FilterConcat(if p(s[0]) then [s[0]] else [], Filter(s[1..], p), q);
    }
  }

  /** Two filters that agree on every element of `s` give the same result. */
  lemma {:induction false} FilterExt<T>(s: seq<T>, p: T -> bool, q: T -> bool)
    requires forall i :: 0 <= i < |s| ==> p(s[i]) == q(s[i])
    ensures Filter(s, p) == Filter(s, q)
  {
    if s != [] { FilterExt(s[1..], p, q); }
  }

  /** A predicate and its negation split a list: the two counts add up. */
  lemma {:induction false} FilterPartition<T>(s: seq<T>, p: T -> bool, np: T -> bool)
    requires forall x :: np(x) == !p(x)
    ensures |Filter(s, p)| + |Filter(s, np)| == |s|
  {
    if s != [] { FilterPartition(s[1..], p, np); }
  }

  /** Sums of the two sides of a partition add up to the whole sum. */
  lemma {:induction false} SumPartition<T>(s: seq<T>, f: T -> real, p: T -> bool, np: T -> bool)
    requires forall x :: np(x) == !p(x)
    ensures Sum(Filter(s, p), f) + Sum(Filter(s, np), f) == Sum(s, f)
  {
    if s != [] {
      SumPartition(s[1..], f, p, np);
      SumConcat(if p(s[0]) then [s[0]] else [], Filter(s[1..], p), f);
      SumConcat(if np(s[0]) then [s[0]] else [], Filter(s[1..], np), f);
    }
  }

  lemma {:induction false} SumConcat<T>(a: seq<T>, b: seq<T>, f: T -> real)
    ensures Sum(a + b, f) == Sum(a, f) + Sum(b, f)
  {
    if a == [] {
      assert a + b == b;
    } else {
      SumConcat(a[1..], b, f);
      assert (a + b)[1..] == a[1..] + b;
    }
  }

  /** A sum of nonnegative terms is nonnegative. */
  lemma {:induction false} SumNonneg<T>(s: seq<T>, f: T -> real)
    requires forall i :: 0 <= i < |s| ==> f(s[i]) >= 0.0
    ensures Sum(s, f) >= 0.0
  {
    if s != [] { SumNonneg(s[1..], f); }
  }

  /** `s.filter(y => y !== x)` */
  function Without<T(==,!new)>(s: seq<T>, x: T): (r: seq<T>)
    ensures x !in r
    ensures forall y :: y in r <==> y in s && y != x
  {
    if s == [] then [] else (if s[0] != x then [s[0]] else []) + Without(s[1..], x)
  }

  lemma {:induction false} WithoutAbsent<T(!new)>(s: seq<T>, x: T)
    requires x !in s
    ensures Without(s, x) == s
  {
    if s != [] {
      WithoutAbsent(s[1..], x);
      assert [s[0]] + s[1..] == s;
    }
  }

  lemma {:induction false} WithoutAppended<T(!new)>(s: seq<T>, x: T)
    ensures Without(s + [x], x) == Without(s, x)
  {
    if s == [] {
      assert Without([x], x) == [] + Without([], x);
    } else {
      assert (s + [x])[1..] == s[1..] + [x];
      WithoutAppended(s[1..], x);
    }
  }

  /** `s.includes(x) ? s.filter(y => y !== x) : [...s, x]`: the toggle of a multi-select. */
  function Toggle<T(==,!new)>(s: seq<T>, x: T): (r: seq<T>)
    ensures x in s ==> x !in r && forall y :: y != x ==> (y in r <==> y in s)
    ensures x !in s ==> r == s + [x]
  {
    if x in s then Without(s, x) else s + [x]
  }

  /** Toggling twice restores the selected set; from an unselected element it restores the
    * list itself, while a selected one comes back at the end. */
  lemma ToggleTwice<T(!new)>(s: seq<T>, x: T)
    ensures forall y :: y in Toggle(Toggle(s, x), x) <==> y in s
    ensures x !in s ==> Toggle(Toggle(s, x), x) == s
    ensures x in s ==> Toggle(Toggle(s, x), x) == Without(s, x) + [x]
  {
    if x !in s {
      WithoutAppended(s, x);
      WithoutAbsent(s, x);
    }
  }
}
