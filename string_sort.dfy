// JavaScript's default `Array.prototype.sort` on strings, and duplicate-free lists:
// the ordering used wherever the pages sort names, dates and categories.
module StringSort {
  import opened Text

  /** Ascending in JavaScript's default string order. */
  predicate Sorted(s: seq<string>)
  {
    forall i :: 0 <= i < |s| - 1 ==> LessEq(s[i], s[i + 1])
  }

  predicate NoDuplicates(s: seq<string>)
  {
    forall i, j :: 0 <= i < j < |s| ==> s[i] != s[j]
  }

  function Insert(s: seq<string>, x: string): (r: seq<string>)
    requires Sorted(s)
    ensures Sorted(r) && multiset(r) == multiset(s) + multiset{x}
    ensures |r| == |s| + 1 && (r[0] == x || (s != [] && r[0] == s[0]))
  {
    if s == [] then [x]
    else if LessEq(x, s[0]) then [x] + s
    else
      LessTotal(x, s[0]);
      var rest := Insert(s[1..], x);
      assert s == [s[0]] + s[1..];
      assert LessEq(s[0], rest[0]);
      [s[0]] + rest
  }

  /** `Array.prototype.sort()` with the default comparison. */
  function Sort(s: seq<string>): (r: seq<string>)
    ensures Sorted(r) && multiset(r) == multiset(s)
  {
    if s == [] then []
    else
      assert s == s[..|s| - 1] + [s[|s| - 1]];
      Insert(Sort(s[..|s| - 1]), s[|s| - 1])
  }

  lemma NoDuplicatesViaMultiset(s: seq<string>)
    ensures NoDuplicates(s) <==> forall x :: multiset(s)[x] <= 1
  {
    if NoDuplicates(s) {
      forall x ensures multiset(s)[x] <= 1 {
        CountAtMostOne(s, x);
      }
    }
    if forall x :: multiset(s)[x] <= 1 {
      forall i, j | 0 <= i < j < |s| ensures s[i] != s[j] {
        if s[i] == s[j] {
          TwoOccurrences(s, i, j);
        }
      }
    }
  }

  lemma {:induction false} CountAtMostOne(s: seq<string>, x: string)
    requires NoDuplicates(s)
    ensures multiset(s)[x] <= 1
  {
    if s != [] {
      var t := s[1..];
      assert NoDuplicates(t) by {
        forall i, j | 0 <= i < j < |t| ensures t[i] != t[j] {
          assert t[i] == s[i + 1] && t[j] == s[j + 1];
        }
      }
      CountAtMostOne(t, x);
      assert s == [s[0]] + t;
      if s[0] == x {
        forall j | 0 <= j < |t| ensures t[j] != x {
          assert t[j] == s[j + 1];
        }
      }
    }
  }

  lemma TwoOccurrences(s: seq<string>, i: nat, j: nat)
    requires i < j < |s| && s[i] == s[j]
    ensures multiset(s)[s[i]] >= 2
  {
    assert s == s[..j] + [s[j]] + s[j + 1..];
    assert s[i] in s[..j];
  }

  lemma {:induction false} SortedAll(s: seq<string>)
    requires Sorted(s)
    ensures forall i, j :: 0 <= i < j < |s| ==> LessEq(s[i], s[j])
  {
    forall i, j | 0 <= i < j < |s| ensures LessEq(s[i], s[j]) {
      SortedStep(s, i, j);
    }
  }

  lemma {:induction false} SortedStep(s: seq<string>, i: nat, j: nat)
    requires Sorted(s) && i < j < |s|
    ensures LessEq(s[i], s[j])
    decreases j - i
  {
    if i + 1 < j {
      SortedStep(s, i + 1, j);
      if Less(s[i], s[i + 1]) && Less(s[i + 1], s[j]) {
        LessTransitive(s[i], s[i + 1], s[j]);
      }
    }
  }

  /** Sorting a duplicate-free list keeps it duplicate-free and keeps its members. */
  lemma SortKeepsDistinct(s: seq<string>)
    requires NoDuplicates(s)
    ensures NoDuplicates(Sort(s))
    ensures forall x :: x in Sort(s) <==> x in s
  {
    NoDuplicatesViaMultiset(s);
    NoDuplicatesViaMultiset(Sort(s));
    forall x ensures x in Sort(s) <==> x in s {
      assert x in Sort(s) <==> x in multiset(Sort(s));
      assert x in s <==> x in multiset(s);
    }
  }

  /** `Array.from(new Set(s))`: the first occurrence of each element, in order. */
  function Distinct(s: seq<string>): (r: seq<string>)
    ensures NoDuplicates(r)
    ensures forall x :: x in r <==> x in s
  {
    if s == [] then []
    else
      var init := Distinct(s[..|s| - 1]);
      var last := s[|s| - 1];
      assert s == s[..|s| - 1] + [last];
      if last in init then init else init + [last]
  }
}
