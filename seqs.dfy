/** Sequence operations the client pages and the store are built from:
    `Array.prototype.filter`, `Array.from(new Set(...))` and `slice(0, n)`. */
module Seqs {

  /** No element occurs twice. */
  ghost predicate NoDuplicates<T>(s: seq<T>) {
    forall i, j :: 0 <= i < j < |s| ==> s[i] != s[j]
  }

  /** `r` is `s` with some elements removed and the rest kept in their order. */
  ghost predicate IsSubsequence<T>(r: seq<T>, s: seq<T>)
    decreases |s|
  {
    |r| <= |s| &&
    (|r| == 0 || (r[0] == s[0] && IsSubsequence(r[1..], s[1..])) || IsSubsequence(r, s[1..]))
  }

  /** `s.filter(keep)`: the elements that pass, in their original order. */
  function Filter<T(!new)>(s: seq<T>, keep: T -> bool): (r: seq<T>)
    ensures |r| <= |s|
    ensures forall x :: x in r <==> x in s && keep(x)
    ensures IsSubsequence(r, s)
    ensures forall x :: multiset(r)[x] == if keep(x) then multiset(s)[x] else 0
  {
    if |s| == 0 then []
    else
      var rest := Filter(s[1..], keep);
      assert s == [s[0]] + s[1..];
      assert forall x :: x in s <==> x == s[0] || x in s[1..];
      if keep(s[0]) then
        assert ([s[0]] + rest)[1..] == rest;
        assert multiset([s[0]] + rest) == multiset{s[0]} + multiset(rest);
        [s[0]] + rest
      else rest
  }

  /** One step of `Filter`: the first element is kept exactly when it passes. */
  lemma FilterCons<T(!new)>(s: seq<T>, keep: T -> bool)
    requires |s| > 0
    ensures Filter(s, keep) == if keep(s[0]) then [s[0]] + Filter(s[1..], keep) else Filter(s[1..], keep)
  {
  }

  /** A filter that every element passes keeps the whole sequence. */
  lemma {:induction false} FilterKeepsAll<T(!new)>(s: seq<T>, keep: T -> bool)
    requires forall x :: x in s ==> keep(x)
    ensures Filter(s, keep) == s
  {
    if |s| > 0 {
      assert forall x :: x in s[1..] ==> x in s;
      FilterKeepsAll(s[1..], keep);
      assert [s[0]] + s[1..] == s;
    }
  }

  /** A filter that keeps as many elements as it was given kept every one of them. */
  lemma {:induction false} FilterAllKept<T(!new)>(s: seq<T>, keep: T -> bool)
    requires |Filter(s, keep)| == |s|
    ensures forall x :: x in s ==> keep(x)
  {
    if |s| > 0 {
      if keep(s[0]) {
        FilterAllKept(s[1..], keep);
        assert forall x :: x in s ==> x == s[0] || x in s[1..];
      } else {
        assert false;
      }
    }
  }

  /** Filtering with a predicate that agrees with another on every element gives the same result. */
  lemma {:induction false} FilterCongruent<T(!new)>(s: seq<T>, keep1: T -> bool, keep2: T -> bool)
    requires forall x :: x in s ==> keep1(x) == keep2(x)
    ensures Filter(s, keep1) == Filter(s, keep2)
  {
    if |s| > 0 {
      assert forall x :: x in s[1..] ==> x in s;
      FilterCongruent(s[1..], keep1, keep2);
    }
  }

  /** Appending the same element to both sides keeps a subsequence a subsequence. */
  lemma {:induction false} SubsequenceSnoc<T>(r: seq<T>, s: seq<T>, x: T)
    requires IsSubsequence(r, s)
    ensures IsSubsequence(r + [x], s + [x])
    decreases |s|
  {
    if |s| == 0 {
      assert r == [];
      var one: seq<T> := [x];
      assert one[1..] == [];
      assert r + [x] == [x] && s + [x] == [x];
    } else if |r| > 0 && r[0] == s[0] && IsSubsequence(r[1..], s[1..]) {
      SubsequenceSnoc(r[1..], s[1..], x);
      assert (r + [x])[1..] == r[1..] + [x];
      assert (s + [x])[1..] == s[1..] + [x];
    } else if |r| == 0 {
      SubsequenceSnoc(r, s[1..], x);
      assert (s + [x])[1..] == s[1..] + [x];
    } else {
      SubsequenceSnoc(r, s[1..], x);
      assert (s + [x])[1..] == s[1..] + [x];
    }
  }

  /** Every sequence is a subsequence of itself. */
  lemma {:induction false} SubsequenceRefl<T>(s: seq<T>)
    ensures IsSubsequence(s, s)
  {
    if |s| > 0 {
      SubsequenceRefl(s[1..]);
    }
  }

  /** The position of the first occurrence of `x` in `s`: `s.indexOf(x)`. */
  function FirstIndex<T(==)>(s: seq<T>, x: T): (i: nat)
    requires x in s
    ensures i < |s| && s[i] == x
    ensures forall j :: 0 <= j < i ==> s[j] != x
  {
    if s[0] == x then 0
    else
      assert x in s[1..] by { assert forall y :: y in s ==> y == s[0] || y in s[1..]; }
      var i := FirstIndex(s[1..], x);
      assert forall j :: 1 <= j < i + 1 ==> s[j] == s[1..][j - 1];
      i + 1
  }

  /** Extending a sequence at the end moves no element's first occurrence. */
  lemma FirstIndexSnoc<T>(s: seq<T>, y: T, x: T)
    requires x in s
    ensures FirstIndex(s + [y], x) == FirstIndex(s, x)
  {
    var a, b := FirstIndex(s + [y], x), FirstIndex(s, x);
    assert (s + [y])[b] == x;
    assert a <= b;
    assert s[a] == (s + [y])[a];
  }

  /** `Array.from(new Set(s))`: the distinct elements of `s`, each at the place of its first
      occurrence, so that they come in the order in which they first occur. */
  function Distinct<T(==,!new)>(s: seq<T>): (r: seq<T>)
    ensures NoDuplicates(r)
    ensures forall x :: x in r <==> x in s
    ensures IsSubsequence(r, s)
    ensures forall i, j :: 0 <= i < j < |r| ==> FirstIndex(s, r[i]) < FirstIndex(s, r[j])
  {
    if |s| == 0 then []
    else
      var init := s[..|s| - 1];
      var last := s[|s| - 1];
      var r := Distinct(init);
      assert s == init + [last];
      assert forall x :: x in s <==> x in init || x == last;
      if last in r then
        SubsequenceSkipLast(r, init, last);
        DistinctOrderKept(r, init, last);
        r
      else
        SubsequenceSnoc(r, init, last);
        DistinctOrderExtended(r, init, last);
        r + [last]
  }

  /** An element already present adds nothing to the first-occurrence order. */
  lemma DistinctOrderKept<T>(r: seq<T>, init: seq<T>, last: T)
    requires forall x :: x in r <==> x in init
    requires forall i, j :: 0 <= i < j < |r| ==> FirstIndex(init, r[i]) < FirstIndex(init, r[j])
    ensures forall i, j :: 0 <= i < j < |r| ==> FirstIndex(init + [last], r[i]) < FirstIndex(init + [last], r[j])
  {
    forall x | x in r ensures FirstIndex(init + [last], x) == FirstIndex(init, x) {
      FirstIndexSnoc(init, last, x);
    }
  }

  /** A new element occurs first at the end, after every element seen before it. */
  lemma DistinctOrderExtended<T>(r: seq<T>, init: seq<T>, last: T)
    requires forall x :: x in r <==> x in init
    requires last !in init
    requires forall i, j :: 0 <= i < j < |r| ==> FirstIndex(init, r[i]) < FirstIndex(init, r[j])
    ensures forall i, j :: 0 <= i < j < |r + [last]| ==>
      FirstIndex(init + [last], (r + [last])[i]) < FirstIndex(init + [last], (r + [last])[j])
  {
    var s := init + [last];
    forall x | x in r ensures FirstIndex(s, x) == FirstIndex(init, x) {
      FirstIndexSnoc(init, last, x);
    }
    assert forall j :: 0 <= j < |init| ==> s[j] == init[j];
    assert FirstIndex(s, last) == |init|;
    forall i, j | 0 <= i < j < |r + [last]|
      ensures FirstIndex(s, (r + [last])[i]) < FirstIndex(s, (r + [last])[j])
    {
      assert (r + [last])[i] == r[i];
      if j < |r| {
        assert (r + [last])[j] == r[j];
      }
    }
  }

  /** Allowing one more element at the end of `s` keeps a subsequence a subsequence. */
  lemma {:induction false} SubsequenceSkipLast<T>(r: seq<T>, s: seq<T>, x: T)
    requires IsSubsequence(r, s)
    ensures IsSubsequence(r, s + [x])
    decreases |s|
  {
    if |s| == 0 {
      assert r == [];
    } else if |r| > 0 && r[0] == s[0] && IsSubsequence(r[1..], s[1..]) {
      SubsequenceSkipLast(r[1..], s[1..], x);
      assert (s + [x])[1..] == s[1..] + [x];
    } else if |r| == 0 {
    } else {
      SubsequenceSkipLast(r, s[1..], x);
      assert (s + [x])[1..] == s[1..] + [x];
    }
  }

  /** The number of elements of a sequence without duplicates is the size of its set. */
  lemma {:induction false} DistinctCardinality<T>(s: seq<T>)
    requires NoDuplicates(s)
    ensures |set x | x in s| == |s|
  {
    if |s| > 0 {
      var tail := s[1..];
      assert NoDuplicates(tail) by {
        forall i, j | 0 <= i < j < |tail| ensures tail[i] != tail[j] {
          assert tail[i] == s[i + 1] && tail[j] == s[j + 1];
        }
      }
      DistinctCardinality(tail);
      assert s[0] !in tail by {
        forall i | 0 <= i < |tail| ensures tail[i] != s[0] {
          assert tail[i] == s[i + 1];
        }
      }
      assert (set x | x in s) == (set x | x in tail) + {s[0]} by {
        assert forall x :: x in s <==> x == s[0] || x in tail;
      }
    }
  }

  /** `s.slice(0, n)`: the first `n` elements, or all of them when there are fewer. */
  function Take<T>(s: seq<T>, n: nat): (r: seq<T>)
    ensures |r| == if n < |s| then n else |s|
    ensures IsSubsequence(r, s)
    ensures forall i :: 0 <= i < |r| ==> r[i] == s[i]
  {
    if n < |s| then PrefixIsSubsequence(s, n); s[..n] else SubsequenceRefl(s); s
  }

  /** A prefix is a subsequence. */
  lemma {:induction false} PrefixIsSubsequence<T>(s: seq<T>, n: nat)
    requires n <= |s|
    ensures IsSubsequence(s[..n], s)
  {
    if n > 0 {
      PrefixIsSubsequence(s[1..], n - 1);
      assert s[..n][1..] == s[1..][..n - 1];
    } else {
      assert s[..n] == [];
    }
  }

  /** Filtering a sequence extended at the end extends the filtered sequence by that element
      when it passes. */
  lemma {:induction false} FilterSnoc<T(!new)>(s: seq<T>, x: T, keep: T -> bool)
    ensures Filter(s + [x], keep) == Filter(s, keep) + (if keep(x) then [x] else [])
  {
    if |s| == 0 {
      assert s + [x] == [x];
      assert [x][1..] == [];
    } else {
      assert (s + [x])[0] == s[0];
      assert (s + [x])[1..] == s[1..] + [x];
      FilterSnoc(s[1..], x, keep);
    }
  }

  /** The positions of `s` whose element passes `keep`. */
  ghost function Passing<T>(s: seq<T>, keep: T -> bool): set<int> {
    set i | 0 <= i < |s| && keep(s[i])
  }

  /** `s.filter(keep).length` is the number of positions of `s` whose element passes. */
  lemma {:induction false} FilterLengthCountsPassing<T(!new)>(s: seq<T>, keep: T -> bool)
    ensures |Filter(s, keep)| == |Passing(s, keep)|
  {
    if |s| == 0 {
      assert Passing(s, keep) == {};
    } else {
      var init, last := s[..|s| - 1], s[|s| - 1];
      assert s == init + [last];
      FilterSnoc(init, last, keep);
      FilterLengthCountsPassing(init, keep);
      PassingSnoc(init, last, keep);
      assert |init| !in Passing(init, keep);
    }
  }

  /** The length of a filter: at most the input's, equal to it exactly when every element
      passes, and in general the number of passing positions. */
  lemma FilterLength<T(!new)>(s: seq<T>, keep: T -> bool)
    ensures |Filter(s, keep)| <= |s|
    ensures |Filter(s, keep)| == |s| <==> forall x :: x in s ==> keep(x)
    ensures |Filter(s, keep)| == |Passing(s, keep)|
  {
    FilterLengthCountsPassing(s, keep);
    if |Filter(s, keep)| == |s| {
      FilterAllKept(s, keep);
    }
    if forall x :: x in s ==> keep(x) {
      FilterKeepsAll(s, keep);
    }
  }

  /** The passing positions of a sequence extended at the end: those of the original, and the
      new last position when its element passes. */
  lemma PassingSnoc<T>(s: seq<T>, x: T, keep: T -> bool)
    ensures Passing(s + [x], keep) == Passing(s, keep) + (if keep(x) then {|s|} else {})
  {
    var t := s + [x];
    forall i | 0 <= i < |s| ensures t[i] == s[i] { }
    assert t[|s|] == x;
  }
}
