/** The store's list order: `Array.prototype.sort` with the comparator
    `(a, b) => stamp(b) - stamp(a)`. That sort is stable, so records with equal time stamps
    keep the order in which the map yields them. The model is an insertion sort with the same
    three properties: newest first, a permutation of the input, and stable. */
module Ordering {

  /** Each element's time stamp is at least that of every later element. */
  ghost predicate NewestFirstOrder<T>(s: seq<T>, stamp: T -> int) {
    forall i, j :: 0 <= i < j < |s| ==> stamp(s[i]) >= stamp(s[j])
  }

  /** The elements of `s` whose time stamp is `t`, in their order in `s`. */
  function StampedAt<T>(s: seq<T>, stamp: T -> int, t: int): seq<T> {
    if |s| == 0 then []
    else if stamp(s[0]) == t then [s[0]] + StampedAt(s[1..], stamp, t)
    else StampedAt(s[1..], stamp, t)
  }

  /** Inserts `x` before the first element that is not newer than it. */
  function Insert<T>(x: T, s: seq<T>, stamp: T -> int): (r: seq<T>)
    ensures multiset(r) == multiset(s) + multiset{x}
  {
    if |s| == 0 then [x]
    else if stamp(s[0]) <= stamp(x) then [x] + s
    else
      assert s == [s[0]] + s[1..];
      [s[0]] + Insert(x, s[1..], stamp)
  }

  /** Inserting into a newest-first list keeps it newest-first. */
  lemma {:induction false} InsertKeepsOrder<T>(x: T, s: seq<T>, stamp: T -> int)
    requires NewestFirstOrder(s, stamp)
    ensures NewestFirstOrder(Insert(x, s, stamp), stamp)
  {
    if |s| > 0 && stamp(s[0]) > stamp(x) {
      var rest := Insert(x, s[1..], stamp);
      InsertKeepsOrder(x, s[1..], stamp);
      InsertMembers(x, s[1..], stamp);
      forall e | e in rest ensures stamp(e) <= stamp(s[0]) {
        if e != x {
          var k :| 0 <= k < |s[1..]| && s[1..][k] == e;
          assert s[k + 1] == e;
        }
      }
      ConsKeepsOrder(s[0], rest, stamp);
    } else if |s| > 0 {
      ConsKeepsOrder(x, s, stamp);
    }
  }

  /** Every element of an insertion is the inserted one or came from the list. */
  lemma {:induction false} InsertMembers<T>(x: T, s: seq<T>, stamp: T -> int)
    ensures forall e :: e in Insert(x, s, stamp) ==> e == x || e in s
  {
    if |s| > 0 && stamp(s[0]) > stamp(x) {
      InsertMembers(x, s[1..], stamp);
      assert forall e :: e in s[1..] ==> e in s;
    }
  }

  /** Putting an element no older than any of a newest-first list in front keeps the order. */
  lemma ConsKeepsOrder<T>(h: T, rest: seq<T>, stamp: T -> int)
    requires NewestFirstOrder(rest, stamp)
    requires forall e :: e in rest ==> stamp(e) <= stamp(h)
    ensures NewestFirstOrder([h] + rest, stamp)
  {
    var r := [h] + rest;
    forall i, j | 0 <= i < j < |r| ensures stamp(r[i]) >= stamp(r[j]) {
      assert r[j] == rest[j - 1];
      if i > 0 {
        assert r[i] == rest[i - 1];
      }
    }
  }

  /** `values.sort((a, b) => stamp(b) - stamp(a))`. */
  function NewestFirst<T>(s: seq<T>, stamp: T -> int): (r: seq<T>)
    ensures multiset(r) == multiset(s)
    ensures NewestFirstOrder(r, stamp)
  {
    if |s| == 0 then []
    else
      assert s == [s[0]] + s[1..];
      var rest := NewestFirst(s[1..], stamp);
      InsertKeepsOrder(s[0], rest, stamp);
      Insert(s[0], rest, stamp)
  }

  /** Inserting moves `x` only past elements with a different, greater stamp. */
  lemma {:induction false} InsertStable<T>(x: T, s: seq<T>, stamp: T -> int, t: int)
    ensures StampedAt(Insert(x, s, stamp), stamp, t)
         == if stamp(x) == t then [x] + StampedAt(s, stamp, t) else StampedAt(s, stamp, t)
  {
    if |s| == 0 {
    } else if stamp(s[0]) <= stamp(x) {
      assert ([x] + s)[1..] == s;
    } else {
      var rest := Insert(x, s[1..], stamp);
      assert ([s[0]] + rest)[1..] == rest;
      InsertStable(x, s[1..], stamp, t);
    }
  }

  /** The sort is stable: for every time stamp, the records carrying it appear in the
      result in the same relative order as in the input. */
  lemma {:induction false} NewestFirstStable<T>(s: seq<T>, stamp: T -> int, t: int)
    ensures StampedAt(NewestFirst(s, stamp), stamp, t) == StampedAt(s, stamp, t)
  {
    if |s| > 0 {
      NewestFirstStable(s[1..], stamp, t);
      InsertStable(s[0], NewestFirst(s[1..], stamp), stamp, t);
    }
  }

  /** Stability, for every time stamp at once. */
  lemma NewestFirstStableAll<T>(s: seq<T>, stamp: T -> int)
    ensures forall t :: StampedAt(NewestFirst(s, stamp), stamp, t) == StampedAt(s, stamp, t)
  {
    forall t ensures StampedAt(NewestFirst(s, stamp), stamp, t) == StampedAt(s, stamp, t) {
      NewestFirstStable(s, stamp, t);
    }
  }

  /** A record strictly newer than all others in the list comes first once sorted: the
      record just created is the head of the next `getAll`. */
  lemma NewestComesFirst<T>(s: seq<T>, x: T, stamp: T -> int)
    requires forall e :: e in s ==> stamp(e) < stamp(x)
    ensures NewestFirst(s + [x], stamp)[0] == x
  {
    var r := NewestFirst(s + [x], stamp);
    assert x in multiset(r) by { assert x in multiset(s + [x]); }
    var j :| 0 <= j < |r| && r[j] == x;
    var h := r[0];
    assert h in multiset(s + [x]);
    assert h in s + [x];
  }
}
