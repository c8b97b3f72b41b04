/** A JavaScript `Map<string, T>`: a dictionary that also remembers the order in which its
    keys were first inserted, which is the order `keys()` and `values()` yield them in. */
module JsMap {
  import opened Options
  import opened Seqs

  datatype Dict<T(==,!new)> = Dict(keys: seq<string>, entries: map<string, T>) {

    /** The key list has no duplicates and holds exactly the keys of the entries. */
    ghost predicate Valid() {
      NoDuplicates(keys) && forall k :: k in entries <==> k in keys
    }

    /** `m.get(k)`. */
    function Get(k: string): (r: Option<T>)
      ensures r.Some? <==> k in entries
      ensures r.Some? ==> r.value == entries[k]
    {
      if k in entries then Some(entries[k]) else None
    }

    /** `m.set(k, v)`: a new key goes to the end of the order, an existing one keeps its place. */
    function Set(k: string, v: T): (d: Dict<T>)
      ensures Valid() ==> d.Valid()
      ensures d.Get(k) == Some(v)
      ensures forall k' :: k' != k ==> d.Get(k') == Get(k')
      ensures k in entries ==> d.keys == keys
      ensures k !in entries ==> d.keys == keys + [k]
    {
      var ks := if k in entries then keys else keys + [k];
      var d := Dict(ks, entries[k := v]);
      assert Valid() ==> d.Valid() by {
        if Valid() && k !in entries {
          forall i, j | 0 <= i < j < |ks| ensures ks[i] != ks[j] {
            if j == |keys| { assert ks[i] in keys; }
          }
        }
      }
      d
    }

    /** The key sequence without `k`. */
    static function Without(ks: seq<string>, k: string): (r: seq<string>)
      ensures forall x :: x in r <==> x in ks && x != k
      ensures NoDuplicates(ks) ==> NoDuplicates(r)
      ensures IsSubsequence(r, ks)
    {
      var r := Filter(ks, x => x != k);
      assert NoDuplicates(ks) ==> NoDuplicates(r) by {
        if NoDuplicates(ks) { SubsequenceNoDuplicates(r, ks); }
      }
      r
    }

    /** `m.has(k)`, which is also what `m.delete(k)` returns. */
    function Has(k: string): (r: bool)
      ensures r <==> Get(k).Some?
    {
      k in entries
    }

    /** The map after `m.delete(k)`. */
    function Delete(k: string): (d: Dict<T>)
      ensures Valid() ==> d.Valid()
      ensures d.Get(k) == None
      ensures forall k' :: k' != k ==> d.Get(k') == Get(k')
      ensures d.keys == Without(keys, k)
      ensures !Has(k) && Valid() ==> d == this
    {
      var d := Dict(Without(keys, k), entries - {k});
      assert !Has(k) && Valid() ==> d == this by {
        if !Has(k) && Valid() {
          FilterKeepsAll(keys, x => x != k);
        }
      }
      d
    }

    /** `Array.from(m.values())`: the entries in key order. */
    function Values(): (r: seq<T>)
      requires Valid()
      ensures |r| == |keys| == |entries|
      ensures forall i :: 0 <= i < |keys| ==> r[i] == entries[keys[i]]
      ensures forall v :: v in r <==> v in entries.Values
    {
      assert entries.Keys == set x | x in keys;
      DistinctCardinality(keys);
      var r := ValuesOf(keys, entries);
      assert forall v :: v in entries.Values ==> v in r by {
        forall v | v in entries.Values ensures v in r {
          var k :| k in entries && entries[k] == v;
          var i :| 0 <= i < |keys| && keys[i] == k;
          assert r[i] == v;
        }
      }
      r
    }

    /** The values stored under `ks`, in that order. */
    static function ValuesOf(ks: seq<string>, m: map<string, T>): (r: seq<T>)
      requires forall k :: k in ks ==> k in m
      ensures |r| == |ks|
      ensures forall i :: 0 <= i < |ks| ==> r[i] == m[ks[i]]
    {
      if |ks| == 0 then []
      else ValuesOf(ks[..|ks| - 1], m) + [m[ks[|ks| - 1]]]
    }

    /** `new Map()`. */
    static function Empty(): (d: Dict<T>)
      ensures d.Valid() && d.keys == [] && d.Values() == []
      ensures forall k :: d.Get(k) == None
    {
      Dict([], map[])
    }
  }

  /** A subsequence of a sequence without duplicates has none either. */
  lemma {:induction false} SubsequenceNoDuplicates<T>(r: seq<T>, s: seq<T>)
    requires IsSubsequence(r, s) && NoDuplicates(s)
    ensures NoDuplicates(r)
    decreases |s|
  {
    if |r| > 0 {
      var s' := s[1..];
      assert NoDuplicates(s') by {
        forall i, j | 0 <= i < j < |s'| ensures s'[i] != s'[j] {
          assert s'[i] == s[i + 1] && s'[j] == s[j + 1];
        }
      }
      if r[0] == s[0] && IsSubsequence(r[1..], s') {
        SubsequenceNoDuplicates(r[1..], s');
        SubsequenceMembers(r[1..], s');
        assert s[0] !in s' by {
          forall i | 0 <= i < |s'| ensures s'[i] != s[0] { assert s'[i] == s[i + 1]; }
        }
        forall i, j | 0 <= i < j < |r| ensures r[i] != r[j] {
          assert r[j] == r[1..][j - 1];
          if i > 0 { assert r[i] == r[1..][i - 1]; }
        }
      } else {
        SubsequenceNoDuplicates(r, s');
      }
    }
  }

  /** Every element of a subsequence is an element of the sequence. */
  lemma {:induction false} SubsequenceMembers<T>(r: seq<T>, s: seq<T>)
    requires IsSubsequence(r, s)
    ensures forall x :: x in r ==> x in s
    decreases |s|
  {
    if |r| > 0 {
      if r[0] == s[0] && IsSubsequence(r[1..], s[1..]) {
        SubsequenceMembers(r[1..], s[1..]);
        assert forall x :: x in r ==> x == r[0] || x in r[1..];
      } else {
        SubsequenceMembers(r, s[1..]);
      }
    }
  }

  /** The values under a subsequence of the keys are a subsequence of the values. */
  lemma {:induction false} ValuesOfSubsequence<T(!new)>(r: seq<string>, ks: seq<string>, m: map<string, T>)
    requires IsSubsequence(r, ks) && forall k :: k in ks ==> k in m
    ensures forall k :: k in r ==> k in m
    ensures IsSubsequence(Dict<T>.ValuesOf(r, m), Dict<T>.ValuesOf(ks, m))
    decreases |ks|
  {
    SubsequenceMembers(r, ks);
    if |r| > 0 {
      var vs := Dict<T>.ValuesOf(ks, m);
      assert vs[1..] == Dict<T>.ValuesOf(ks[1..], m);
      if r[0] == ks[0] && IsSubsequence(r[1..], ks[1..]) {
        ValuesOfSubsequence(r[1..], ks[1..], m);
        assert Dict<T>.ValuesOf(r, m)[1..] == Dict<T>.ValuesOf(r[1..], m);
      } else {
        ValuesOfSubsequence(r, ks[1..], m);
      }
    }
  }

  /** `m.delete(k)` drops at most one value from `values()` and keeps the others in their order. */
  lemma ValuesAfterDelete<T(!new)>(d: Dict<T>, k: string)
    requires d.Valid()
    ensures IsSubsequence(d.Delete(k).Values(), d.Values())
  {
    var d' := d.Delete(k);
    assert d'.Valid();
    ValuesOfSubsequence(d'.keys, d.keys, d.entries);
    var vs := Dict<T>.ValuesOf(d'.keys, d.entries);
    forall i | 0 <= i < |d'.keys| ensures d'.Values()[i] == vs[i] {
      assert d'.keys[i] in d'.entries;
    }
    assert d.Values() == Dict<T>.ValuesOf(d.keys, d.entries);
    assert d'.Values() == vs;
  }

  /** Adding a new key appends its value to `values()`. */
  lemma ValuesAfterAdd<T(!new)>(d: Dict<T>, k: string, v: T)
    requires d.Valid() && k !in d.entries
    ensures d.Set(k, v).Values() == d.Values() + [v]
  {
    var m := d.entries[k := v];
    var ks := d.keys + [k];
    assert ks[..|ks| - 1] == d.keys;
    assert Dict<T>.ValuesOf(ks, m) == Dict<T>.ValuesOf(d.keys, m) + [v];
    ValuesOfUnaffected(d.keys, d.entries, k, v);
  }

  /** Storing under a key outside `ks` does not change the values under `ks`. */
  lemma ValuesOfUnaffected<T(!new)>(ks: seq<string>, m: map<string, T>, k: string, v: T)
    requires forall x :: x in ks ==> x in m
    requires k !in ks
    ensures Dict<T>.ValuesOf(ks, m[k := v]) == Dict<T>.ValuesOf(ks, m)
  {
    var a, b := Dict<T>.ValuesOf(ks, m[k := v]), Dict<T>.ValuesOf(ks, m);
    forall i | 0 <= i < |ks| ensures a[i] == b[i] {
      assert ks[i] != k;
    }
  }
}
