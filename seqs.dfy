/** Array helpers shared by the model: `Array.prototype.filter`, `includes` and `find`. */
module Seqs {

  /** No element occurs twice. */
  predicate NoDuplicates<T(==)>(s: seq<T>) {
    forall i, j :: 0 <= i < j < |s| ==> s[i] != s[j]
  }

  /** `s.filter(keep)`: the elements satisfying `keep`, in their original order. */
  function Filter<T(!new)>(s: seq<T>, keep: T -> bool): (r: seq<T>)
    ensures |r| <= |s|
    ensures forall x :: x in r <==> x in s && keep(x)
  {
    if s == [] then []
    else if keep(s[0]) then [s[0]] + Filter(s[1..], keep)
    else Filter(s[1..], keep)
  }

  /** Filtering distributes over concatenation, so the kept elements keep their relative order. */
  lemma {:induction false} FilterConcat<T(!new)>(s: seq<T>, t: seq<T>, keep: T -> bool)
    ensures Filter(s + t, keep) == Filter(s, keep) + Filter(t, keep)
  {
    if s == [] {
      assert s + t == t;
    } else {
      assert (s + t)[1..] == s[1..] + t;
      FilterConcat(s[1..], t, keep);
    }
  }

  /** A filter that keeps every element is the identity. */
  lemma {:induction false} FilterKeepsAll<T(!new)>(s: seq<T>, keep: T -> bool)
    requires forall x :: x in s ==> keep(x)
    ensures Filter(s, keep) == s
  {
    if s != [] {
      FilterKeepsAll(s[1..], keep);
    }
  }

  /** Filtering a duplicate-free sequence leaves it duplicate-free. */
  lemma {:induction false} FilterNoDuplicates<T(!new)>(s: seq<T>, keep: T -> bool)
    requires NoDuplicates(s)
    ensures NoDuplicates(Filter(s, keep))
  {
    if s != [] {
      FilterNoDuplicates(s[1..], keep);
      assert s[0] !in s[1..];
    }
  }

  /** `s.filter(x => x !== v)`: every occurrence of `v` removed. */
  function RemoveAll<T(==,!new)>(s: seq<T>, v: T): (r: seq<T>)
    ensures v !in r
    ensures forall x :: x in r <==> x in s && x != v
    ensures |r| == |s| - multiset(s)[v]
  {
    if s == [] then []
    else if s[0] == v then
      assert s == [s[0]] + s[1..];
      RemoveAll(s[1..], v)
    else
      assert s == [s[0]] + s[1..];
      [s[0]] + RemoveAll(s[1..], v)
  }

  /** Removing a value from a sequence that does not hold it changes nothing. */
  lemma {:induction false} RemoveAbsent<T(!new)>(s: seq<T>, v: T)
    requires v !in s
    ensures RemoveAll(s, v) == s
  {
    if s != [] {
      RemoveAbsent(s[1..], v);
    }
  }

  /** Removal distributes over concatenation. */
  lemma {:induction false} RemoveAllConcat<T(!new)>(s: seq<T>, t: seq<T>, v: T)
    ensures RemoveAll(s + t, v) == RemoveAll(s, v) + RemoveAll(t, v)
  {
    if s == [] {
      assert s + t == t;
    } else {
      assert (s + t)[1..] == s[1..] + t;
      RemoveAllConcat(s[1..], t, v);
    }
  }

  /** Removing a value from a duplicate-free sequence leaves it duplicate-free. */
  lemma {:induction false} RemoveNoDuplicates<T(!new)>(s: seq<T>, v: T)
    requires NoDuplicates(s)
    ensures NoDuplicates(RemoveAll(s, v))
  {
    if s != [] {
      RemoveNoDuplicates(s[1..], v);
      assert s[0] !in s[1..];
    }
  }

  /** Index of the first element satisfying `p` (`findIndex`), or `|s|` when there is none. */
  function FirstIndex<T>(s: seq<T>, p: T -> bool): (i: nat)
    ensures i <= |s|
    ensures i < |s| ==> p(s[i])
    ensures forall k :: 0 <= k < i ==> !p(s[k])
  {
    if s == [] then 0
    else if p(s[0]) then 0
    else 1 + FirstIndex(s[1..], p)
  }

  /** `s.map(f)`. */
  function Map<T, U>(s: seq<T>, f: T -> U): (r: seq<U>)
    ensures |r| == |s|
    ensures forall i :: 0 <= i < |s| ==> r[i] == f(s[i])
  {
    seq(|s|, i requires 0 <= i < |s| => f(s[i]))
  }

  /** `Array.from(m.values())`, where `keys` lists the map's keys in insertion order. */
  function Values<K(!new), V(!new)>(keys: seq<K>, m: map<K, V>): (r: seq<V>)
    ensures |r| <= |keys|
    ensures forall k :: k in keys && k in m ==> m[k] in r
    ensures forall v :: v in r ==> exists k :: k in keys && k in m && m[k] == v
    ensures (forall k :: k in keys ==> k in m) ==>
              |r| == |keys| && forall i :: 0 <= i < |keys| ==> r[i] == m[keys[i]]
  {
    if keys == [] then []
    else (if keys[0] in m then [m[keys[0]]] else []) + Values(keys[1..], m)
  }

  /** `s.reverse()` on a copy. */
  function Reverse<T>(s: seq<T>): (r: seq<T>)
    ensures |r| == |s|
    ensures forall i :: 0 <= i < |s| ==> r[i] == s[|s| - 1 - i]
  {
    if s == [] then [] else Reverse(s[1..]) + [s[0]]
  }
}
