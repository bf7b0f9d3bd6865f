/** The sequence combinators the Swift code uses: `map`, `compactMap`,
    `filter`, `suffix`, `first(where:)` and a stable sort by an integer key
    (the client-side `sorted { ... }` calls). */
module Seqs {
  import opened Wrappers

  function Map<A, B>(f: A -> B, s: seq<A>): (r: seq<B>)
    ensures |r| == |s|
    ensures forall i :: 0 <= i < |s| ==> r[i] == f(s[i])
  {
    if s == [] then [] else [f(s[0])] + Map(f, s[1..])
  }

  /** `compactMap`: apply `f` and keep the `Some` results, in order. */
  function CompactMap<A, B>(f: A -> Option<B>, s: seq<A>): (r: seq<B>)
    ensures |r| <= |s|
    ensures forall i :: 0 <= i < |r| ==> exists j :: 0 <= j < |s| && f(s[j]) == Some(r[i])
  {
    if s == [] then []
    else
      var rest := CompactMap(f, s[1..]);
      assert forall i :: 0 <= i < |rest| ==> exists j :: 0 <= j < |s| && f(s[j]) == Some(rest[i]) by {
        forall i | 0 <= i < |rest|
          ensures exists j :: 0 <= j < |s| && f(s[j]) == Some(rest[i])
        {
          var j :| 0 <= j < |s[1..]| && f(s[1..][j]) == Some(rest[i]);
          assert f(s[j + 1]) == Some(rest[i]);
        }
      }
      match f(s[0])
      case Some(y) => [y] + rest
      case None => rest
  }

  /** Decoding what was encoded gives back every element, so `compactMap`
      drops nothing. */
  lemma {:induction false} CompactMapOfMap<A, B>(dec: A -> Option<B>, enc: B -> A, xs: seq<B>)
    requires forall i :: 0 <= i < |xs| ==> dec(enc(xs[i])) == Some(xs[i])
    ensures CompactMap(dec, Map(enc, xs)) == xs
  {
    if xs != [] {
      assert Map(enc, xs)[1..] == Map(enc, xs[1..]);
      CompactMapOfMap(dec, enc, xs[1..]);
    }
  }

  /** `compactMap` keeps every element `f` accepts. */
  lemma {:induction false} CompactMapKeeps<A, B>(f: A -> Option<B>, s: seq<A>)
    ensures forall j :: 0 <= j < |s| && f(s[j]).Some? ==> f(s[j]).value in CompactMap(f, s)
  {
    if s != [] {
      CompactMapKeeps(f, s[1..]);
      assert forall j :: 1 <= j < |s| ==> s[j] == s[1..][j - 1];
    }
  }

  /** The number of elements `f` accepts. */
  function CountSome<A, B>(f: A -> Option<B>, s: seq<A>): nat {
    if s == [] then 0 else (if f(s[0]).Some? then 1 else 0) + CountSome(f, s[1..])
  }

  /** `compactMap` keeps exactly the elements `f` accepts. */
  lemma {:induction false} CompactMapCount<A, B>(f: A -> Option<B>, s: seq<A>)
    ensures |CompactMap(f, s)| == CountSome(f, s)
  {
    if s != [] {
      CompactMapCount(f, s[1..]);
    }
  }

  function Filter<T>(p: T -> bool, s: seq<T>): (r: seq<T>)
    ensures |r| <= |s|
    ensures forall i :: 0 <= i < |r| ==> r[i] in s && p(r[i])
    ensures forall i :: 0 <= i < |s| && p(s[i]) ==> s[i] in r
  {
    if s == [] then []
    else (if p(s[0]) then [s[0]] else []) + Filter(p, s[1..])
  }

  /** Mapping distributes over concatenation. */
  lemma MapConcat<A, B>(f: A -> B, a: seq<A>, b: seq<A>)
    ensures Map(f, a + b) == Map(f, a) + Map(f, b)
  {
    var l, r := Map(f, a + b), Map(f, a) + Map(f, b);
    assert |l| == |r|;
    forall i | 0 <= i < |l| ensures l[i] == r[i] {
      if i < |a| { assert (a + b)[i] == a[i]; } else { assert (a + b)[i] == b[i - |a|]; }
    }
  }

  /** Filtering keeps the order: an element added at the end is kept at
      the end exactly when it satisfies the predicate. */
  lemma {:induction false} FilterSnoc<T>(p: T -> bool, s: seq<T>, x: T)
    ensures Filter(p, s + [x]) == Filter(p, s) + (if p(x) then [x] else [])
  {
    if s == [] {
      assert Filter(p, [x]) == (if p(x) then [x] else []) + Filter(p, []);
    } else {
      assert (s + [x])[0] == s[0] && (s + [x])[1..] == s[1..] + [x];
      FilterSnoc(p, s[1..], x);
    }
  }

  /** `Array(s.suffix(n))`: the last `n` elements, or all of them. */
  function Suffix<T>(s: seq<T>, n: nat): (r: seq<T>)
    ensures |r| == if |s| < n then |s| else n
    ensures r == s[|s| - |r|..]
  {
    if |s| > n then s[|s| - n..] else s
  }

  lemma AppendAssoc<T>(a: seq<T>, b: seq<T>, c: seq<T>)
    ensures a + b + c == a + (b + c)
  {
  }

  ghost predicate SortedBy<T>(s: seq<T>, key: T -> int) {
    forall i, j :: 0 <= i < j < |s| ==> key(s[i]) <= key(s[j])
  }

  /** The newest part of a sorted sequence is sorted. */
  lemma SuffixSorted<T>(s: seq<T>, n: nat, key: T -> int)
    requires SortedBy(s, key)
    ensures SortedBy(Suffix(s, n), key)
  {
    var r := Suffix(s, n);
    var off := |s| - |r|;
    forall i, j | 0 <= i < j < |r| ensures key(r[i]) <= key(r[j]) {
      assert r[i] == s[off + i] && r[j] == s[off + j];
    }
  }

  /** Putting an element no larger than any other in front keeps the order. */
  lemma SortedCons<T>(a: T, s: seq<T>, key: T -> int)
    requires SortedBy(s, key)
    requires forall i :: 0 <= i < |s| ==> key(a) <= key(s[i])
    ensures SortedBy([a] + s, key)
  {
    var r := [a] + s;
    forall i, j | 0 <= i < j < |r| ensures key(r[i]) <= key(r[j]) {
      assert r[j] == s[j - 1];
      if 0 < i {
        assert r[i] == s[i - 1];
      }
    }
  }

  /** A bound that holds for `x` and for every element of `s` holds for every
      element of a sequence with the multiset of both. */
  lemma LowerBoundOf<T>(b: int, x: T, s: seq<T>, t: seq<T>, key: T -> int)
    requires b <= key(x)
    requires forall i :: 0 <= i < |s| ==> b <= key(s[i])
    requires multiset(t) == multiset(s) + multiset{x}
    ensures forall i :: 0 <= i < |t| ==> b <= key(t[i])
  {
    forall i | 0 <= i < |t| ensures b <= key(t[i]) {
      assert t[i] in multiset(t);
      if t[i] != x {
        assert t[i] in multiset(s);
        var j :| 0 <= j < |s| && s[j] == t[i];
      }
    }
  }

  /** Inserts `x` into the sorted `s` before the first element whose key is
      not smaller. */
  function Insert<T>(x: T, s: seq<T>, key: T -> int): (r: seq<T>)
    requires SortedBy(s, key)
    ensures SortedBy(r, key)
    ensures multiset(r) == multiset(s) + multiset{x}
    ensures |r| == |s| + 1
  {
    if s == [] || key(x) <= key(s[0]) then
      SortedCons(x, s, key);
      [x] + s
    else
      var tail := s[1..];
      assert s == [s[0]] + tail;
      var rest := Insert(x, tail, key);
      LowerBoundOf(key(s[0]), x, tail, rest, key);
      SortedCons(s[0], rest, key);
      [s[0]] + rest
  }

  /** Sorts by ascending key; elements with equal keys keep their order. */
  function SortBy<T>(s: seq<T>, key: T -> int): (r: seq<T>)
    ensures SortedBy(r, key)
    ensures multiset(r) == multiset(s)
    ensures |r| == |s|
  {
    if s == [] then []
    else
      assert s == [s[0]] + s[1..];
      Insert(s[0], SortBy(s[1..], key), key)
  }
}
