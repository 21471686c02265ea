/** The Swift collection operations the views are built from: `filter`,
    `first(where:)` / `firstIndex(where:)`, `prefix` and `sorted(by:)`. */
module Sequences {
  import opened Options

  /** `s.filter(p)`: the elements satisfying `p`, in their original order. */
  function Filter<T(!new)>(s: seq<T>, p: T -> bool): (r: seq<T>)
    ensures |r| <= |s|
    ensures forall x {:trigger multiset(r)[x]} :: multiset(r)[x] == if p(x) then multiset(s)[x] else 0
    ensures forall x {:trigger x in r} :: x in r <==> x in s && p(x)
  {
    if s == [] then []
    else
      assert s == [s[0]] + s[1..];
      (if p(s[0]) then [s[0]] else []) + Filter(s[1..], p)
  }

  /** Filtering distributes over concatenation; with `FilterSingleton` this
      pins down the order of the result, not just its elements. */
  lemma {:induction false} FilterConcat<T(!new)>(a: seq<T>, b: seq<T>, p: T -> bool)
    ensures Filter(a + b, p) == Filter(a, p) + Filter(b, p)
  {
    if a == [] {
      assert a + b == b;
    } else {
      var head := if p(a[0]) then [a[0]] else [];
      assert (a + b)[0] == a[0];
      assert (a + b)[1..] == a[1..] + b;
      FilterConcat(a[1..], b, p);
      calc {
        Filter(a + b, p);
        head + Filter(a[1..] + b, p);
        head + (Filter(a[1..], p) + Filter(b, p));
        (head + Filter(a[1..], p)) + Filter(b, p);
        Filter(a, p) + Filter(b, p);
      }
    }
  }

  lemma FilterSingleton<T(!new)>(x: T, p: T -> bool)
    ensures Filter([x], p) == if p(x) then [x] else []
  {
    assert [x][1..] == [];
  }

  /** Two filters with disjoint predicates select at most |s| elements together. */
  lemma {:induction false} FilterDisjointCount<T(!new)>(s: seq<T>, p: T -> bool, q: T -> bool)
    requires forall x :: !(p(x) && q(x))
    ensures |Filter(s, p)| + |Filter(s, q)| <= |s|
  {
    if s != [] {
      FilterDisjointCount(s[1..], p, q);
    }
  }

  /** `s.firstIndex(where: p)`. */
  function FirstIndex<T>(s: seq<T>, p: T -> bool): (r: Option<nat>)
    ensures r.Some? ==> r.value < |s| && p(s[r.value]) && forall j :: 0 <= j < r.value ==> !p(s[j])
    ensures r.None? <==> forall j :: 0 <= j < |s| ==> !p(s[j])
  {
    if s == [] then None
    else if p(s[0]) then Some(0)
    else match FirstIndex(s[1..], p)
      case None => None
      case Some(i) => Some(i + 1)
  }

  /** `s.prefix(n)`. */
  function Prefix<T>(s: seq<T>, n: nat): (r: seq<T>)
    ensures |r| == if n < |s| then n else |s|
    ensures r <= s
  {
    if n < |s| then s[..n] else s
  }

  /** How a comparator `$0.key < $1.key` (ascending) or `$0.key > $1.key`
      (descending) lets two neighbours stand in a sorted result. */
  predicate Precedes(x: int, y: int, descending: bool) {
    if descending then x >= y else x <= y
  }

  ghost predicate SortedBy<T>(s: seq<T>, key: T -> int, descending: bool) {
    forall i, j :: 0 <= i < j < |s| ==> Precedes(key(s[i]), key(s[j]), descending)
  }

  function InsertBy<T>(x: T, s: seq<T>, key: T -> int, descending: bool): (r: seq<T>)
    ensures multiset(r) == multiset(s) + multiset{x}
  {
    if s == [] then [x]
    else if Precedes(key(x), key(s[0]), descending) then [x] + s
    else
      assert s == [s[0]] + s[1..];
      [s[0]] + InsertBy(x, s[1..], key, descending)
  }

  lemma {:induction false} InsertBySorted<T>(x: T, s: seq<T>, key: T -> int, descending: bool)
    requires SortedBy(s, key, descending)
    ensures SortedBy(InsertBy(x, s, key, descending), key, descending)
  {
    if s != [] && !Precedes(key(x), key(s[0]), descending) {
      var rest := InsertBy(x, s[1..], key, descending);
      InsertBySorted(x, s[1..], key, descending);
      forall y | y in rest ensures Precedes(key(s[0]), key(y), descending) {
        assert y in multiset(rest);
        assert y == x || y in s[1..];
        if y != x {
          var k :| 0 <= k < |s[1..]| && s[1..][k] == y;
          assert s[k + 1] == y;
        }
      }
      var r := [s[0]] + rest;
      forall i, j | 0 <= i < j < |r| ensures Precedes(key(r[i]), key(r[j]), descending) {
        if i == 0 {
          assert r[j] == rest[j - 1];
          assert r[j] in rest;
        } else {
          assert r[i] == rest[i - 1] && r[j] == rest[j - 1];
        }
      }
    }
  }

  /** The elements whose key is `k`. */
  function KeyIs<T>(key: T -> int, k: int): T -> bool {
    (x: T) => key(x) == k
  }

  /** Inserting `x` puts it before every element with the same key. */
  lemma {:induction false} FilterInsertBy<T(!new)>(x: T, s: seq<T>, key: T -> int, descending: bool, k: int)
    ensures Filter(InsertBy(x, s, key, descending), KeyIs(key, k)) ==
            (if key(x) == k then [x] else []) + Filter(s, KeyIs(key, k))
  {
    var p := KeyIs(key, k);
    FilterSingleton(x, p);
    if s == [] {
      assert [x] == [x] + s;
      FilterConcat([x], s, p);
    } else if Precedes(key(x), key(s[0]), descending) {
      assert InsertBy(x, s, key, descending) == [x] + s;
      FilterConcat([x], s, p);
    } else {
      var rest := InsertBy(x, s[1..], key, descending);
      assert InsertBy(x, s, key, descending) == [s[0]] + rest;
      FilterInsertBy(x, s[1..], key, descending, k);
      assert s == [s[0]] + s[1..];
      FilterPastHead(s[0], rest, s[1..], p, if key(x) == k then [x] else []);
    }
  }

  /** One step of `FilterInsertBy`: an element passed over that the head
      filter does not share commutes with the head. */
  lemma FilterPastHead<T(!new)>(y: T, rest: seq<T>, tail: seq<T>, p: T -> bool, head: seq<T>)
    requires Filter(rest, p) == head + Filter(tail, p)
    requires head == [] || !p(y)
    ensures Filter([y] + rest, p) == head + Filter([y] + tail, p)
  {
    FilterSingleton(y, p);
    FilterConcat([y], rest, p);
    FilterConcat([y], tail, p);
    var first := Filter([y], p);
    assert head == [] || first == [];
    assert first + head == head + first;
  }

  /** `s.sorted(by:)` for a comparison on an integer key: ordered by the key,
      a permutation of the input, and stable (SE-0372): the elements with any
      one key value stand in the result in the order they had in the input. */
  function SortBy<T(!new)>(s: seq<T>, key: T -> int, descending: bool): (r: seq<T>)
    ensures |r| == |s|
    ensures SortedBy(r, key, descending)
    ensures multiset(r) == multiset(s)
    ensures forall k :: Filter(r, KeyIs(key, k)) == Filter(s, KeyIs(key, k))
  {
    if s == [] then []
    else
      assert s == [s[0]] + s[1..];
      var sorted := SortBy(s[1..], key, descending);
      InsertBySorted(s[0], sorted, key, descending);
      var r := InsertBy(s[0], sorted, key, descending);
      assert |r| == |multiset(r)|;
      assert forall k :: Filter(r, KeyIs(key, k)) == Filter(s, KeyIs(key, k)) by {
        forall k ensures Filter(r, KeyIs(key, k)) == Filter(s, KeyIs(key, k)) {
          FilterInsertBy(s[0], sorted, key, descending, k);
        }
      }
      r
  }

  /** Filtering a prefix gives a prefix of the filtered sequence. */
  lemma FilterPrefix<T(!new)>(s: seq<T>, n: nat, p: T -> bool)
    ensures Filter(Prefix(s, n), p) <= Filter(s, p)
  {
    if n < |s| {
      assert s == s[..n] + s[n..];
      FilterConcat(s[..n], s[n..], p);
    }
  }

  /** In a sorted sequence the head is an extreme element. */
  lemma SortedHeadIsExtreme<T>(s: seq<T>, key: T -> int, descending: bool, x: T)
    requires SortedBy(s, key, descending)
    requires x in s
    ensures Precedes(key(s[0]), key(x), descending)
  {
    var j :| 0 <= j < |s| && s[j] == x;
    if j > 0 {
      assert Precedes(key(s[0]), key(s[j]), descending);
    }
  }

  /** A permutation of a sequence without repeated elements has none either. */
  lemma DistinctUnderPermutation<T>(a: seq<T>, b: seq<T>)
    requires multiset(a) == multiset(b)
    requires forall i, j :: 0 <= i < j < |a| ==> a[i] != a[j]
    ensures forall i, j :: 0 <= i < j < |b| ==> b[i] != b[j]
  {
    forall i, j | 0 <= i < j < |b|
      ensures b[i] != b[j]
    {
      assert b[i] in multiset(a);
      var k :| 0 <= k < |a| && a[k] == b[i];
      MultiplicityOfDistinct(a, k);
      MultiplicityAtLeastTwo(b, i, j);
    }
  }

  lemma {:induction false} MultiplicityAtLeastTwo<T>(s: seq<T>, i: nat, j: nat)
    requires i < j < |s|
    ensures s[i] == s[j] ==> multiset(s)[s[i]] >= 2
  {
    assert s == s[..i] + [s[i]] + s[i + 1..j] + [s[j]] + s[j + 1..];
  }

  lemma {:induction false} MultiplicityOfDistinct<T>(s: seq<T>, k: nat)
    requires k < |s|
    requires forall i, j :: 0 <= i < j < |s| ==> s[i] != s[j]
    ensures multiset(s)[s[k]] == 1
  {
    assert s == s[..k] + [s[k]] + s[k + 1..];
    assert s[k] !in s[..k];
    assert s[k] !in s[k + 1..];
  }

  /** Taking a prefix of a list sorted by descending key keeps the largest keys:
      every kept element ranks at least as high as every dropped one. */
  lemma PrefixDominatesRest<T>(s: seq<T>, key: T -> int, n: nat, x: T, y: T)
    requires SortedBy(s, key, true)
    requires x in Prefix(s, n) && y in s && y !in Prefix(s, n)
    ensures key(x) >= key(y)
  {
    var i :| 0 <= i < |Prefix(s, n)| && Prefix(s, n)[i] == x;
    var j :| 0 <= j < |s| && s[j] == y;
    var p := Prefix(s, n);
    assert forall k :: 0 <= k < |p| ==> p[k] == s[k];
    assert i < |p| <= j;
  }
}
