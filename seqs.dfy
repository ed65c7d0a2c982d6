/** Sequence helpers standing for the array methods the source uses: filter, map, reduce, and the
    ORM's `orderBy` on a numeric column. */
module Seqs {

  /** The elements of `s` that satisfy `p`, in their original order (`Array.prototype.filter`). */
  function Filter<T(==,!new)>(s: seq<T>, p: T -> bool): (r: seq<T>)
    ensures |r| <= |s|
    ensures forall i :: 0 <= i < |r| ==> p(r[i]) && r[i] in s
  {
    if s == [] then []
    else
      var rest := Filter(s[1..], p);
      assert forall i :: 0 <= i < |rest| ==> rest[i] in s[1..];
      if p(s[0]) then [s[0]] + rest else rest
  }

  /** Each element occurs in the filtered sequence as often as in `s` when it passes, else never. */
  lemma {:induction false} FilterMultiset<T(!new)>(s: seq<T>, p: T -> bool)
    ensures forall x :: multiset(Filter(s, p))[x] == if p(x) then multiset(s)[x] else 0
  {
    if s != [] {
      FilterMultiset(s[1..], p);
      assert s == [s[0]] + s[1..];
    }
  }

  lemma FilterMember<T(!new)>(s: seq<T>, p: T -> bool)
    ensures forall x :: x in Filter(s, p) <==> x in s && p(x)
  {
    var r := Filter(s, p);
    FilterMultiset(s, p);
    forall x ensures x in r <==> x in s && p(x) {
      assert x in r <==> x in multiset(r);
      assert x in s <==> x in multiset(s);
    }
  }

  /** Filtering a concatenation: the multiset of survivors is the sum of both sides' survivors. */
  lemma FilterConcatMultiset<T(!new)>(a: seq<T>, b: seq<T>, p: T -> bool)
    ensures multiset(Filter(a + b, p)) == multiset(Filter(a, p)) + multiset(Filter(b, p))
  {
    var l, r1, r2 := Filter(a + b, p), Filter(a, p), Filter(b, p);
    FilterMultiset(a + b, p);
    FilterMultiset(a, p);
    FilterMultiset(b, p);
    assert multiset(a + b) == multiset(a) + multiset(b);
    forall x ensures multiset(l)[x] == (multiset(r1) + multiset(r2))[x] {
    }
  }

  /** A filter every element passes keeps the sequence. */
  lemma {:induction false} FilterAll<T(!new)>(s: seq<T>, p: T -> bool)
    requires forall i :: 0 <= i < |s| ==> p(s[i])
    ensures Filter(s, p) == s
  {
    if s != [] {
      assert forall i :: 1 <= i < |s| ==> s[1..][i - 1] == s[i];
      FilterAll(s[1..], p);
      assert s == [s[0]] + s[1..];
    }
  }

  /** A filter no element passes leaves nothing. */
  lemma {:induction false} FilterNone<T(!new)>(s: seq<T>, p: T -> bool)
    requires forall i :: 0 <= i < |s| ==> !p(s[i])
    ensures Filter(s, p) == []
  {
    if s != [] {
      assert forall i :: 1 <= i < |s| ==> s[1..][i - 1] == s[i];
      FilterNone(s[1..], p);
    }
  }

  /** `f` applied to each element, in order (`Array.prototype.map`). */
  function Map<A, B>(s: seq<A>, f: A -> B): (r: seq<B>)
    ensures |r| == |s|
    ensures forall i :: 0 <= i < |s| ==> r[i] == f(s[i])
  {
    if s == [] then [] else [f(s[0])] + Map(s[1..], f)
  }

  /** A reduce-to-sum: the integer sum of `f` over `s`, 0 for none. */
  function Sum<T>(s: seq<T>, f: T -> int): int {
    if s == [] then 0 else f(s[0]) + Sum(s[1..], f)
  }

  /** Reference sum: `f` summed over the elements that satisfy `p`, the rest counting 0. */
  function SumWhere<T>(s: seq<T>, p: T -> bool, f: T -> int): int {
    if s == [] then 0 else (if p(s[0]) then f(s[0]) else 0) + SumWhere(s[1..], p, f)
  }

  function Both<T>(p: T -> bool, q: T -> bool): T -> bool {
    x => p(x) && q(x)
  }

  function Either<T>(p: T -> bool, q: T -> bool): T -> bool {
    x => p(x) || q(x)
  }

  function One<T>(x: T): int { 1 }

  /** Filtering and then summing is summing over the elements that pass the filter. */
  lemma {:induction false} FilterSum<T(!new)>(s: seq<T>, p: T -> bool, f: T -> int)
    ensures Sum(Filter(s, p), f) == SumWhere(s, p, f)
  {
    if s != [] {
      FilterSum(s[1..], p, f);
      var rest := Filter(s[1..], p);
      if p(s[0]) {
        assert ([s[0]] + rest)[1..] == rest;
      }
    }
  }

  /** The length of a filtered sequence counts the elements that pass. */
  lemma {:induction false} FilterLength<T(!new)>(s: seq<T>, p: T -> bool)
    ensures |Filter(s, p)| == SumWhere(s, p, One)
  {
    if s != [] {
      FilterLength(s[1..], p);
    }
  }

  /** A condition over a filtered sequence is the conjunction of both conditions over the original. */
  lemma {:induction false} SumWhereFilter<T(!new)>(s: seq<T>, p: T -> bool, q: T -> bool, f: T -> int)
    ensures SumWhere(Filter(s, p), q, f) == SumWhere(s, Both(p, q), f)
  {
    if s != [] {
      SumWhereFilter(s[1..], p, q, f);
      var rest := Filter(s[1..], p);
      if p(s[0]) {
        assert ([s[0]] + rest)[1..] == rest;
      }
    }
  }

  lemma {:induction false} SumWhereExt<T>(s: seq<T>, p: T -> bool, q: T -> bool, f: T -> int)
    requires forall x :: p(x) == q(x)
    ensures SumWhere(s, p, f) == SumWhere(s, q, f)
  {
    if s != [] {
      SumWhereExt(s[1..], p, q, f);
    }
  }

  /** Sums over two disjoint conditions add up to the sum over their union. */
  lemma {:induction false} SumWhereSplit<T>(s: seq<T>, p: T -> bool, q: T -> bool, f: T -> int)
    requires forall x :: !(p(x) && q(x))
    ensures SumWhere(s, p, f) + SumWhere(s, q, f) == SumWhere(s, Either(p, q), f)
  {
    if s != [] {
      SumWhereSplit(s[1..], p, q, f);
    }
  }

  lemma {:induction false} SumWhereConcat<T>(a: seq<T>, b: seq<T>, p: T -> bool, f: T -> int)
    ensures SumWhere(a + b, p, f) == SumWhere(a, p, f) + SumWhere(b, p, f)
  {
    if a == [] {
      assert a + b == b;
    } else {
      assert (a + b)[1..] == a[1..] + b;
      SumWhereConcat(a[1..], b, p, f);
    }
  }

  lemma {:induction false} SumConcat<T>(a: seq<T>, b: seq<T>, f: T -> int)
    ensures Sum(a + b, f) == Sum(a, f) + Sum(b, f)
  {
    if a == [] {
      assert a + b == b;
    } else {
      assert (a + b)[1..] == a[1..] + b;
      SumConcat(a[1..], b, f);
    }
  }

  /** A non-empty sequence is its front followed by its last element. */
  lemma SplitLast<T>(s: seq<T>)
    requires s != []
    ensures s == s[..|s| - 1] + [s[|s| - 1]]
  {
  }

  lemma ConcatAssoc<T>(a: seq<T>, b: seq<T>, c: seq<T>)
    ensures (a + b) + c == a + (b + c)
  {
  }

  lemma SumSingleton<T>(x: T, f: T -> int)
    ensures Sum([x], f) == f(x)
  {
    assert [x][1..] == [];
  }

  lemma RemoveAtMultiset<T>(t: seq<T>, j: nat)
    requires j < |t|
    ensures multiset(t[..j] + t[j + 1..]) == multiset(t) - multiset{t[j]}
  {
    assert t == t[..j] + [t[j]] + t[j + 1..];
  }

  lemma TailMultiset<T>(s: seq<T>)
    requires s != []
    ensures multiset(s[1..]) == multiset(s) - multiset{s[0]}
  {
    assert s == [s[0]] + s[1..];
  }

  /** A reduce-to-sum does not depend on the order of the elements. */
  lemma {:induction false} SumPermutation<T>(s: seq<T>, t: seq<T>, f: T -> int)
    requires multiset(s) == multiset(t)
    ensures Sum(s, f) == Sum(t, f)
  {
    if s == [] {
      assert |t| == |multiset(t)| == 0;
    } else {
      var x := s[0];
      assert x in multiset(t);
      var j :| 0 <= j < |t| && t[j] == x;
      var rest := t[..j] + t[j + 1..];
      RemoveAtMultiset(t, j);
      TailMultiset(s);
      SumPermutation(s[1..], rest, f);
      assert Sum(t, f) == Sum(rest, f) + f(x) by {
        assert t == t[..j] + [x] + t[j + 1..];
        SumConcat(t[..j] + [x], t[j + 1..], f);
        SumConcat(t[..j], [x], f);
        SumConcat(t[..j], t[j + 1..], f);
        SumSingleton(x, f);
      }
    }
  }

  /** Ordered by `key`, largest first (the ORM's `orderBy: { column: 'desc' }`). */
  predicate SortedDesc<T>(s: seq<T>, key: T -> int) {
    forall i, j :: 0 <= i < j < |s| ==> key(s[i]) >= key(s[j])
  }

  /** Every element of `rest` is at most `bound` when `rest` holds `x` and the elements of `tail`,
      all of them at most `bound`. */
  lemma AllAtMost<T>(bound: int, rest: seq<T>, tail: seq<T>, x: T, key: T -> int)
    requires multiset(rest) == multiset(tail) + multiset{x}
    requires forall k :: 0 <= k < |tail| ==> key(tail[k]) <= bound
    requires key(x) <= bound
    ensures forall k :: 0 <= k < |rest| ==> key(rest[k]) <= bound
  {
    forall k | 0 <= k < |rest| ensures key(rest[k]) <= bound {
      assert rest[k] in multiset(rest);
      if rest[k] != x {
        assert rest[k] in multiset(tail);
        var m :| 0 <= m < |tail| && tail[m] == rest[k];
      }
    }
  }

  /** A sorted sequence stays sorted with a head no smaller than any of its elements in front. */
  lemma SortedCons<T>(h: T, rest: seq<T>, key: T -> int)
    requires SortedDesc(rest, key)
    requires forall k :: 0 <= k < |rest| ==> key(rest[k]) <= key(h)
    ensures SortedDesc([h] + rest, key)
  {
    var r := [h] + rest;
    forall i, j | 0 <= i < j < |r| ensures key(r[i]) >= key(r[j]) {
      assert r[j] == rest[j - 1];
      if i > 0 { assert r[i] == rest[i - 1]; }
    }
  }

  function InsertDesc<T(==)>(x: T, s: seq<T>, key: T -> int): (r: seq<T>)
    requires SortedDesc(s, key)
    ensures SortedDesc(r, key)
    ensures multiset(r) == multiset(s) + multiset{x}
  {
    if s == [] then [x]
    else if key(x) >= key(s[0]) then
      assert forall k :: 0 <= k < |s| ==> key(s[k]) <= key(s[0]);
      SortedCons(x, s, key);
      [x] + s
    else
      var rest := InsertDesc(x, s[1..], key);
      assert s == [s[0]] + s[1..];
      assert forall k :: 0 <= k < |s[1..]| ==> s[1..][k] == s[k + 1];
      AllAtMost(key(s[0]), rest, s[1..], x, key);
      SortedCons(s[0], rest, key);
      [s[0]] + rest
  }

  /** The elements of `s` ordered by `key`, largest first. */
  function SortDesc<T(==)>(s: seq<T>, key: T -> int): (r: seq<T>)
    ensures SortedDesc(r, key)
    ensures multiset(r) == multiset(s)
  {
    if s == [] then []
    else
      assert s == [s[0]] + s[1..];
      InsertDesc(s[0], SortDesc(s[1..], key), key)
  }
}
