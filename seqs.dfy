/** Generic sequence operations the views are built from: JavaScript's
    `Array.prototype.filter`, a stable `sort` driven by a "may come first"
    relation, and `slice(0, k)`. */
module Seqs {

  /** `a` is an order-preserving subsequence of `b`: `a` is obtained from `b`
      by deleting elements. */
  ghost predicate Subsequence<T>(a: seq<T>, b: seq<T>)
    decreases |b|
  {
    |a| == 0 || (|b| > 0 && ((a[0] == b[0] && Subsequence(a[1..], b[1..])) || Subsequence(a, b[1..])))
  }

  lemma {:induction false} SubsequenceOfItself<T>(s: seq<T>)
    ensures Subsequence(s, s)
  {
    if |s| > 0 {
      SubsequenceOfItself(s[1..]);
    }
  }

  /** `filter(p)`: the elements that satisfy `p`, in their original order. */
  function Filter<T(!new)>(s: seq<T>, p: T -> bool): (r: seq<T>)
    ensures |r| <= |s|
    ensures forall x :: x in r <==> x in s && p(x)
    ensures Subsequence(r, s)
    ensures (forall i :: 0 <= i < |s| ==> p(s[i])) ==> r == s
  {
    if |s| == 0 then []
    else if p(s[0]) then [s[0]] + Filter(s[1..], p)
    else Filter(s[1..], p)
  }

  lemma {:induction false} FilterConcat<T(!new)>(a: seq<T>, b: seq<T>, p: T -> bool)
    ensures Filter(a + b, p) == Filter(a, p) + Filter(b, p)
  {
    if |a| > 0 {
      assert (a + b)[1..] == a[1..] + b;
      FilterConcat(a[1..], b, p);
    } else {
      assert a + b == b;
    }
  }

  /** Filtering keeps every occurrence of a kept element: the multiset of the
      result is the multiset of the input restricted to `p`. */
  lemma {:induction false} FilterCount<T(!new)>(s: seq<T>, p: T -> bool, x: T)
    ensures multiset(Filter(s, p))[x] == if p(x) then multiset(s)[x] else 0
  {
    if |s| > 0 {
      FilterCount(s[1..], p, x);
      assert s == [s[0]] + s[1..];
    }
  }

  /** `map`: `f` applied to every element, in order. */
  function Map<A, B>(s: seq<A>, f: A -> B): (r: seq<B>)
    ensures |r| == |s|
    ensures forall i :: 0 <= i < |s| ==> r[i] == f(s[i])
  {
    if |s| == 0 then [] else [f(s[0])] + Map(s[1..], f)
  }

  lemma {:induction false} MapConcat<A, B>(a: seq<A>, b: seq<A>, f: A -> B)
    ensures Map(a + b, f) == Map(a, f) + Map(b, f)
  {
    if |a| > 0 {
      assert (a + b)[1..] == a[1..] + b;
      MapConcat(a[1..], b, f);
    } else {
      assert a + b == b;
    }
  }

  /** `slice(0, k)`: the first `k` elements, or all of them when there are fewer. */
  function Take<T>(s: seq<T>, k: nat): (r: seq<T>)
    ensures |r| == if |s| < k then |s| else k
    ensures forall i :: 0 <= i < |r| ==> r[i] == s[i]
  {
    if |s| <= k then s else s[..k]
  }

  /** `before` can drive a sort: it relates every pair one way or the other
      and is transitive (a total preorder). */
  ghost predicate TotalPreorder<T(!new)>(before: (T, T) -> bool)
  {
    && (forall a, b :: before(a, b) || before(b, a))
    && (forall a, b, c :: before(a, b) && before(b, c) ==> before(a, c))
  }

  /** Every element may come before every later one. */
  ghost predicate SortedBy<T>(s: seq<T>, before: (T, T) -> bool)
  {
    forall i, j :: 0 <= i < j < |s| ==> before(s[i], s[j])
  }

  /** Inserts `x` ahead of the first element it may come before; elements
      that tie with `x` stay behind it. */
  function Insert<T>(x: T, s: seq<T>, before: (T, T) -> bool): (r: seq<T>)
    ensures |r| == |s| + 1
    ensures multiset(r) == multiset(s) + multiset{x}
  {
    if |s| == 0 || before(x, s[0]) then [x] + s
    else
      assert s == [s[0]] + s[1..];
      [s[0]] + Insert(x, s[1..], before)
  }

  /** A stable sort, as JavaScript's `sort` is: each element is inserted, from
      the back, in front of every element it ties with, so ties keep their
      original relative order. */
  function SortBy<T>(s: seq<T>, before: (T, T) -> bool): (r: seq<T>)
    ensures |r| == |s|
    ensures multiset(r) == multiset(s)
  {
    if |s| == 0 then []
    else
      assert s == [s[0]] + s[1..];
      Insert(s[0], SortBy(s[1..], before), before)
  }

  lemma {:induction false} InsertSorted<T(!new)>(x: T, s: seq<T>, before: (T, T) -> bool)
    requires TotalPreorder(before)
    requires SortedBy(s, before)
    ensures SortedBy(Insert(x, s, before), before)
  {
    if |s| == 0 || before(x, s[0]) {
    } else {
      var rest := Insert(x, s[1..], before);
      InsertSorted(x, s[1..], before);
      assert before(s[0], x);
      forall j | 0 <= j < |rest| ensures before(s[0], rest[j]) {
        assert rest[j] in multiset(rest);
        assert rest[j] == x || rest[j] in multiset(s[1..]);
        if rest[j] != x {
          var k :| 0 <= k < |s[1..]| && s[1..][k] == rest[j];
          assert s[k + 1] == rest[j];
        }
      }
    }
  }

  /** The result of `SortBy` is ordered by `before`; with `multiset(r) ==
      multiset(s)` from its contract, it is a sorted permutation. */
  lemma {:induction false} SortBySorted<T(!new)>(s: seq<T>, before: (T, T) -> bool)
    requires TotalPreorder(before)
    ensures SortedBy(SortBy(s, before), before)
  {
    if |s| > 0 {
      SortBySorted(s[1..], before);
      InsertSorted(s[0], SortBy(s[1..], before), before);
    }
  }

  lemma TakeIsPrefix<T>(s: seq<T>, k: nat)
    ensures multiset(Take(s, k)) <= multiset(s)
    ensures s == Take(s, k) + s[|Take(s, k)|..]
  {
    assert s == s[..|Take(s, k)|] + s[|Take(s, k)|..];
  }

  /** The best `k` of `s`: a stable sort of a copy, then `slice(0, k)`. */
  function TopK<T>(s: seq<T>, before: (T, T) -> bool, k: nat): seq<T>
  {
    Take(SortBy(s, before), k)
  }

  /** In a sorted list every element of a prefix comes before every element
      of the rest. */
  lemma PrefixPrecedesRest<T>(r: seq<T>, rest: seq<T>, before: (T, T) -> bool)
    requires SortedBy(r + rest, before)
    ensures forall x, y :: x in r && y in rest ==> before(x, y)
  {
    forall x, y | x in r && y in rest ensures before(x, y) {
      var i :| 0 <= i < |r| && r[i] == x;
      var j :| 0 <= j < |rest| && rest[j] == y;
      assert (r + rest)[i] == x && (r + rest)[|r| + j] == y;
    }
  }

  /** A top-`k` list holds `min(k, |s|)` elements drawn from `s`, in `before`
      order, and no element left out may come strictly before a kept one: an
      element some of whose copies were left out comes after every kept one. */
  lemma TopKIsTop<T(!new)>(s: seq<T>, before: (T, T) -> bool, k: nat)
    requires TotalPreorder(before)
    ensures |TopK(s, before, k)| == if |s| < k then |s| else k
    ensures multiset(TopK(s, before, k)) <= multiset(s)
    ensures SortedBy(TopK(s, before, k), before)
    ensures forall x, y ::
              (x in TopK(s, before, k) && y in s && multiset(TopK(s, before, k))[y] < multiset(s)[y])
              ==> before(x, y)
  {
    var sorted := SortBy(s, before);
    var r := TopK(s, before, k);
    SortBySorted(s, before);
    TakeIsPrefix(sorted, k);
    var rest := sorted[|r|..];
    assert sorted == r + rest;
    assert multiset(sorted) == multiset(r) + multiset(rest);
    PrefixPrecedesRest(r, rest, before);
    forall x, y | x in r && y in s && multiset(r)[y] < multiset(s)[y] ensures before(x, y) {
      assert y in multiset(rest);
    }
  }

  /** Sums of a numeric projection: `reduce((sum, x) => sum + f(x), 0)`. */
  function SumReal<T>(s: seq<T>, f: T -> real): real
  {
    if |s| == 0 then 0.0 else f(s[0]) + SumReal(s[1..], f)
  }

  function SumNat<T>(s: seq<T>, f: T -> nat): nat
  {
    if |s| == 0 then 0 else f(s[0]) + SumNat(s[1..], f)
  }

  lemma {:induction false} SumNatConcat<T>(a: seq<T>, b: seq<T>, f: T -> nat)
    ensures SumNat(a + b, f) == SumNat(a, f) + SumNat(b, f)
  {
    if |a| > 0 {
      assert (a + b)[1..] == a[1..] + b;
      SumNatConcat(a[1..], b, f);
    } else {
      assert a + b == b;
    }
  }

  /** The concatenation of a sequence of sequences (`flat()`). */
  function Flatten<T>(ss: seq<seq<T>>): (r: seq<T>)
  {
    if |ss| == 0 then [] else ss[0] + Flatten(ss[1..])
  }

  lemma {:induction false} FlattenLength<T>(ss: seq<seq<T>>)
    ensures |Flatten(ss)| == SumNat(ss, (s: seq<T>) => |s|)
  {
    if |ss| > 0 {
      FlattenLength(ss[1..]);
    }
  }
}
