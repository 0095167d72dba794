/**
 Sequence utilities shared by the artifact model and both schedulers:
 an Option type, sums and counts, an order-preserving filter, numpy-style
 first-wins argmax/argmin, the stable descending ranking that Python's
 `sorted(..., reverse=True)` produces, and Python's string ordering.
 */
module Seqs {

  /** The conventional Some/None datatype, standing in for Python's `None`. */
  datatype Option<+T> = None | Some(value: T)

  function Sum(s: seq<real>): real
  {
    if |s| == 0 then 0.0 else s[0] + Sum(s[1..])
  }

  /** Number of `true` entries, i.e. the sum of a list of 0/1 draws. */
  function Count(bits: seq<bool>): (n: nat)
    ensures n <= |bits|
  {
    if |bits| == 0 then 0 else (if bits[0] then 1 else 0) + Count(bits[1..])
  }

  /** `a` is `b` with some elements dropped and the rest kept in order. */
  predicate IsSubseq<T(==)>(a: seq<T>, b: seq<T>)
    decreases |b|
  {
    |a| == 0 || (|b| > 0 && ((a[0] == b[0] && IsSubseq(a[1..], b[1..])) || IsSubseq(a, b[1..])))
  }

  /** A list comprehension `[x for x in s if p(x)]`. */
  function Filter<T(==,!new)>(s: seq<T>, p: T -> bool): (r: seq<T>)
    ensures |r| <= |s|
    ensures forall x :: x in r <==> x in s && p(x)
    ensures forall x :: multiset(r)[x] == if p(x) then multiset(s)[x] else 0
    ensures IsSubseq(r, s)
  {
    if |s| == 0 then []
    else
      var rest := Filter(s[1..], p);
      assert s == [s[0]] + s[1..];
      if p(s[0]) then [s[0]] + rest else rest
  }

  /** The filter of a non-empty sequence: its head if kept, then the filter of the rest. */
  lemma FilterHead<T(!new)>(s: seq<T>, p: T -> bool)
    requires |s| > 0
    ensures Filter(s, p) == (if p(s[0]) then [s[0]] else []) + Filter(s[1..], p)
  {
  }

  lemma {:induction false} FilterIdempotent<T(!new)>(s: seq<T>, p: T -> bool)
    ensures Filter(Filter(s, p), p) == Filter(s, p)
  {
    if |s| > 0 {
      FilterIdempotent(s[1..], p);
      var rest := Filter(s[1..], p);
      if p(s[0]) {
        assert ([s[0]] + rest)[1..] == rest;
      }
    }
  }

  lemma {:induction false} FilterAppend<T(!new)>(s: seq<T>, t: seq<T>, p: T -> bool)
    ensures Filter(s + t, p) == Filter(s, p) + Filter(t, p)
  {
    if |s| > 0 {
      assert (s + t)[1..] == s[1..] + t;
      FilterAppend(s[1..], t, p);
    } else {
      assert s + t == t;
    }
  }

  lemma AppendAssoc<T>(a: seq<T>, b: seq<T>, c: seq<T>)
    ensures (a + b) + c == a + (b + c)
  {
  }

  /** Filtering one more element of a prefix appends it exactly when it passes. */
  lemma FilterPrefixNext<T(!new)>(s: seq<T>, i: nat, p: T -> bool)
    requires i < |s|
    ensures Filter(s[..i + 1], p) == Filter(s[..i], p) + (if p(s[i]) then [s[i]] else [])
  {
    var x := s[i];
    assert s[..i + 1] == s[..i] + [x];
    FilterAppend(s[..i], [x], p);
    assert Filter([x], p) == if p(x) then [x] else [] by {
      FilterHead([x], p);
      assert [x][1..] == [];
    }
  }

  /** An element that fails the test leaves the filtered prefix as it was. */
  lemma FilterPrefixSkip<T(!new)>(s: seq<T>, i: nat, p: T -> bool)
    requires i < |s| && !p(s[i])
    ensures Filter(s[..i + 1], p) == Filter(s[..i], p)
  {
    FilterPrefixNext(s, i, p);
  }

  /** Sequences that are permutations of each other hold the same elements. */
  lemma SameMembers<T>(s: seq<T>, t: seq<T>)
    requires multiset(s) == multiset(t)
    ensures forall x :: x in s <==> x in t
  {
    forall x
      ensures x in s <==> x in t
    {
      assert x in s <==> x in multiset(s);
      assert x in t <==> x in multiset(t);
    }
  }

  /** numpy's `argmax`: the first index holding the greatest value. */
  function ArgMaxFirst(s: seq<real>): (k: nat)
    requires |s| > 0
    ensures k < |s|
    ensures forall i :: 0 <= i < |s| ==> s[i] <= s[k]
    ensures forall i :: 0 <= i < k ==> s[i] < s[k]
  {
    if |s| == 1 then 0
    else
      var k := ArgMaxFirst(s[..|s| - 1]);
      if s[|s| - 1] > s[k] then |s| - 1 else k
  }

  /** numpy's `argmin` and Python's `min(d, key=d.get)`: the first index holding the least value. */
  function ArgMinFirst(s: seq<real>): (k: nat)
    requires |s| > 0
    ensures k < |s|
    ensures forall i :: 0 <= i < |s| ==> s[k] <= s[i]
    ensures forall i :: 0 <= i < k ==> s[k] < s[i]
  {
    if |s| == 1 then 0
    else
      var k := ArgMinFirst(s[..|s| - 1]);
      if s[|s| - 1] < s[k] then |s| - 1 else k
  }

  /** Replacing one entry changes the sum by the difference. */
  lemma {:induction false} SumUpdate(s: seq<real>, k: nat, v: real)
    requires k < |s|
    ensures Sum(s[k := v]) == Sum(s) - s[k] + v
  {
    if k > 0 {
      assert s[k := v][1..] == s[1..][k - 1 := v];
      SumUpdate(s[1..], k - 1, v);
    }
  }

  /** `c - s` elementwise, numpy's broadcast subtraction from a scalar. */
  function SubFrom(c: real, s: seq<real>): (r: seq<real>)
    ensures |r| == |s|
    ensures forall i :: 0 <= i < |s| ==> r[i] == c - s[i]
  {
    seq(|s|, i requires 0 <= i < |s| => c - s[i])
  }

  /** `free - scores` elementwise. */
  function Diff(free: seq<real>, scores: seq<real>): (d: seq<real>)
    requires |free| == |scores|
    ensures |d| == |scores|
    ensures forall i :: 0 <= i < |d| ==> d[i] == free[i] - scores[i]
  {
    seq(|scores|, i requires 0 <= i < |scores| => free[i] - scores[i])
  }

  /** `argmax(c - s)` is the first position of the least entry of `s`. */
  lemma ArgMaxOfGapIsArgMin(c: real, s: seq<real>)
    requires |s| > 0
    ensures ArgMaxFirst(SubFrom(c, s)) == ArgMinFirst(s)
  {
    var d := SubFrom(c, s);
    var k := ArgMinFirst(s);
    assert forall i :: 0 <= i < |s| ==> d[i] <= d[k];
    assert forall i :: 0 <= i < k ==> d[i] < d[k];
    ArgMaxFirstUnique(d, k);
  }

  /** The first index meeting both extremal conditions is unique. */
  lemma ArgMaxFirstUnique(s: seq<real>, k: nat)
    requires k < |s|
    requires forall i :: 0 <= i < |s| ==> s[i] <= s[k]
    requires forall i :: 0 <= i < k ==> s[i] < s[k]
    ensures ArgMaxFirst(s) == k
  {
    var m := ArgMaxFirst(s);
    assert s[m] <= s[k] && s[k] <= s[m];
  }

  // ---------------------------------------------------------------------
  // Stable descending ranking

  /**
   Index `a` comes before index `b` in a stable descending sort by `keys`:
   a greater key first, equal keys in their original order.
   */
  predicate Before(keys: seq<real>, a: nat, b: nat)
    requires a < |keys| && b < |keys|
  {
    keys[a] > keys[b] || (keys[a] == keys[b] && a < b)
  }

  predicate RankedDesc(keys: seq<real>, r: seq<nat>)
  {
    && (forall i :: 0 <= i < |r| ==> r[i] < |keys|)
    && (forall i, j :: 0 <= i < j < |r| ==> Before(keys, r[i], r[j]))
  }

  function Insert(keys: seq<real>, x: nat, r: seq<nat>): (out: seq<nat>)
    requires x < |keys| && x !in r
    requires RankedDesc(keys, r)
    ensures RankedDesc(keys, out)
    ensures |out| == |r| + 1
    ensures forall y :: y in out <==> y == x || y in r
  {
    if |r| == 0 then [x]
    else if Before(keys, x, r[0]) then [x] + r
    else
      var rest := Insert(keys, x, r[1..]);
      assert forall y :: y in r <==> y == r[0] || y in r[1..] by {
        assert r == [r[0]] + r[1..];
      }
      assert forall j :: 0 <= j < |rest| ==> Before(keys, r[0], rest[j]) by {
        forall j | 0 <= j < |rest|
          ensures Before(keys, r[0], rest[j])
        {
          if rest[j] != x {
            assert rest[j] in r[1..];
            var p :| 0 <= p < |r[1..]| && r[1..][p] == rest[j];
            assert r[p + 1] == rest[j];
          }
        }
      }
      [r[0]] + rest
  }

  function RankFirst(keys: seq<real>, n: nat): (r: seq<nat>)
    requires n <= |keys|
    ensures RankedDesc(keys, r)
    ensures |r| == n
    ensures forall y: nat :: y in r <==> y < n
  {
    if n == 0 then []
    else
      var prev := RankFirst(keys, n - 1);
      var r := Insert(keys, n - 1, prev);
      assert forall y: nat :: y in r <==> y == n - 1 || y < n - 1;
      r
  }

  /**
   The indices of `keys` in the order `sorted(range(len(keys)), key=keys.__getitem__,
   reverse=True)` lists them.
   */
  function Ranking(keys: seq<real>): (r: seq<nat>)
    ensures RankedDesc(keys, r)
    ensures |r| == |keys|
    ensures forall y: nat :: y in r <==> y < |keys|
  {
    RankFirst(keys, |keys|)
  }

  /** `[s[i] for i in idx]`: `s` read in the order `idx` lists its positions. */
  function Permute<T>(s: seq<T>, idx: seq<nat>): (r: seq<T>)
    requires forall i :: 0 <= i < |idx| ==> idx[i] < |s|
    ensures |r| == |idx|
    ensures forall i :: 0 <= i < |idx| ==> r[i] == s[idx[i]]
  {
    seq(|idx|, i requires 0 <= i < |idx| => s[idx[i]])
  }

  /** Inserting position `x` into a ranking adds `s[x]` to the elements it reads. */
  lemma {:induction false} InsertPermutes<T>(keys: seq<real>, x: nat, r: seq<nat>, s: seq<T>)
    requires |s| == |keys|
    requires x < |keys| && x !in r && RankedDesc(keys, r)
    ensures multiset(Permute(s, Insert(keys, x, r))) == multiset(Permute(s, r)) + multiset{s[x]}
    decreases |r|, 1
  {
    if |r| == 0 {
      assert Permute(s, [x]) == [s[x]];
    } else if Before(keys, x, r[0]) {
      PermuteCons(s, x, r);
    } else {
      InsertPermutesPast(keys, x, r, s);
    }
  }

  /** The case where `x` goes after the head of the ranking. */
  lemma {:induction false} InsertPermutesPast<T>(keys: seq<real>, x: nat, r: seq<nat>, s: seq<T>)
    requires |s| == |keys|
    requires x < |keys| && x !in r && RankedDesc(keys, r)
    requires |r| > 0 && !Before(keys, x, r[0])
    ensures multiset(Permute(s, Insert(keys, x, r))) == multiset(Permute(s, r)) + multiset{s[x]}
    decreases |r|, 0
  {
    var t := r[1..];
    RankedTail(keys, r);
    InsertPermutes(keys, x, t, s);
    var rest := Insert(keys, x, t);
    assert Insert(keys, x, r) == [r[0]] + rest;
    PermuteCons(s, r[0], rest);
    assert r == [r[0]] + t;
    PermuteCons(s, r[0], t);
  }

  lemma PermuteCons<T>(s: seq<T>, h: nat, t: seq<nat>)
    requires h < |s| && forall i :: 0 <= i < |t| ==> t[i] < |s|
    ensures Permute(s, [h] + t) == [s[h]] + Permute(s, t)
  {
  }

  lemma RankedTail(keys: seq<real>, r: seq<nat>)
    requires |r| > 0 && RankedDesc(keys, r)
    ensures RankedDesc(keys, r[1..])
    ensures forall y :: y in r[1..] ==> y in r
  {
    var t := r[1..];
    forall i, j | 0 <= i < j < |t|
      ensures Before(keys, t[i], t[j])
    {
      assert t[i] == r[i + 1] && t[j] == r[j + 1];
    }
  }

  /** Ranking one more position reads one more element. */
  lemma RankFirstStep<T>(keys: seq<real>, s: seq<T>, n: nat)
    requires |s| == |keys| && 0 < n <= |keys|
    ensures multiset(Permute(s, RankFirst(keys, n))) == multiset(Permute(s, RankFirst(keys, n - 1))) + multiset{s[n - 1]}
  {
    var prev := RankFirst(keys, n - 1);
    assert n - 1 !in prev;
    InsertPermutes(keys, n - 1, prev, s);
  }

  lemma {:induction false} RankFirstPermutes<T>(keys: seq<real>, s: seq<T>, n: nat)
    requires |s| == |keys| && n <= |keys|
    ensures multiset(Permute(s, RankFirst(keys, n))) == multiset(s[..n])
  {
    if n > 0 {
      RankFirstPermutes(keys, s, n - 1);
      RankFirstStep(keys, s, n);
      PrefixSnoc(s, n);
    }
  }

  lemma PrefixSnoc<T>(s: seq<T>, n: nat)
    requires 0 < n <= |s|
    ensures multiset(s[..n]) == multiset(s[..n - 1]) + multiset{s[n - 1]}
  {
    assert s[..n] == s[..n - 1] + [s[n - 1]];
  }

  /**
   Reading `s` in the order of the stable descending ranking of `keys` is a
   permutation of `s`: `sorted(s, key=..., reverse=True)` keeps every element.
   */
  lemma RankingPermutes<T>(keys: seq<real>, s: seq<T>)
    requires |s| == |keys|
    ensures multiset(Permute(s, Ranking(keys))) == multiset(s)
  {
    RankFirstPermutes(keys, s, |keys|);
    assert s[..|keys|] == s;
  }

  /** The head of the stable descending ranking is numpy's `argmax`. */
  lemma RankingHeadIsArgMax(keys: seq<real>)
    requires |keys| > 0
    ensures Ranking(keys)[0] == ArgMaxFirst(keys)
  {
    var r := Ranking(keys);
    var k := r[0];
    forall i | 0 <= i < |keys| && i != k
      ensures keys[i] < keys[k] || (keys[i] == keys[k] && k < i)
    {
      assert i in r;
      var p :| 0 <= p < |r| && r[p] == i;
      assert p != 0;
      assert Before(keys, r[0], r[p]);
    }
    ArgMaxFirstUnique(keys, k);
  }

  // ---------------------------------------------------------------------
  // Python string ordering

  /** Python's `a < b` on `str`: code-point lexicographic order. */
  predicate LexLess(a: string, b: string)
  {
    |b| > 0 && (|a| == 0 || a[0] < b[0] || (a[0] == b[0] && LexLess(a[1..], b[1..])))
  }

  lemma {:induction false} LexLessIrreflexive(a: string)
    ensures !LexLess(a, a)
  {
    if |a| > 0 {
      LexLessIrreflexive(a[1..]);
    }
  }

  lemma {:induction false} LexLessTransitive(a: string, b: string, c: string)
    requires LexLess(a, b) && LexLess(b, c)
    ensures LexLess(a, c)
  {
    if |a| > 0 && a[0] == b[0] && b[0] == c[0] {
      LexLessTransitive(a[1..], b[1..], c[1..]);
    }
  }
}
