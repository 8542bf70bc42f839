/**
 * Generic sequence operations that mirror the JavaScript array methods the
 * triage pipeline uses (`filter`, `slice(0, n)`), together with an
 * order-preserving subsequence relation used to state "keeps store order".
 */
module Seqs {

  /** `a` can be obtained from `b` by deleting elements (greedy match from the end). */
  predicate IsSubseq<T(==)>(a: seq<T>, b: seq<T>)
    decreases |b|
  {
    if |a| == 0 then true
    else if |b| == 0 then false
    else if a[|a| - 1] == b[|b| - 1] then IsSubseq(a[..|a| - 1], b[..|b| - 1])
    else IsSubseq(a, b[..|b| - 1])
  }

  /** No element occurs twice. */
  predicate NoDuplicates<T(==)>(s: seq<T>) {
    forall i, j :: 0 <= i < j < |s| ==> s[i] != s[j]
  }

  function Min(a: int, b: int): int {
    if a <= b then a else b
  }

  /** `array.filter(p)`: the elements satisfying `p`, in their original order. */
  function Filter<T>(s: seq<T>, p: T -> bool): (r: seq<T>)
    ensures |r| <= |s|
    decreases |s|
  {
    if |s| == 0 then []
    else
      var init := s[..|s| - 1];
      Filter(init, p) + (if p(s[|s| - 1]) then [s[|s| - 1]] else [])
  }

  /** The filter keeps exactly the elements that satisfy the predicate. */
  lemma {:induction false} FilterMembers<T(!new)>(s: seq<T>, p: T -> bool)
    ensures forall x :: x in Filter(s, p) <==> x in s && p(x)
    decreases |s|
  {
    if |s| > 0 {
      var init, last := s[..|s| - 1], s[|s| - 1];
      FilterMembers(init, p);
      assert s == init + [last];
      assert Filter(s, p) == Filter(init, p) + (if p(last) then [last] else []);
    }
  }

  /** `array.slice(0, n)`: at most the first `n` elements. */
  function Take<T>(s: seq<T>, n: nat): (r: seq<T>)
    ensures |r| == Min(n, |s|)
    ensures forall i :: 0 <= i < |r| ==> r[i] == s[i]
  {
    if n <= |s| then s[..n] else s
  }

  lemma {:induction false} SubseqSnoc<T>(a: seq<T>, b: seq<T>, x: T)
    requires IsSubseq(a, b)
    ensures IsSubseq(a, b + [x])
    decreases |b|, 1
  {
    var b' := b + [x];
    assert b'[..|b'| - 1] == b;
    if |a| > 0 && a[|a| - 1] == x {
      SubseqDropLast(a, b);
    }
  }

  lemma {:induction false} SubseqDropLast<T>(a: seq<T>, b: seq<T>)
    requires |a| > 0 && IsSubseq(a, b)
    ensures IsSubseq(a[..|a| - 1], b)
    decreases |b|, 0
  {
    var a', b' := a[..|a| - 1], b[..|b| - 1];
    assert b == b' + [b[|b| - 1]];
    if a[|a| - 1] == b[|b| - 1] {
      SubseqSnoc(a', b', b[|b| - 1]);
    } else {
      SubseqDropLast(a, b');
      SubseqSnoc(a', b', b[|b| - 1]);
    }
  }

  /** Every prefix of a subsequence is a subsequence. */
  lemma {:induction false} SubseqPrefix<T>(a: seq<T>, b: seq<T>, n: nat)
    requires IsSubseq(a, b) && n <= |a|
    ensures IsSubseq(a[..n], b)
    decreases |a| - n
  {
    if n < |a| {
      SubseqDropLast(a, b);
      assert a[..|a| - 1][..n] == a[..n];
      SubseqPrefix(a[..|a| - 1], b, n);
    } else {
      assert a[..n] == a;
    }
  }

  /** A subsequence only holds elements of the sequence it came from. */
  lemma {:induction false} SubseqMembers<T>(a: seq<T>, b: seq<T>)
    requires IsSubseq(a, b)
    ensures forall x :: x in a ==> x in b
    decreases |b|
  {
    if |a| > 0 {
      var b' := b[..|b| - 1];
      assert b == b' + [b[|b| - 1]];
      if a[|a| - 1] == b[|b| - 1] {
        SubseqMembers(a[..|a| - 1], b');
        assert a == a[..|a| - 1] + [a[|a| - 1]];
      } else {
        SubseqMembers(a, b');
      }
    }
  }

  /** A filter keeps the original order: its result is a subsequence of its input. */
  lemma {:induction false} FilterIsSubseq<T(!new)>(s: seq<T>, p: T -> bool)
    ensures IsSubseq(Filter(s, p), s)
    decreases |s|
  {
    if |s| > 0 {
      var init := s[..|s| - 1];
      var last := s[|s| - 1];
      FilterIsSubseq(init, p);
      if p(last) {
        var r := Filter(s, p);
        assert r == Filter(init, p) + [last];
        assert r[..|r| - 1] == Filter(init, p);
      } else {
        assert Filter(s, p) == Filter(init, p);
        SubseqSnoc(Filter(init, p), init, last);
        assert init + [last] == s;
      }
    }
  }

  /** Filtering twice is filtering once by the conjunction. */
  lemma {:induction false} FilterFilter<T(!new)>(s: seq<T>, p: T -> bool, q: T -> bool, pq: T -> bool)
    requires forall x :: pq(x) == (p(x) && q(x))
    ensures Filter(Filter(s, p), q) == Filter(s, pq)
    decreases |s|
  {
    if |s| > 0 {
      var init := s[..|s| - 1];
      var last := s[|s| - 1];
      FilterFilter(init, p, q, pq);
      var fp := Filter(s, p);
      if p(last) {
        assert fp == Filter(init, p) + [last];
        assert fp[..|fp| - 1] == Filter(init, p);
      } else {
        assert fp == Filter(init, p);
      }
    }
  }

  /** A filter whose predicate holds of every element keeps everything. */
  lemma {:induction false} FilterAll<T(!new)>(s: seq<T>, p: T -> bool)
    requires forall i :: 0 <= i < |s| ==> p(s[i])
    ensures Filter(s, p) == s
    decreases |s|
  {
    if |s| > 0 {
      var init, last := s[..|s| - 1], s[|s| - 1];
      assert forall i :: 0 <= i < |init| ==> init[i] == s[i];
      FilterAll(init, p);
      assert p(last);
      assert s == init + [last];
    }
  }

  /** Two predicates that agree on the elements give the same filter. */
  lemma {:induction false} FilterCongruent<T(!new)>(s: seq<T>, p: T -> bool, q: T -> bool)
    requires forall x :: x in s ==> p(x) == q(x)
    ensures Filter(s, p) == Filter(s, q)
    decreases |s|
  {
    if |s| > 0 {
      var init := s[..|s| - 1];
      assert forall x :: x in init ==> x in s;
      FilterCongruent(init, p, q);
    }
  }

  /** `[x]` when `condition` holds, nothing otherwise: one conditional `push`. */
  /**
   * After a leading block `a`, a block whose elements all have key `kb`
   * followed by one whose elements all have key `kc`: past `a` every key is
   * one of the two, and none of `kb` comes after one of `kc`.
   */
  lemma BlocksInOrder<T, K>(a: seq<T>, b: seq<T>, c: seq<T>, key: T -> K, kb: K, kc: K)
    requires kb != kc
    requires forall x | x in b :: key(x) == kb
    requires forall x | x in c :: key(x) == kc
    ensures forall i | |a| <= i < |a + b + c| :: key((a + b + c)[i]) == kb || key((a + b + c)[i]) == kc
    ensures forall i, j | |a| <= i < j < |a + b + c| && key((a + b + c)[i]) == kc :: key((a + b + c)[j]) == kc
  {
    var r := a + b + c;
    forall i | |a| <= i < |r|
      ensures key(r[i]) == (if i < |a| + |b| then kb else kc)
    {
      if i < |a| + |b| {
        assert r[i] == b[i - |a|];
      } else {
        assert r[i] == c[i - |a| - |b|];
      }
    }
  }

  function OnlyIf<T>(condition: bool, x: T): seq<T> {
    if condition then [x] else []
  }

  /** Appending a conditional element on both sides keeps the subsequence relation. */
  lemma SubseqOnlyIf<T>(a: seq<T>, b: seq<T>, condition: bool, x: T)
    requires IsSubseq(a, b)
    ensures IsSubseq(a + OnlyIf(condition, x), b + [x])
  {
    if condition {
      var a' := a + [x];
      var b' := b + [x];
      assert a'[..|a'| - 1] == a;
      assert b'[..|b'| - 1] == b;
    } else {
      assert a + OnlyIf(condition, x) == a;
      SubseqSnoc(a, b, x);
    }
  }

  /**
   * The elements of `xs` whose matching condition holds, in order: a run of
   * conditional `push`es, one per element.
   */
  function Select<T(==)>(conds: seq<bool>, xs: seq<T>): (r: seq<T>)
    requires |conds| == |xs|
    ensures IsSubseq(r, xs)
    decreases |xs|
  {
    if |xs| == 0 then []
    else
      var n := |xs| - 1;
      var init := Select(conds[..n], xs[..n]);
      SubseqOnlyIf(init, xs[..n], conds[n], xs[n]);
      assert xs[..n] + [xs[n]] == xs;
      init + OnlyIf(conds[n], xs[n])
  }

  /** Among distinct elements, each is selected exactly when its own condition holds. */
  lemma {:induction false} SelectMember<T>(conds: seq<bool>, xs: seq<T>, i: int)
    requires |conds| == |xs| && NoDuplicates(xs) && 0 <= i < |xs|
    ensures xs[i] in Select(conds, xs) <==> conds[i]
    decreases |xs|
  {
    var n := |xs| - 1;
    var init := Select(conds[..n], xs[..n]);
    assert Select(conds, xs) == init + OnlyIf(conds[n], xs[n]);
    SubseqMembers(init, xs[..n]);
    if i < n {
      assert NoDuplicates(xs[..n]);
      SelectMember(conds[..n], xs[..n], i);
      assert xs[i] != xs[n];
    } else {
      assert xs[n] !in xs[..n];
    }
  }

  /** A subsequence of a sequence without duplicates has none either. */
  lemma {:induction false} SubseqNoDuplicates<T>(a: seq<T>, b: seq<T>)
    requires IsSubseq(a, b) && NoDuplicates(b)
    ensures NoDuplicates(a)
    decreases |b|
  {
    if |a| > 0 {
      var a', b' := a[..|a| - 1], b[..|b| - 1];
      assert NoDuplicates(b');
      if a[|a| - 1] == b[|b| - 1] {
        SubseqNoDuplicates(a', b');
        SubseqMembers(a', b');
        assert b[|b| - 1] !in b';
        assert a == a' + [a[|a| - 1]];
      } else {
        SubseqNoDuplicates(a, b');
      }
    }
  }

  /** In a sequence without duplicates, each member occurs exactly once. */
  lemma {:induction false} NoDuplicatesOnce<T>(s: seq<T>, x: T)
    requires NoDuplicates(s) && x in s
    ensures multiset(s)[x] == 1
    decreases |s|
  {
    var init := s[..|s| - 1];
    assert s == init + [s[|s| - 1]];
    assert NoDuplicates(init);
    if s[|s| - 1] == x {
      assert x !in init;
    } else {
      NoDuplicatesOnce(init, x);
    }
  }
}
