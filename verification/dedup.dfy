/**
 * Order-preserving de-duplication, in the two forms the source uses:
 *  - `UniqueBy(s, key)` is `s.filter((x, i, self) => i === self.findIndex(y => key(y) === key(x)))`:
 *    keep an element exactly when no earlier element has the same key;
 *  - `Distinct(s)` is `[...new Set(s)]`: walk the sequence once, remembering
 *    what has been seen, and emit each value the first time it appears.
 * The two agree: `Distinct`'s first postcondition.
 */
module Dedup {
  import opened Seqs

  /** The keys occurring in `s`. */
  ghost function Keys<T(!new), K>(s: seq<T>, key: T -> K): set<K> {
    set x | x in s :: key(x)
  }

  /** No two elements of `s` share a key. */
  predicate KeysDistinct<T, K(==)>(s: seq<T>, key: T -> K) {
    forall i, j :: 0 <= i < j < |s| ==> key(s[i]) != key(s[j])
  }

  /** `i === s.findIndex(y => key(y) === key(s[i]))`: no earlier element has the key of `s[i]`. */
  predicate IsFirstOfKey<T, K(==)>(s: seq<T>, key: T -> K, i: int)
    requires 0 <= i < |s|
  {
    forall j | 0 <= j < i :: key(s[j]) != key(s[i])
  }

  /** The elements that are the first of their key, in their original order. */
  function UniqueBy<T, K(==)>(s: seq<T>, key: T -> K): seq<T>
    decreases |s|
  {
    if |s| == 0 then []
    else UniqueBy(s[..|s| - 1], key) + (if IsFirstOfKey(s, key, |s| - 1) then [s[|s| - 1]] else [])
  }

  function Identity<T>(x: T): T { x }

  /** `[...new Set(s)]` from the element after the prefix whose values are `seen`. */
  function DistinctFrom<T(==)>(s: seq<T>, seen: set<T>): seq<T>
    decreases |s|
  {
    if |s| == 0 then []
    else if s[0] in seen then DistinctFrom(s[1..], seen)
    else [s[0]] + DistinctFrom(s[1..], seen + {s[0]})
  }

  lemma KeysSnoc<T(!new), K>(s: seq<T>, key: T -> K)
    requires |s| > 0
    ensures Keys(s, key) == Keys(s[..|s| - 1], key) + {key(s[|s| - 1])}
  {
    assert s == s[..|s| - 1] + [s[|s| - 1]];
  }

  lemma KeysAppend<T(!new), K>(a: seq<T>, b: seq<T>, key: T -> K)
    ensures Keys(a + b, key) == Keys(a, key) + Keys(b, key)
  {
    assert forall x :: x in a + b <==> x in a || x in b;
  }

  /** The last element is kept exactly when its key did not occur before it. */
  lemma FirstOfKeyLast<T(!new), K>(s: seq<T>, key: T -> K)
    requires |s| > 0
    ensures IsFirstOfKey(s, key, |s| - 1) <==> key(s[|s| - 1]) !in Keys(s[..|s| - 1], key)
  {
    var init := s[..|s| - 1];
    if key(s[|s| - 1]) in Keys(init, key) {
      var x :| x in init && key(x) == key(s[|s| - 1]);
      var j :| 0 <= j < |init| && init[j] == x;
      assert s[j] == x;
    }
  }

  /** The kept elements have pairwise different keys, and every key of `s` is kept. */
  lemma {:induction false} UniqueByKeys<T(!new), K>(s: seq<T>, key: T -> K)
    ensures KeysDistinct(UniqueBy(s, key), key)
    ensures Keys(UniqueBy(s, key), key) == Keys(s, key)
    decreases |s|
  {
    if |s| > 0 {
      var init := s[..|s| - 1];
      var u := UniqueBy(init, key);
      UniqueByKeys(init, key);
      KeysSnoc(s, key);
      FirstOfKeyLast(s, key);
      if IsFirstOfKey(s, key, |s| - 1) {
        var r := u + [s[|s| - 1]];
        assert UniqueBy(s, key) == r;
        KeysAppend(u, [s[|s| - 1]], key);
        assert forall i :: 0 <= i < |u| ==> key(u[i]) in Keys(u, key);
      } else {
        assert UniqueBy(s, key) == u;
      }
    }
  }

  /** The result keeps the original order: it is a subsequence of `s`. */
  lemma {:induction false} UniqueByIsSubseq<T(!new), K>(s: seq<T>, key: T -> K)
    ensures IsSubseq(UniqueBy(s, key), s)
    decreases |s|
  {
    if |s| > 0 {
      var init := s[..|s| - 1];
      var u := UniqueBy(init, key);
      UniqueByIsSubseq(init, key);
      assert s == init + [s[|s| - 1]];
      if IsFirstOfKey(s, key, |s| - 1) {
        var r := u + [s[|s| - 1]];
        assert r[..|r| - 1] == u;
      } else {
        assert UniqueBy(s, key) == u;
        SubseqSnoc(u, init, s[|s| - 1]);
      }
    }
  }

  /** Each kept element is the first element of `s` with its key. */
  lemma {:induction false} UniqueByKeepsFirst<T(!new), K>(s: seq<T>, key: T -> K)
    ensures forall k, i ::
      0 <= k < |UniqueBy(s, key)| && 0 <= i < |s| && IsFirstOfKey(s, key, i) && key(s[i]) == key(UniqueBy(s, key)[k])
      ==> UniqueBy(s, key)[k] == s[i]
    decreases |s|
  {
    if |s| > 0 {
      var init := s[..|s| - 1];
      var u := UniqueBy(init, key);
      var r := UniqueBy(s, key);
      UniqueByKeepsFirst(init, key);
      UniqueByKeys(init, key);
      KeysSnoc(s, key);
      FirstOfKeyLast(s, key);
      forall k, i | 0 <= k < |r| && 0 <= i < |s| && IsFirstOfKey(s, key, i) && key(s[i]) == key(r[k])
        ensures r[k] == s[i]
      {
        if k < |u| {
          assert r[k] == u[k];
          assert key(u[k]) in Keys(u, key);
          if i < |init| {
            assert IsFirstOfKey(init, key, i);
          }
        } else {
          assert r[k] == s[|s| - 1];
        }
      }
    }
  }

  /** First elements of their keys are kept in their original relative order. */
  lemma {:induction false} UniqueByOrder<T(!new), K>(s: seq<T>, key: T -> K, i: int, j: int)
    requires 0 <= i < j < |s| && IsFirstOfKey(s, key, i) && IsFirstOfKey(s, key, j)
    ensures exists p, q :: 0 <= p < q < |UniqueBy(s, key)| && UniqueBy(s, key)[p] == s[i] && UniqueBy(s, key)[q] == s[j]
    decreases |s|
  {
    var n := |s| - 1;
    var init := s[..n];
    var u := UniqueBy(init, key);
    var r := UniqueBy(s, key);
    assert IsFirstOfKey(init, key, i);
    if j < n {
      assert IsFirstOfKey(init, key, j);
      UniqueByOrder(init, key, i, j);
      var p, q :| 0 <= p < q < |u| && u[p] == init[i] && u[q] == init[j];
      assert r[p] == u[p] && r[q] == u[q];
      assert 0 <= p < q < |r| && r[p] == s[i] && r[q] == s[j];
    } else {
      assert r == u + [s[n]];
      UniqueByKeys(init, key);
      UniqueByKeepsFirst(init, key);
      assert init[i] in init;
      assert key(init[i]) in Keys(u, key);
      var x :| x in u && key(x) == key(init[i]);
      var p :| 0 <= p < |u| && u[p] == x;
      assert u[p] == init[i];
      assert 0 <= p < |u| < |r| && r[p] == s[i] && r[|u|] == s[j];
    }
  }

  /**
   * Cutting the de-duplicated list to its first `n` elements keeps the
   * earliest distinct keys: a kept first element has every earlier first
   * element kept with it.
   */
  lemma TakeUniqueByKeepsEarlier<T(!new), K>(s: seq<T>, key: T -> K, n: nat, i: int, j: int)
    requires 0 <= i < j < |s| && IsFirstOfKey(s, key, i) && IsFirstOfKey(s, key, j)
    requires s[j] in Take(UniqueBy(s, key), n)
    ensures s[i] in Take(UniqueBy(s, key), n)
  {
    var u := UniqueBy(s, key);
    var t := Take(u, n);
    UniqueByOrder(s, key, i, j);
    UniqueByKeys(s, key);
    var p, q :| 0 <= p < q < |u| && u[p] == s[i] && u[q] == s[j];
    var k :| 0 <= k < |t| && t[k] == s[j];
    assert u[k] == u[q];
    assert k == q;
    assert t[p] == s[i];
  }

  /** Two first-of-key elements that both survive the cut keep their relative order. */
  lemma TakeUniqueByOrder<T(!new), K>(s: seq<T>, key: T -> K, n: nat, i: int, j: int, a: int, b: int)
    requires 0 <= i < j < |s| && IsFirstOfKey(s, key, i) && IsFirstOfKey(s, key, j)
    requires 0 <= a < |Take(UniqueBy(s, key), n)| && Take(UniqueBy(s, key), n)[a] == s[i]
    requires 0 <= b < |Take(UniqueBy(s, key), n)| && Take(UniqueBy(s, key), n)[b] == s[j]
    ensures a < b
  {
    var u := UniqueBy(s, key);
    UniqueByOrder(s, key, i, j);
    UniqueByKeys(s, key);
    var p, q :| 0 <= p < q < |u| && u[p] == s[i] && u[q] == s[j];
    assert u[a] == u[p] && u[b] == u[q];
    assert a == p && b == q;
  }

  /**
   * The cut keeps first-of-key elements as an initial run in their original
   * order: a later one kept means every earlier one is kept, and before it.
   */
  lemma TakeUniqueByInOrder<T(!new), K>(s: seq<T>, key: T -> K, n: nat)
    ensures forall i, j ::
      0 <= i < j < |s| && IsFirstOfKey(s, key, i) && IsFirstOfKey(s, key, j) && s[j] in Take(UniqueBy(s, key), n)
      ==> s[i] in Take(UniqueBy(s, key), n)
    ensures forall i, j, a, b ::
      0 <= i < j < |s| && IsFirstOfKey(s, key, i) && IsFirstOfKey(s, key, j)
      && 0 <= a < |Take(UniqueBy(s, key), n)| && 0 <= b < |Take(UniqueBy(s, key), n)|
      && Take(UniqueBy(s, key), n)[a] == s[i] && Take(UniqueBy(s, key), n)[b] == s[j]
      ==> a < b
  {
    var t := Take(UniqueBy(s, key), n);
    forall i, j | 0 <= i < j < |s| && IsFirstOfKey(s, key, i) && IsFirstOfKey(s, key, j) && s[j] in t
      ensures s[i] in t
    {
      TakeUniqueByKeepsEarlier(s, key, n, i, j);
    }
    forall i, j, a, b |
      0 <= i < j < |s| && IsFirstOfKey(s, key, i) && IsFirstOfKey(s, key, j)
      && 0 <= a < |t| && 0 <= b < |t| && t[a] == s[i] && t[b] == s[j]
      ensures a < b
    {
      TakeUniqueByOrder(s, key, n, i, j, a, b);
    }
  }

  /** Keys pairwise different means one key per element. */
  lemma {:induction false} DistinctKeysCount<T(!new), K>(s: seq<T>, key: T -> K)
    requires KeysDistinct(s, key)
    ensures |Keys(s, key)| == |s|
    decreases |s|
  {
    if |s| > 0 {
      var init := s[..|s| - 1];
      KeysSnoc(s, key);
      DistinctKeysCount(init, key);
      FirstOfKeyLast(s, key);
    }
  }

  /** One element per distinct key of `s`. */
  lemma UniqueByLength<T(!new), K>(s: seq<T>, key: T -> K)
    ensures |UniqueBy(s, key)| == |Keys(s, key)|
  {
    UniqueByKeys(s, key);
    DistinctKeysCount(UniqueBy(s, key), key);
  }

  /** One more element: kept exactly when it is new, and added to the seen values. */
  lemma UniqueBySnoc<T(!new)>(p: seq<T>, x: T)
    ensures UniqueBy(p + [x], Identity) == UniqueBy(p, Identity) + (if x in Keys(p, Identity) then [] else [x])
    ensures Keys(p + [x], Identity) == Keys(p, Identity) + {x}
  {
    var p' := p + [x];
    assert p'[..|p'| - 1] == p;
    KeysSnoc(p', Identity);
    FirstOfKeyLast(p', Identity);
    assert Identity(x) == x;
  }

  /** The Set-based walk over `s` continues the findIndex filter of the prefix `p`. */
  lemma {:induction false} DistinctFromContinues<T(!new)>(p: seq<T>, s: seq<T>)
    ensures UniqueBy(p + s, Identity) == UniqueBy(p, Identity) + DistinctFrom(s, Keys(p, Identity))
    decreases |s|
  {
    if |s| == 0 {
      assert p + s == p;
    } else {
      var p' := p + [s[0]];
      DistinctFromContinues(p', s[1..]);
      assert p' + s[1..] == p + s;
      UniqueBySnoc(p, s[0]);
      var seen := Keys(p, Identity);
      var u := UniqueBy(p, Identity);
      var rest := DistinctFrom(s[1..], Keys(p', Identity));
      assert UniqueBy(p + s, Identity) == UniqueBy(p', Identity) + rest;
      if s[0] in seen {
        assert Keys(p', Identity) == seen;
        assert DistinctFrom(s, seen) == rest;
      } else {
        assert DistinctFrom(s, seen) == [s[0]] + rest;
        assert UniqueBy(p', Identity) + rest == u + ([s[0]] + rest);
      }
    }
  }

  /** `[...new Set(s)]`: each value once, at the position of its first occurrence. */
  function Distinct<T(==, !new)>(s: seq<T>): (r: seq<T>)
    ensures r == UniqueBy(s, Identity)
    ensures forall x :: x in r <==> x in s
    ensures NoDuplicates(r)
  {
    var none: seq<T> := [];
    DistinctFromContinues(none, s);
    assert none + s == s;
    assert Keys(none, Identity) == {};
    UniqueByKeys(s, Identity);
    var r := DistinctFrom(s, {});
    assert forall x: T :: Identity(x) == x;
    assert forall x :: x in r <==> Identity(x) in Keys(r, Identity);
    r
  }

  /** The first `n` first-of-key elements: distinct keys, as many as there are keys up to `n`, in order. */
  lemma TakeUniqueBy<T(!new), K>(s: seq<T>, key: T -> K, n: nat)
    ensures KeysDistinct(Take(UniqueBy(s, key), n), key)
    ensures |Take(UniqueBy(s, key), n)| == Min(n, |Keys(s, key)|)
    ensures IsSubseq(Take(UniqueBy(s, key), n), s)
    ensures forall k, i ::
      0 <= k < |Take(UniqueBy(s, key), n)| && 0 <= i < |s| && IsFirstOfKey(s, key, i)
      && key(s[i]) == key(Take(UniqueBy(s, key), n)[k])
      ==> Take(UniqueBy(s, key), n)[k] == s[i]
  {
    var u := UniqueBy(s, key);
    UniqueByKeys(s, key);
    UniqueByLength(s, key);
    UniqueByIsSubseq(s, key);
    UniqueByKeepsFirst(s, key);
    SubseqPrefix(u, s, Min(n, |u|));
  }
}
