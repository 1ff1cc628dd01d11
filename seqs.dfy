/**
 * Sequence facts shared by the sweeps, and models of the Python built-in
 * `sorted(set(...))` used by the sampler and the tiering step.
 */
module Seqs {

  /** Concatenation of blocks, unfolded from the last block so that a loop that
      appends one block per iteration keeps `Flatten(bs[..i])` as its invariant. */
  function Flatten<T>(bs: seq<seq<T>>): seq<T>
  {
    if bs == [] then [] else Flatten(bs[..|bs| - 1]) + bs[|bs| - 1]
  }

  predicate Distinct<T(==)>(s: seq<T>)
  {
    forall i, j :: 0 <= i < j < |s| ==> s[i] != s[j]
  }

  predicate StrictlyAscending(s: seq<int>)
  {
    forall i, j :: 0 <= i < j < |s| ==> s[i] < s[j]
  }

  predicate StrictlyAscendingReals(s: seq<real>)
  {
    forall i, j :: 0 <= i < j < |s| ==> s[i] < s[j]
  }

  lemma MulLess(a: int, n: int, m: int, r: int)
    requires 0 <= a < n && 0 <= r < m
    ensures a * m + r < n * m
  {
    var d := n - a - 1;
    assert n * m == a * m + m + d * m;
    assert d * m >= 0;
  }

  /** Blocks of equal size m: the flattening has |bs| * m elements and element
      a * m + r is element r of block a. */
  lemma {:induction false} FlattenAt<T>(bs: seq<seq<T>>, m: nat, a: int, r: int)
    requires forall i :: 0 <= i < |bs| ==> |bs[i]| == m
    requires 0 <= a < |bs| && 0 <= r < m
    ensures |Flatten(bs)| == |bs| * m
    ensures a * m + r < |Flatten(bs)|
    ensures Flatten(bs)[a * m + r] == bs[a][r]
  {
    var n := |bs|;
    var front := bs[..n - 1];
    var last := bs[n - 1];
    var ff := Flatten(front);
    assert Flatten(bs) == ff + last;
    assert forall i :: 0 <= i < |front| ==> |front[i]| == m;
    FlattenLength(front, m);
    FlattenLength(bs, m);
    var k := a * m + r;
    MulLess(a, n, m, r);
    if a == n - 1 {
      assert k == |ff| + r;
      assert (ff + last)[k] == last[r];
    } else {
      FlattenAt(front, m, a, r);
      assert k < |ff|;
      assert (ff + last)[k] == ff[k];
      assert front[a] == bs[a];
    }
  }

  lemma FlattenSnoc<T>(bs: seq<seq<T>>, b: seq<T>)
    ensures Flatten(bs + [b]) == Flatten(bs) + b
  {
    assert (bs + [b])[..|bs|] == bs;
  }

  lemma {:induction false} FlattenLength<T>(bs: seq<seq<T>>, m: nat)
    requires forall i :: 0 <= i < |bs| ==> |bs[i]| == m
    ensures |Flatten(bs)| == |bs| * m
  {
    if bs != [] {
      var front := bs[..|bs| - 1];
      assert forall i :: 0 <= i < |front| ==> |front[i]| == m;
      FlattenLength(front, m);
      assert |Flatten(bs)| == |Flatten(front)| + m;
      assert (|bs| - 1) * m + m == |bs| * m;
    }
  }

  /** An element of the flattening lies in some block, and every block element is in it. */
  lemma {:induction false} FlattenMember<T>(bs: seq<seq<T>>, x: T)
    ensures x in Flatten(bs) <==> exists i :: 0 <= i < |bs| && x in bs[i]
  {
    if bs != [] {
      var n := |bs|;
      FlattenMember(bs[..n - 1], x);
      if x in Flatten(bs) && x !in bs[n - 1] {
        var i :| 0 <= i < n - 1 && x in bs[..n - 1][i];
        assert x in bs[i];
      }
      if exists i :: 0 <= i < n && x in bs[i] {
        var i :| 0 <= i < n && x in bs[i];
        if i < n - 1 {
          assert x in bs[..n - 1][i];
        }
      }
    }
  }

  /** Blocks that are duplicate-free and pairwise disjoint flatten to a duplicate-free sequence. */
  lemma {:induction false} FlattenDistinct<T>(bs: seq<seq<T>>)
    requires forall i :: 0 <= i < |bs| ==> Distinct(bs[i])
    requires forall i, j, x :: 0 <= i < j < |bs| && x in bs[i] ==> x !in bs[j]
    ensures Distinct(Flatten(bs))
  {
    if bs != [] {
      var n := |bs|;
      var front := bs[..n - 1];
      FlattenDistinct(front);
      var f := Flatten(front);
      var last := bs[n - 1];
      forall i, j | 0 <= i < j < |f + last| ensures (f + last)[i] != (f + last)[j] {
        if i < |f| && j >= |f| {
          FlattenMember(front, f[i]);
          assert last[j - |f|] == (f + last)[j];
        }
      }
    }
  }

  /** A prefix of block i, after all earlier blocks, is a prefix of the flattening. */
  lemma {:induction false} FlattenPrefix<T>(bs: seq<seq<T>>, i: int, t: seq<T>)
    requires 0 <= i < |bs| && t <= bs[i]
    ensures Flatten(bs[..i]) + t <= Flatten(bs)
  {
    var n := |bs|;
    if i < n - 1 {
      var front := bs[..n - 1];
      assert front[..i] == bs[..i];
      FlattenPrefix(front, i, t);
    } else {
      assert bs[..n - 1] == bs[..i];
    }
  }

  /** Extending both sides of a prefix by the same front keeps it a prefix. */
  lemma PrefixAppend<T>(a: seq<T>, x: seq<T>, y: seq<T>)
    requires x <= y
    ensures a + x <= a + y
  {
    assert (a + y)[..|a + x|] == a + x;
  }

  lemma AscendingDistinct(s: seq<int>)
    requires StrictlyAscending(s)
    ensures Distinct(s)
  {
  }

  /** A sequence has at least as many elements as the set of its elements. */
  lemma {:induction false} SetOfSeqSize<T>(s: seq<T>)
    ensures |set x | x in s| <= |s|
    decreases |s|
  {
    if s != [] {
      var n := |s|;
      var front := s[..n - 1];
      SetOfSeqSize(front);
      assert (set x | x in s) == (set x | x in front) + {s[n - 1]} by {
        forall x | x in s ensures x in front || x == s[n - 1] {
          var i :| 0 <= i < n && s[i] == x;
          if i < n - 1 {
            assert front[i] == x;
          }
        }
      }
    }
  }

  /** Every nonempty finite set of integers has a least element. */
  lemma {:induction false} MinExists(S: set<int>)
    requires S != {}
    ensures exists m :: m in S && forall y :: y in S ==> m <= y
    decreases |S|
  {
    if forall y :: y !in S {
      assert false;
    }
    var x :| x in S;
    var R := S - {x};
    assert |R| < |S|;
    if R == {} {
      assert forall y :: y in S ==> x <= y;
    } else {
      MinExists(R);
      var m :| m in R && forall y :: y in R ==> m <= y;
      var least := if x < m then x else m;
      assert least in S;
      assert forall y :: y in S ==> y == x || y in R;
      assert forall y :: y in S ==> least <= y;
    }
  }

  lemma {:induction false} MinExistsReals(S: set<real>)
    requires S != {}
    ensures exists m :: m in S && forall y :: y in S ==> m <= y
    decreases |S|
  {
    if forall y :: y !in S {
      assert false;
    }
    var x :| x in S;
    var R := S - {x};
    assert |R| < |S|;
    if R == {} {
      assert forall y :: y in S ==> x <= y;
    } else {
      MinExistsReals(R);
      var m :| m in R && forall y :: y in R ==> m <= y;
      var least := if x < m then x else m;
      assert least in S;
      assert forall y :: y in S ==> y == x || y in R;
      assert forall y :: y in S ==> least <= y;
    }
  }

  /** The ascending enumeration of a finite set of integers: what `sorted(set(...))` yields. */
  ghost function SortedOf(S: set<int>): (r: seq<int>)
    decreases |S|
  {
    if S == {} then []
    else
      MinExists(S);
      var m :| m in S && forall y :: y in S ==> m <= y;
      [m] + SortedOf(S - {m})
  }

  /** Two strictly ascending sequences with the same elements start with the same element. */
  lemma AscendingHead(a: seq<int>, b: seq<int>)
    requires StrictlyAscending(a) && StrictlyAscending(b)
    requires a != [] && b != []
    requires forall x :: x in a <==> x in b
    ensures a[0] == b[0]
  {
    assert a[0] in a && b[0] in b;
    var i :| 0 <= i < |a| && a[i] == b[0];
    var j :| 0 <= j < |b| && b[j] == a[0];
    assert a[0] <= a[i] && b[0] <= b[j];
  }

  /** Every element of a's tail is in b's tail when a and b ascend from the same head over the same elements. */
  lemma AscendingTailIncluded(a: seq<int>, b: seq<int>, x: int)
    requires StrictlyAscending(b)
    requires a != [] && b != [] && a[0] == b[0]
    requires Distinct(a)
    requires forall y :: y in a ==> y in b
    requires x in a[1..]
    ensures x in b[1..]
  {
    var i :| 0 <= i < |a| - 1 && a[1..][i] == x;
    assert a[i + 1] == x && x in a;
    var j :| 0 <= j < |b| && b[j] == x;
    assert j != 0;
    assert b[1..][j - 1] == x;
  }

  lemma AscendingTail(a: seq<int>)
    requires StrictlyAscending(a) && a != []
    ensures StrictlyAscending(a[1..])
  {
    forall i, j | 0 <= i < j < |a| - 1 ensures a[1..][i] < a[1..][j] {
      assert a[1..][i] == a[i + 1] && a[1..][j] == a[j + 1];
    }
  }

  /** Two strictly ascending sequences with the same elements are equal. */
  lemma {:induction false} AscendingUnique(a: seq<int>, b: seq<int>)
    requires StrictlyAscending(a) && StrictlyAscending(b)
    requires forall x :: x in a <==> x in b
    ensures a == b
    decreases |a|
  {
    if a != [] {
      assert a[0] in a;
    }
    if b != [] {
      assert b[0] in b;
    }
    if a != [] {
      AscendingHead(a, b);
      AscendingDistinct(a);
      AscendingDistinct(b);
      forall x ensures x in a[1..] <==> x in b[1..] {
        if x in a[1..] {
          AscendingTailIncluded(a, b, x);
        }
        if x in b[1..] {
          AscendingTailIncluded(b, a, x);
        }
      }
      AscendingTail(a);
      AscendingTail(b);
      AscendingUnique(a[1..], b[1..]);
      assert a == [a[0]] + a[1..];
      assert b == [b[0]] + b[1..];
    }
  }

  /** Putting a least element in front of an ascending enumeration of the rest keeps it ascending. */
  lemma ConsAscending(m: int, rest: seq<int>)
    requires StrictlyAscending(rest)
    requires forall x :: x in rest ==> m < x
    ensures StrictlyAscending([m] + rest)
  {
    var r := [m] + rest;
    forall i, j | 0 <= i < j < |r| ensures r[i] < r[j] {
      assert r[j] == rest[j - 1];
      if i > 0 {
        assert r[i] == rest[i - 1];
      } else {
        assert rest[j - 1] in rest;
      }
    }
  }

  /** SortedOf(S) is strictly ascending and enumerates exactly S. */
  lemma {:induction false} SortedOfSpec(S: set<int>)
    ensures StrictlyAscending(SortedOf(S))
    ensures forall x :: x in SortedOf(S) <==> x in S
    ensures |SortedOf(S)| == |S|
    decreases |S|
  {
    if S != {} {
      MinExists(S);
      var m :| m in S && forall y :: y in S ==> m <= y;
      var R := S - {m};
      var rest := SortedOf(R);
      SortedOfSpec(R);
      SortedOfUnfold(S, m);
      forall x | x in rest ensures m < x {
        assert x in R;
      }
      ConsAscending(m, rest);
    }
  }

  /** The enumeration of a non-empty set starts with its least element. */
  lemma SortedOfUnfold(S: set<int>, m: int)
    requires m in S && forall y :: y in S ==> m <= y
    ensures SortedOf(S) == [m] + SortedOf(S - {m})
  {
  }

  /**
   * `sorted(set(s))` on integers, computed by repeatedly taking the least of the
   * elements not yet emitted.
   */
  method SortedSet(S: set<int>) returns (r: seq<int>)
    ensures r == SortedOf(S)
    ensures StrictlyAscending(r) && (forall x :: x in r <==> x in S)
  {
    r := [];
    var rest := S;
    while rest != {}
      invariant forall x :: x in S <==> x in r || x in rest
      invariant forall i, y :: 0 <= i < |r| && y in rest ==> r[i] < y
      invariant StrictlyAscending(r)
      decreases |rest|
    {
      MinExists(rest);
      var m :| m in rest && forall y :: y in rest ==> m <= y;
      r := r + [m];
      rest := rest - {m};
    }
    SortedOfSpec(S);
    AscendingUnique(r, SortedOf(S));
  }

  /** `sorted(set(...))` on reals: strictly ascending and enumerating exactly S. */
  method SortedSetReals(S: set<real>) returns (r: seq<real>)
    ensures StrictlyAscendingReals(r) && (forall x :: x in r <==> x in S)
  {
    r := [];
    var rest := S;
    while rest != {}
      invariant forall x :: x in S <==> x in r || x in rest
      invariant forall i, y :: 0 <= i < |r| && y in rest ==> r[i] < y
      invariant StrictlyAscendingReals(r)
      decreases |rest|
    {
      MinExistsReals(rest);
      var m :| m in rest && forall y :: y in rest ==> m <= y;
      r := r + [m];
      rest := rest - {m};
    }
  }

  /** The map built by storing each key's value in turn; later stores win. */
  function ToMap<K, V>(keys: seq<K>, outs: seq<V>): map<K, V>
    requires |keys| == |outs|
    decreases |keys|
  {
    if keys == [] then map[]
    else ToMap(keys[..|keys| - 1], outs[..|outs| - 1])[keys[|keys| - 1] := outs[|outs| - 1]]
  }

  /** The map's keys are exactly the stored keys. */
  lemma {:induction false} ToMapKeys<K, V>(keys: seq<K>, outs: seq<V>)
    requires |keys| == |outs|
    ensures ToMap(keys, outs).Keys == set k | k in keys
    decreases |keys|
  {
    if keys != [] {
      var n := |keys|;
      var kf := keys[..n - 1];
      ToMapKeys(kf, outs[..n - 1]);
      forall k | k in keys ensures k in kf || k == keys[n - 1] {
        var j :| 0 <= j < n && keys[j] == k;
        if j < n - 1 {
          assert kf[j] == k;
        }
      }
      assert (set k | k in keys) == (set k | k in kf) + {keys[n - 1]};
    }
  }

  /** With distinct keys, the map has one entry per key and maps key i to value i. */
  lemma {:induction false} ToMapAt<K, V>(keys: seq<K>, outs: seq<V>)
    requires |keys| == |outs| && Distinct(keys)
    ensures |ToMap(keys, outs)| == |keys|
    ensures forall i :: 0 <= i < |keys| ==> keys[i] in ToMap(keys, outs) && ToMap(keys, outs)[keys[i]] == outs[i]
    decreases |keys|
  {
    if keys != [] {
      var n := |keys|;
      var kf, of := keys[..n - 1], outs[..n - 1];
      var last := keys[n - 1];
      assert Distinct(kf);
      ToMapAt(kf, of);
      ToMapKeys(kf, of);
      var m := ToMap(kf, of);
      assert forall j :: 0 <= j < n - 1 ==> kf[j] == keys[j] && kf[j] != last;
      assert last !in m.Keys;
      forall i | 0 <= i < n ensures keys[i] in ToMap(keys, outs) && ToMap(keys, outs)[keys[i]] == outs[i] {
        if i < n - 1 {
          assert kf[i] == keys[i];
        }
      }
    }
  }

  lemma ToMapSnoc<K, V>(keys: seq<K>, outs: seq<V>, k: K, v: V)
    requires |keys| == |outs|
    ensures ToMap(keys + [k], outs + [v]) == ToMap(keys, outs)[k := v]
  {
    assert (keys + [k])[..|keys|] == keys;
    assert (outs + [v])[..|outs|] == outs;
  }
}
