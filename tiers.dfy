/**
 * Greedy clustering of the landing heights into horizontal tiers: heights are
 * visited in ascending order and each joins the first tier whose most recent
 * height is within the tolerance, or opens a new tier.
 */
module Tiers {
  import opened Seqs

  function Abs(r: real): (a: real)
    ensures a >= 0.0 && (a == r || a == -r)
  {
    if r < 0.0 then -r else r
  }

  /** A tier accepts y when its most recent height is within tol of y. */
  predicate Accepts(group: seq<real>, y: real, tol: real)
  {
    group != [] && Abs(y - group[|group| - 1]) <= tol
  }

  /** The first tier, in creation order, that accepts y; |gs| when none does. */
  function FirstMatch(gs: seq<seq<real>>, y: real, tol: real): (j: nat)
    ensures j <= |gs|
    ensures j < |gs| ==> Accepts(gs[j], y, tol)
    ensures forall k :: 0 <= k < j ==> !Accepts(gs[k], y, tol)
    decreases |gs|
  {
    if gs == [] then 0
    else if Accepts(gs[0], y, tol) then 0
    else
      var j := FirstMatch(gs[1..], y, tol);
      assert forall k :: 1 <= k < 1 + j ==> gs[k] == gs[1..][k - 1];
      1 + j
  }

  /** Places y: appended to the first accepting tier, otherwise in a new tier of its own. */
  function Place(gs: seq<seq<real>>, y: real, tol: real): seq<seq<real>>
  {
    var j := FirstMatch(gs, y, tol);
    if j < |gs| then gs[j := gs[j] + [y]] else gs + [[y]]
  }

  /** The tiers built from the heights ys, visited in order. */
  function Groups(ys: seq<real>, tol: real): (gs: seq<seq<real>>)
    ensures forall j :: 0 <= j < |gs| ==> gs[j] != []
    decreases |ys|
  {
    if ys == [] then []
    else Place(Groups(ys[..|ys| - 1], tol), ys[|ys| - 1], tol)
  }

  /** Tier index of every height, in the order the tiers list them. */
  function Labels(gs: seq<seq<real>>): (r: seq<nat>)
    decreases |gs|
  {
    if gs == [] then []
    else Labels(gs[..|gs| - 1]) + seq(|gs[|gs| - 1]|, _ => |gs| - 1)
  }

  /** The height-to-tier map: each tier index stored for each of its heights. */
  function TierMap(gs: seq<seq<real>>): map<real, nat>
  {
    LabelsLength(gs);
    ToMap(Flatten(gs), Labels(gs))
  }

  lemma {:induction false} LabelsLength(gs: seq<seq<real>>)
    ensures |Labels(gs)| == |Flatten(gs)|
    decreases |gs|
  {
    if gs != [] {
      LabelsLength(gs[..|gs| - 1]);
    }
  }

  /**
   * The tier index of each height in an ascending sequence: 0 for the first,
   * and each next height stays in the previous one's tier exactly when it is
   * within tol of it, otherwise it moves up one tier.
   */
  function TierIndices(ys: seq<real>, tol: real): (t: seq<nat>)
    ensures |t| == |ys|
    decreases |ys|
  {
    if |ys| <= 1 then seq(|ys|, _ => 0)
    else
      var front := TierIndices(ys[..|ys| - 1], tol);
      var n := |ys|;
      front + [front[n - 2] + (if ys[n - 1] - ys[n - 2] <= tol then 0 else 1)]
  }

  /** TierIndices of a prefix is the prefix of TierIndices. */
  lemma {:induction false} TierIndicesPrefix(ys: seq<real>, tol: real, m: int)
    requires 0 <= m <= |ys|
    ensures TierIndices(ys[..m], tol) == TierIndices(ys, tol)[..m]
    decreases |ys|
  {
    if m < |ys| {
      var front := ys[..|ys| - 1];
      TierIndicesPrefix(front, tol, m);
      assert front[..m] == ys[..m];
    } else {
      assert ys[..m] == ys;
    }
  }

  /** The tier of a height follows from the tier of the one before it and the gap between them. */
  lemma TierStep(ys: seq<real>, tol: real, i: int)
    requires 1 <= i < |ys|
    ensures TierIndices(ys, tol)[i] == TierIndices(ys, tol)[i - 1] + (if ys[i] - ys[i - 1] <= tol then 0 else 1)
  {
    TierIndicesPrefix(ys, tol, i + 1);
    TierIndicesPrefix(ys, tol, i);
    var p := ys[..i + 1];
    assert p[..|p| - 1] == ys[..i];
    assert p[i] == ys[i] && p[i - 1] == ys[i - 1];
  }

  lemma {:induction false} TierIndicesMonotone(ys: seq<real>, tol: real, i: int, j: int)
    requires 0 <= i <= j < |ys|
    ensures TierIndices(ys, tol)[i] <= TierIndices(ys, tol)[j]
    decreases j - i
  {
    if i < j {
      TierStep(ys, tol, j);
      TierIndicesMonotone(ys, tol, i, j - 1);
    }
  }

  /**
   * The tiers start at 0, climb by at most one between neighbouring heights --
   * exactly one when the gap exceeds tol, none otherwise -- and never decrease.
   */
  lemma TierIndicesSpec(ys: seq<real>, tol: real)
    ensures ys != [] ==> TierIndices(ys, tol)[0] == 0
    ensures forall i :: 1 <= i < |ys| ==>
      TierIndices(ys, tol)[i] == TierIndices(ys, tol)[i - 1] + (if ys[i] - ys[i - 1] <= tol then 0 else 1)
    ensures forall i, j :: 0 <= i <= j < |ys| ==> TierIndices(ys, tol)[i] <= TierIndices(ys, tol)[j]
  {
    if ys != [] {
      TierIndicesPrefix(ys, tol, 1);
    }
    forall i | 1 <= i < |ys|
      ensures TierIndices(ys, tol)[i] == TierIndices(ys, tol)[i - 1] + (if ys[i] - ys[i - 1] <= tol then 0 else 1)
    {
      TierStep(ys, tol, i);
    }
    forall i, j | 0 <= i <= j < |ys| ensures TierIndices(ys, tol)[i] <= TierIndices(ys, tol)[j] {
      TierIndicesMonotone(ys, tol, i, j);
    }
  }

  /**
   * On strictly ascending heights only the most recent tier can accept a new,
   * larger height: every earlier tier ended more than tol below the first
   * height of the tier after it.
   */
  lemma OnlyLastTierAccepts(gs: seq<seq<real>>, y: real, tol: real)
    requires Separated(gs, tol)
    requires forall j :: 0 <= j < |gs| ==> gs[j][0] < y
    ensures FirstMatch(gs, y, tol) >= |gs| - 1
  {
    forall j | 0 <= j < |gs| - 1 ensures !Accepts(gs[j], y, tol) {
      assert gs[j + 1][0] < y;
    }
  }

  /** Nonempty tiers, each starting more than tol above where the one before it ended. */
  predicate Separated(gs: seq<seq<real>>, tol: real)
  {
    (forall j :: 0 <= j < |gs| ==> gs[j] != []) &&
    (forall j :: 0 <= j < |gs| - 1 ==> gs[j + 1][0] - gs[j][|gs[j]| - 1] > tol)
  }

  /** Facts about the tiers of a strictly ascending prefix that carry over to the next height. */
  predicate Shaped(ys: seq<real>, gs: seq<seq<real>>, tol: real)
  {
    Separated(gs, tol) &&
    Flatten(gs) == ys &&
    |Labels(gs)| == |ys| &&
    Labels(gs) == TierIndices(ys, tol) &&
    (ys == [] <==> gs == []) &&
    (ys != [] ==> gs[|gs| - 1][|gs[|gs| - 1]| - 1] == ys[|ys| - 1] && TierIndices(ys, tol)[|ys| - 1] == |gs| - 1)
  }

  /** Every height in a tier comes from the heights placed so far. */
  lemma GroupMembers(gs: seq<seq<real>>, j: int, x: real)
    requires 0 <= j < |gs| && x in gs[j]
    ensures x in Flatten(gs)
  {
    FlattenMember(gs, x);
  }

  /** Placing one more, larger height keeps the tiers Shaped. */
  lemma PlaceShaped(ys: seq<real>, gs: seq<seq<real>>, y: real, tol: real)
    requires Shaped(ys, gs, tol)
    requires forall x :: x in ys ==> x < y
    ensures Shaped(ys + [y], Place(gs, y, tol), tol)
  {
    if gs == [] {
      assert ys == [];
      PlaceFirstShaped(y, tol);
    } else {
      PlaceNextShaped(ys, gs, y, tol);
    }
  }

  lemma PlaceFirstShaped(y: real, tol: real)
    ensures Shaped([] + [y], Place([], y, tol), tol)
  {
    assert [] + [y] == [y];
    assert Place([], y, tol) == [[y]];
    FirstShaped(y, tol);
  }

  lemma PlaceNextShaped(ys: seq<real>, gs: seq<seq<real>>, y: real, tol: real)
    requires Shaped(ys, gs, tol) && gs != []
    requires forall x :: x in ys ==> x < y
    ensures Shaped(ys + [y], Place(gs, y, tol), tol)
  {
    var k := |gs|;
    var j := LastTierChoice(ys, gs, y, tol);
    if j < k {
      var front, last := PlaceIntoLast(gs, y, tol);
      JoinShaped(ys, front, last, y, tol);
    } else {
      OpenShaped(ys, gs, y, tol);
    }
  }

  /** Placing into the last tier, seen as the tiers before it plus the grown last one. */
  lemma PlaceIntoLast(gs: seq<seq<real>>, y: real, tol: real) returns (front: seq<seq<real>>, last: seq<real>)
    requires gs != [] && FirstMatch(gs, y, tol) == |gs| - 1
    ensures gs == front + [last]
    ensures Place(gs, y, tol) == front + [last + [y]]
  {
    front, last := gs[..|gs| - 1], gs[|gs| - 1];
    assert gs == front + [last];
  }

  /** On ascending heights a new height joins the last tier when within tol of the last height, else opens one. */
  lemma LastTierChoice(ys: seq<real>, gs: seq<seq<real>>, y: real, tol: real) returns (j: nat)
    requires Shaped(ys, gs, tol) && gs != []
    requires forall x :: x in ys ==> x < y
    ensures j == FirstMatch(gs, y, tol)
    ensures j < |gs| <==> y - ys[|ys| - 1] <= tol
    ensures j >= |gs| - 1
  {
    var k := |gs|;
    forall i | 0 <= i < k ensures gs[i][0] < y {
      GroupMembers(gs, i, gs[i][0]);
    }
    OnlyLastTierAccepts(gs, y, tol);
    assert ys[|ys| - 1] in ys;
    j := FirstMatch(gs, y, tol);
    if y - ys[|ys| - 1] <= tol {
      assert Accepts(gs[k - 1], y, tol);
    } else {
      assert !Accepts(gs[k - 1], y, tol);
    }
  }

  /** The first height opens tier 0. */
  lemma FirstShaped(y: real, tol: real)
    ensures Shaped([y], [[y]], tol)
  {
    assert Flatten([[y]]) == Flatten([[y]][..0]) + [y];
    assert Labels([[y]]) == Labels([[y]][..0]) + [0];
  }

  /** A height within tol of the last one joins the last tier. */
  lemma JoinShaped(ys: seq<real>, front: seq<seq<real>>, last: seq<real>, y: real, tol: real)
    requires Shaped(ys, front + [last], tol)
    requires y - ys[|ys| - 1] <= tol
    ensures Shaped(ys + [y], front + [last + [y]], tol)
  {
    var k := |front| + 1;
    var gs := front + [last];
    var gs' := front + [last + [y]];
    assert Separated(gs', tol) by {
      GapsAfterJoin(front, last, y, tol);
    }
    assert Flatten(gs') == ys + [y] by {
      FlattenSnoc(front, last);
      FlattenSnoc(front, last + [y]);
    }
    assert Labels(gs') == Labels(gs) + [k - 1] by {
      LabelsSnoc(front, last);
      LabelsSnoc(front, last + [y]);
      assert seq(|last| + 1, _ => k - 1) == seq(|last|, _ => k - 1) + [k - 1];
    }
    assert TierIndices(ys + [y], tol) == TierIndices(ys, tol) + [k - 1] by {
      TierIndicesSnoc(ys, y, tol);
    }
    assert gs'[k - 1] == last + [y];
  }

  /** A height more than tol above the last one opens a new tier. */
  lemma OpenShaped(ys: seq<real>, gs: seq<seq<real>>, y: real, tol: real)
    requires Shaped(ys, gs, tol) && gs != []
    requires y - ys[|ys| - 1] > tol
    ensures Shaped(ys + [y], gs + [[y]], tol)
  {
    var k := |gs|;
    var gs' := gs + [[y]];
    assert Separated(gs', tol) by {
      GapsAfterOpen(gs, y, tol);
    }
    assert Flatten(gs') == ys + [y] by {
      FlattenSnoc(gs, [y]);
    }
    assert Labels(gs') == Labels(gs) + [k] by {
      LabelsSnoc(gs, [y]);
    }
    assert TierIndices(ys + [y], tol) == TierIndices(ys, tol) + [k] by {
      TierIndicesSnoc(ys, y, tol);
    }
    assert gs'[k] == [y];
  }

  lemma LabelsSnoc(gs: seq<seq<real>>, g: seq<real>)
    ensures Labels(gs + [g]) == Labels(gs) + seq(|g|, _ => |gs|)
  {
    assert (gs + [g])[..|gs|] == gs;
  }

  lemma TierIndicesSnoc(ys: seq<real>, y: real, tol: real)
    requires ys != []
    ensures TierIndices(ys + [y], tol) ==
      TierIndices(ys, tol) + [TierIndices(ys, tol)[|ys| - 1] + (if y - ys[|ys| - 1] <= tol then 0 else 1)]
  {
    assert (ys + [y])[..|ys|] == ys;
  }

  /** Tier separation survives appending a height to the last tier. */
  lemma GapsAfterJoin(front: seq<seq<real>>, last: seq<real>, y: real, tol: real)
    requires Separated(front + [last], tol)
    ensures Separated(front + [last + [y]], tol)
  {
    var a := front + [last];
    var b := front + [last + [y]];
    var k := |front|;
    assert a[k] == last && b[k] == last + [y];
    assert last != [] && b[k][0] == last[0];
    forall j | 0 <= j < |b| ensures b[j] != [] {
      if j < k {
        assert b[j] == a[j];
      }
    }
    forall j | 0 <= j < |b| - 1 ensures b[j + 1][0] - b[j][|b[j]| - 1] > tol {
      assert b[j] == a[j];
      if j + 1 < k {
        assert b[j + 1] == a[j + 1];
      }
    }
  }

  /** Tier separation survives opening a tier more than tol above the last height. */
  lemma GapsAfterOpen(gs: seq<seq<real>>, y: real, tol: real)
    requires Separated(gs, tol) && gs != []
    requires y - gs[|gs| - 1][|gs[|gs| - 1]| - 1] > tol
    ensures Separated(gs + [[y]], tol)
  {
    var b := gs + [[y]];
    var k := |gs|;
    assert b[k] == [y];
    forall j | 0 <= j < |b| ensures b[j] != [] {
      if j < k {
        assert b[j] == gs[j];
      }
    }
    forall j | 0 <= j < |b| - 1 ensures b[j + 1][0] - b[j][|b[j]| - 1] > tol {
      assert b[j] == gs[j];
      if j + 1 < k {
        assert b[j + 1] == gs[j + 1];
      }
    }
  }

  /**
   * On strictly ascending heights the greedy tiers partition the heights into
   * consecutive runs, and the tier of the i-th height is TierIndices(ys, tol)[i].
   */
  lemma {:induction false} GroupsOfAscending(ys: seq<real>, tol: real)
    requires StrictlyAscendingReals(ys)
    ensures Flatten(Groups(ys, tol)) == ys
    ensures Labels(Groups(ys, tol)) == TierIndices(ys, tol)
    ensures ys != [] ==> |Groups(ys, tol)| == TierIndices(ys, tol)[|ys| - 1] + 1
    decreases |ys|
  {
    GroupsShaped(ys, tol);
  }

  /** In strictly ascending heights every earlier height is below the last. */
  lemma BelowLast(front: seq<real>, y: real)
    requires StrictlyAscendingReals(front + [y])
    ensures forall x :: x in front ==> x < y
  {
    var ys := front + [y];
    forall x | x in front ensures x < y {
      var i :| 0 <= i < |front| && front[i] == x;
      assert ys[i] == x && ys[|front|] == y;
    }
  }

  lemma {:induction false} GroupsShaped(ys: seq<real>, tol: real)
    requires StrictlyAscendingReals(ys)
    ensures Shaped(ys, Groups(ys, tol), tol)
    decreases |ys|
  {
    if ys != [] {
      var n := |ys|;
      var front := ys[..n - 1];
      var y := ys[n - 1];
      assert StrictlyAscendingReals(front);
      GroupsShaped(front, tol);
      var gf := Groups(front, tol);
      assert Groups(ys, tol) == Place(gf, y, tol);
      assert ys == front + [y];
      BelowLast(front, y);
      PlaceShaped(front, gf, y, tol);
    }
  }

  /**
   * The tier map of strictly ascending heights: its keys are exactly the heights,
   * and height i is in tier TierIndices(ys, tol)[i].
   */
  lemma TierMapOfAscending(ys: seq<real>, tol: real)
    requires StrictlyAscendingReals(ys)
    ensures TierMap(Groups(ys, tol)).Keys == set y | y in ys
    ensures forall i :: 0 <= i < |ys| ==> TierMap(Groups(ys, tol))[ys[i]] == TierIndices(ys, tol)[i]
  {
    var gs := Groups(ys, tol);
    GroupsOfAscending(ys, tol);
    LabelsLength(gs);
    assert Distinct(ys);
    ToMapKeys(ys, TierIndices(ys, tol));
    ToMapAt(ys, TierIndices(ys, tol));
  }

  /**
   * The tiers a height map assigns, read in ascending order of the heights:
   * the lowest height is in tier 0, each next height stays in the same tier
   * when it is at most tol above the one before and moves up exactly one
   * tier otherwise, so higher heights never get lower tiers.
   */
  predicate TierRule(m: map<real, nat>, tol: real)
  {
    LowestInTierZero(m) && NeighboursRule(m, tol) && TiersMonotone(m)
  }

  predicate LowestInTierZero(m: map<real, nat>)
  {
    forall y :: y in m && (forall z :: z in m ==> y <= z) ==> m[y] == 0
  }

  predicate NeighboursRule(m: map<real, nat>, tol: real)
  {
    forall y1, y2 :: y1 in m && y2 in m && y1 < y2 && (forall z :: z in m ==> !(y1 < z < y2)) ==>
      m[y2] == m[y1] + (if y2 - y1 <= tol then 0 else 1)
  }

  predicate TiersMonotone(m: map<real, nat>)
  {
    forall y1, y2 :: y1 in m && y2 in m && y1 <= y2 ==> m[y1] <= m[y2]
  }

  /** A map that stores index t[i] for each height ys[i]. */
  predicate Stores(ys: seq<real>, t: seq<nat>, m: map<real, nat>)
  {
    |t| == |ys| && m.Keys == (set y | y in ys) && forall i :: 0 <= i < |ys| ==> m[ys[i]] == t[i]
  }

  lemma LeastKeyFirst(ys: seq<real>, t: seq<nat>, m: map<real, nat>, y: real)
    requires StrictlyAscendingReals(ys) && Stores(ys, t, m)
    requires y in m && forall z :: z in m ==> y <= z
    ensures m[y] == t[0]
  {
    var i :| 0 <= i < |ys| && ys[i] == y;
    assert ys[0] in m;
    assert i == 0;
  }

  lemma NeighbourKeys(ys: seq<real>, t: seq<nat>, m: map<real, nat>, y1: real, y2: real) returns (i: int)
    requires StrictlyAscendingReals(ys) && Stores(ys, t, m)
    requires y1 in m && y2 in m && y1 < y2 && forall z :: z in m ==> !(y1 < z < y2)
    ensures 1 <= i < |ys| && ys[i - 1] == y1 && ys[i] == y2
  {
    var k :| 0 <= k < |ys| && ys[k] == y1;
    var j :| 0 <= j < |ys| && ys[j] == y2;
    assert k < j;
    assert ys[k + 1] in m;
    assert j == k + 1;
    i := j;
  }

  lemma OrderedKeys(ys: seq<real>, t: seq<nat>, m: map<real, nat>, y1: real, y2: real) returns (i: int, j: int)
    requires StrictlyAscendingReals(ys) && Stores(ys, t, m)
    requires y1 in m && y2 in m && y1 <= y2
    ensures 0 <= i <= j < |ys| && ys[i] == y1 && ys[j] == y2
  {
    i :| 0 <= i < |ys| && ys[i] == y1;
    j :| 0 <= j < |ys| && ys[j] == y2;
    assert i <= j;
  }

  /** A map that stores index t[i] for each height ys[i] follows the rule when t does. */
  lemma RuleFromIndices(ys: seq<real>, t: seq<nat>, m: map<real, nat>, tol: real)
    requires StrictlyAscendingReals(ys) && Stores(ys, t, m)
    requires ys != [] ==> t[0] == 0
    requires forall i :: 1 <= i < |ys| ==> t[i] == t[i - 1] + (if ys[i] - ys[i - 1] <= tol then 0 else 1)
    requires forall i, j :: 0 <= i <= j < |ys| ==> t[i] <= t[j]
    ensures TierRule(m, tol)
  {
    LowestFromIndices(ys, t, m);
    NeighboursFromIndices(ys, t, m, tol);
    MonotoneFromIndices(ys, t, m);
  }

  lemma LowestFromIndices(ys: seq<real>, t: seq<nat>, m: map<real, nat>)
    requires StrictlyAscendingReals(ys) && Stores(ys, t, m)
    requires ys != [] ==> t[0] == 0
    ensures LowestInTierZero(m)
  {
    forall y | y in m && (forall z :: z in m ==> y <= z) ensures m[y] == 0 {
      LeastKeyFirst(ys, t, m, y);
    }
  }

  lemma NeighboursFromIndices(ys: seq<real>, t: seq<nat>, m: map<real, nat>, tol: real)
    requires StrictlyAscendingReals(ys) && Stores(ys, t, m)
    requires forall i :: 1 <= i < |ys| ==> t[i] == t[i - 1] + (if ys[i] - ys[i - 1] <= tol then 0 else 1)
    ensures NeighboursRule(m, tol)
  {
    forall y1, y2 | y1 in m && y2 in m && y1 < y2 && (forall z :: z in m ==> !(y1 < z < y2))
      ensures m[y2] == m[y1] + (if y2 - y1 <= tol then 0 else 1)
    {
      NeighbourStored(ys, t, m, tol, y1, y2);
    }
  }

  lemma NeighbourStored(ys: seq<real>, t: seq<nat>, m: map<real, nat>, tol: real, y1: real, y2: real)
    requires StrictlyAscendingReals(ys) && Stores(ys, t, m)
    requires forall i :: 1 <= i < |ys| ==> t[i] == t[i - 1] + (if ys[i] - ys[i - 1] <= tol then 0 else 1)
    requires y1 in m && y2 in m && y1 < y2 && forall z :: z in m ==> !(y1 < z < y2)
    ensures m[y2] == m[y1] + (if y2 - y1 <= tol then 0 else 1)
  {
    var i := NeighbourKeys(ys, t, m, y1, y2);
    assert m[y1] == t[i - 1] && m[y2] == t[i];
  }

  lemma MonotoneFromIndices(ys: seq<real>, t: seq<nat>, m: map<real, nat>)
    requires StrictlyAscendingReals(ys) && Stores(ys, t, m)
    requires forall i, j :: 0 <= i <= j < |ys| ==> t[i] <= t[j]
    ensures TiersMonotone(m)
  {
    forall y1, y2 | y1 in m && y2 in m && y1 <= y2 ensures m[y1] <= m[y2] {
      var i, j := OrderedKeys(ys, t, m, y1, y2);
    }
  }

  /** The tier map of strictly ascending heights has exactly those heights as keys and follows the rule. */
  lemma TierMapFollowsRule(ys: seq<real>, tol: real)
    requires StrictlyAscendingReals(ys)
    ensures TierMap(Groups(ys, tol)).Keys == set y | y in ys
    ensures TierRule(TierMap(Groups(ys, tol)), tol)
  {
    TierMapOfAscending(ys, tol);
    TierIndicesSpec(ys, tol);
    assert Stores(ys, TierIndices(ys, tol), TierMap(Groups(ys, tol)));
    RuleFromIndices(ys, TierIndices(ys, tol), TierMap(Groups(ys, tol)), tol);
  }

  /** The inner loop of the grouping: y joins the first tier whose last height is within tol, or opens a new one. */
  method Colocar(grupos: seq<seq<real>>, y: real, tol: real) returns (gs: seq<seq<real>>)
    requires forall k :: 0 <= k < |grupos| ==> grupos[k] != []
    ensures gs == Place(grupos, y, tol)
  {
    for j := 0 to |grupos|
      invariant forall k :: 0 <= k < j ==> !Accepts(grupos[k], y, tol)
    {
      var grupo := grupos[j];
      if Abs(y - grupo[|grupo| - 1]) <= tol {
        assert FirstMatch(grupos, y, tol) == j;
        return grupos[j := grupo + [y]];
      }
    }
    assert FirstMatch(grupos, y, tol) == |grupos|;
    gs := grupos + [[y]];
  }

  /** The inner loop of the map building: every height of the next tier gets that tier's index. */
  method Registrar(yMap0: map<real, nat>, front: seq<seq<real>>, grupo: seq<real>) returns (yMap: map<real, nat>)
    requires yMap0 == TierMap(front)
    ensures yMap == TierMap(front + [grupo])
  {
    var keys, outs := Flatten(front), Labels(front);
    ghost var lab: seq<nat> := seq(|grupo|, _ => |front|);
    LabelsLength(front);
    yMap := yMap0;
    assert keys + grupo[..0] == keys && outs + lab[..0] == outs;
    for k := 0 to |grupo|
      invariant yMap == ToMap(keys + grupo[..k], outs + lab[..k])
    {
      RegisterStep(keys, outs, grupo, lab, k);
      yMap := yMap[grupo[k] := |front|];
    }
    RegisterDone(front, grupo, lab);
  }

  lemma RegisterStep(keys: seq<real>, outs: seq<nat>, grupo: seq<real>, lab: seq<nat>, k: int)
    requires |keys| == |outs| && |lab| == |grupo| && 0 <= k < |grupo|
    ensures ToMap(keys + grupo[..k + 1], outs + lab[..k + 1]) == ToMap(keys + grupo[..k], outs + lab[..k])[grupo[k] := lab[k]]
  {
    var ks := keys + grupo[..k];
    var vs := outs + lab[..k];
    ToMapSnoc(ks, vs, grupo[k], lab[k]);
    assert grupo[..k + 1] == grupo[..k] + [grupo[k]];
    assert lab[..k + 1] == lab[..k] + [lab[k]];
    SnocAssoc(keys, grupo[..k], grupo[k]);
    SnocAssoc(outs, lab[..k], lab[k]);
  }

  lemma SnocAssoc<T>(a: seq<T>, b: seq<T>, x: T)
    ensures a + (b + [x]) == a + b + [x]
  {
  }

  lemma RegisterDone(front: seq<seq<real>>, grupo: seq<real>, lab: seq<nat>)
    requires lab == seq(|grupo|, _ => |front|)
    ensures |Flatten(front)| == |Labels(front)|
    ensures ToMap(Flatten(front) + grupo[..|grupo|], Labels(front) + lab[..|grupo|]) == TierMap(front + [grupo])
  {
    LabelsLength(front);
    assert grupo[..|grupo|] == grupo && lab[..|grupo|] == lab;
    FlattenSnoc(front, grupo);
    LabelsSnoc(front, grupo);
    LabelsLength(front + [grupo]);
  }
}
