/**
 * The platform explorer: picks up to ten test positions along a platform and,
 * from each, jumps with every charge from 0 to 35 frames in both directions,
 * collecting the landings in a map keyed by (position, charge, direction).
 */
module Explorer {
  import opened Wrappers
  import opened GameState
  import opened Tester
  import opened Agent
  import opened Seqs

  /** Test positions per platform. */
  const SAMPLES: int := 10
  /** The king's y is placed this far above the platform's top. */
  const KING_FEET_OFFSET: real := 31.0
  /** Charges 0 .. CHARGES - 1 are tried. */
  const CHARGES: int := 36
  const DIRECTIONS: seq<string> := [RIGHT, LEFT]

  /** `int()` of a float: truncation toward zero. */
  function Trunc(r: real): (t: int)
    ensures r >= 0.0 ==> 0 <= t && t as real <= r < t as real + 1.0
    ensures r < 0.0 ==> t <= 0 && t as real - 1.0 < r <= t as real
  {
    if r >= 0.0 then r.Floor else -((-r).Floor)
  }

  lemma TruncMonotone(a: real, b: real)
    requires a <= b
    ensures Trunc(a) <= Trunc(b)
  {
  }

  lemma TruncOfInt(n: int)
    ensures Trunc(n as real) == n
  {
  }

  /** From a non-negative value, adding at least 1 increases the truncation. */
  lemma TruncStep(a: real, d: real)
    requires a >= 0.0 && d >= 1.0
    ensures Trunc(a) < Trunc(a + d)
  {
  }

  /** A platform as the level data describes it: top-left corner, size, and surface properties. */
  datatype Platform = Platform(x: real, y: real, w: real, h: real, slope: int, slip: int, support: int, snow: int)

  function StartX(p: Platform): int { Trunc(p.x) }
  function EndX(p: Platform): int { Trunc(p.x + p.w) }
  function StartY(p: Platform): real { p.y - KING_FEET_OFFSET }
  function SampleStep(p: Platform): real { p.w / (SAMPLES - 1) as real }

  /** `range(a, b)`. */
  function Range(a: int, b: int): (r: seq<int>)
    ensures |r| == (if b > a then b - a else 0)
    ensures forall i :: 0 <= i < |r| ==> r[i] == a + i
    decreases b - a
  {
    if b <= a then [] else [a] + Range(a + 1, b)
  }

  /** Column i of a sweep from column s in steps of `step`: truncated, then clamped to column e. */
  function Column(s: int, e: int, step: real, i: int): int
  {
    var t := Trunc(s as real + i as real * step);
    if t > e then e else t
  }

  /** Sample i of a platform. */
  function RawSample(p: Platform, i: int): int
  {
    Column(StartX(p), EndX(p), SampleStep(p), i)
  }

  function RawSamples(p: Platform): (r: seq<int>)
    ensures |r| == SAMPLES
    ensures forall i :: 0 <= i < SAMPLES ==> r[i] == RawSample(p, i)
  {
    seq(SAMPLES, i => RawSample(p, i))
  }

  /**
   * The test positions: every pixel column of a platform narrower than SAMPLES,
   * otherwise the distinct raw samples in ascending order.
   */
  ghost function SamplePoints(p: Platform): seq<int>
  {
    if p.w < SAMPLES as real then Range(StartX(p), EndX(p) + 1)
    else SortedOf(set x | x in RawSamples(p))
  }

  /** Computes the test positions of a platform. */
  method PontosTeste(p: Platform) returns (pontos: seq<int>)
    ensures pontos == SamplePoints(p)
  {
    var startX := Trunc(p.x);
    var endX := Trunc(p.x + p.w);
    if p.w < SAMPLES as real {
      pontos := Range(startX, endX + 1);
    } else {
      var raw: seq<int> := [];
      var step := p.w / (SAMPLES - 1) as real;
      for i := 0 to SAMPLES
        invariant raw == seq(i, k => Column(startX, endX, step, k))
      {
        raw := raw + [Column(startX, endX, step, i)];
      }
      assert raw == RawSamples(p);
      pontos := SortedSet(set x | x in raw);
    }
  }

  lemma ProductNonNegative(a: real, b: real)
    requires 0.0 <= a && 0.0 <= b
    ensures 0.0 <= a * b
  {
  }

  /** A column of a forward sweep lies between its start and its clamp, when the start is not past the clamp. */
  lemma ColumnBounds(s: int, e: int, step: real, i: int)
    requires s <= e && 0.0 <= step && 0 <= i
    ensures s <= Column(s, e, step, i) <= e
  {
    var d := i as real * step;
    ProductNonNegative(i as real, step);
    TruncMonotone(s as real, s as real + d);
    TruncOfInt(s);
  }

  /** With steps of at least one column from a non-negative start, unclamped columns strictly ascend. */
  lemma ColumnsAscend(s: int, e: int, step: real, i: int, j: int)
    requires 0 <= s && 1.0 <= step && 0 <= i < j
    requires Trunc(s as real + j as real * step) <= e
    ensures Column(s, e, step, i) < Column(s, e, step, j) == Trunc(s as real + j as real * step)
  {
    var a := s as real + i as real * step;
    var b := s as real + j as real * step;
    var d := (j - i) as real * step;
    assert b == a + d;
    assert d >= step by {
      ProductNonNegative((j - i - 1) as real, step);
      assert d == (j - i - 1) as real * step + step;
    }
    ProductNonNegative(i as real, step);
    TruncStep(a, d);
  }

  /** Every raw sample lies between the platform's start and end columns. */
  lemma RawSampleBounds(p: Platform, i: int)
    requires p.w >= SAMPLES as real && 0 <= i
    ensures StartX(p) <= RawSample(p, i) <= EndX(p)
  {
    TruncMonotone(p.x, p.x + p.w);
    ColumnBounds(StartX(p), EndX(p), SampleStep(p), i);
  }

  /** The test positions are strictly ascending and lie on the platform's columns. */
  lemma SamplePointsBounds(p: Platform)
    ensures StrictlyAscending(SamplePoints(p))
    ensures forall q :: q in SamplePoints(p) ==> StartX(p) <= q <= EndX(p)
  {
    if p.w >= SAMPLES as real {
      var raws := set x | x in RawSamples(p);
      SortedOfSpec(raws);
      forall q | q in SamplePoints(p) ensures StartX(p) <= q <= EndX(p) {
        assert q in raws;
        var i :| 0 <= i < SAMPLES && RawSamples(p)[i] == q;
        RawSampleBounds(p, i);
      }
    } else {
      var r := Range(StartX(p), EndX(p) + 1);
      forall q | q in r ensures StartX(p) <= q <= EndX(p) {
        var i :| 0 <= i < |r| && r[i] == q;
      }
    }
  }

  /** A wide platform yields between 1 and SAMPLES positions, the first being its start column. */
  lemma SamplePointsWide(p: Platform)
    requires p.w >= SAMPLES as real
    ensures 1 <= |SamplePoints(p)| <= SAMPLES
    ensures SamplePoints(p)[0] == StartX(p)
  {
    var raw := RawSamples(p);
    var raws := set x | x in raw;
    var pts := SamplePoints(p);
    SortedOfSpec(raws);
    SamplePointsBounds(p);
    TruncOfInt(StartX(p));
    assert raw[0] == StartX(p);
    assert raw[0] in raws;
    SetOfSeqSize(raw);
    assert StartX(p) in pts;
    var k :| 0 <= k < |pts| && pts[k] == StartX(p);
    assert pts[0] in pts;
    assert StartX(p) <= pts[0] <= pts[k];
  }

  /** A platform narrower than SAMPLES is tested at each of its columns (none if it ends before it starts). */
  lemma SamplePointsNarrow(p: Platform)
    requires p.w < SAMPLES as real
    ensures |SamplePoints(p)| == (if EndX(p) >= StartX(p) then EndX(p) - StartX(p) + 1 else 0)
    ensures forall i :: 0 <= i < |SamplePoints(p)| ==> SamplePoints(p)[i] == StartX(p) + i
  {
  }

  /**
   * A wide platform at a non-negative x gets exactly SAMPLES positions,
   * sample i being column Trunc(start + i * w / 9): the last is Trunc(start + w).
   */
  lemma SamplePointsTen(p: Platform)
    requires p.w >= SAMPLES as real && p.x >= 0.0
    ensures SamplePoints(p) == RawSamples(p)
    ensures |SamplePoints(p)| == SAMPLES
    ensures SamplePoints(p)[SAMPLES - 1] == Trunc(StartX(p) as real + p.w)
  {
    var raw := RawSamples(p);
    var s := StartX(p);
    var e := EndX(p);
    var step := SampleStep(p);
    assert 9.0 * step == p.w;
    forall i, j | 0 <= i < j < SAMPLES ensures raw[i] < raw[j] {
      SampleUnclamped(p, j);
      ColumnsAscend(s, e, step, i, j);
    }
    SampleUnclamped(p, SAMPLES - 1);
    ColumnsAscend(s, e, step, 0, SAMPLES - 1);
    var raws := set x | x in raw;
    SortedOfSpec(raws);
    AscendingUnique(raw, SortedOf(raws));
  }

  /** A wide platform at a whole, non-negative x is tested at its end column last. */
  lemma SampleLastIsEnd(p: Platform)
    requires p.w >= SAMPLES as real && p.x >= 0.0 && p.x == p.x.Floor as real
    ensures |SamplePoints(p)| == SAMPLES
    ensures SamplePoints(p)[SAMPLES - 1] == EndX(p)
  {
    SamplePointsTen(p);
    TruncOfInt(p.x.Floor);
    assert StartX(p) as real == p.x;
  }

  /** The level-0 starting platform that the mapping test sweeps. */
  const START_PLATFORM: Platform := Platform(352.0, 185.0, 128.0, 175.0, 0, 0, 0, 0)

  /** Its test positions: ten columns, 128 / 9 apart before truncation, from 352 to 480. */
  lemma StartPlatformSamples()
    ensures SamplePoints(START_PLATFORM) == [352, 366, 380, 394, 408, 423, 437, 451, 465, 480]
  {
    var p := START_PLATFORM;
    SamplePointsTen(p);
    var raw := RawSamples(p);
    assert StartX(p) == 352 && EndX(p) == 480;
    assert SampleStep(p) == 128.0 / 9.0;
    assert raw[1] == Trunc(352.0 + 128.0 / 9.0) == 366;
    assert raw[2] == Trunc(352.0 + 256.0 / 9.0) == 380;
    assert raw[3] == Trunc(352.0 + 384.0 / 9.0) == 394;
    assert raw[4] == Trunc(352.0 + 512.0 / 9.0) == 408;
    assert raw[5] == Trunc(352.0 + 640.0 / 9.0) == 423;
    assert raw[6] == Trunc(352.0 + 768.0 / 9.0) == 437;
    assert raw[7] == Trunc(352.0 + 896.0 / 9.0) == 451;
    assert raw[8] == Trunc(352.0 + 1024.0 / 9.0) == 465;
    assert raw[9] == Trunc(352.0 + 128.0) == 480;
  }

  /** From a non-negative x, no sample of a wide platform needs clamping. */
  lemma SampleUnclamped(p: Platform, j: int)
    requires p.w >= SAMPLES as real && p.x >= 0.0 && 0 <= j < SAMPLES
    ensures Trunc(StartX(p) as real + j as real * SampleStep(p)) <= EndX(p)
  {
    var a := StartX(p) as real + j as real * SampleStep(p);
    StepWithin(StartX(p) as real, p.x, p.w, SampleStep(p), j);
    TruncMonotone(a, p.x + p.w);
  }

  /** j of the nine steps spanning a width, taken from at most x, end at most at x plus the width. */
  lemma StepWithin(s: real, x: real, w: real, step: real, j: int)
    requires s <= x && 9.0 * step == w && 0.0 <= step && 0 <= j <= 9
    ensures s + j as real * step <= x + w
  {
    var d := (9 - j) as real;
    ProductNonNegative(d, step);
    assert j as real * step == 9.0 * step - d * step;
  }

  /** A result key: the test position, the charge and the direction. */
  type Key = (int, int, string)

  /** The keys of the charges 0 .. n - 1 at one position, both directions per charge. */
  function ChargeKeys(px: int, n: nat): (r: seq<Key>)
  {
    seq(2 * n, i requires 0 <= i < 2 * n => (px, i / 2, DIRECTIONS[i % 2]))
  }

  lemma ChargeKeysSnoc(px: int, n: nat)
    ensures ChargeKeys(px, n + 1) == ChargeKeys(px, n) + [(px, n, RIGHT), (px, n, LEFT)]
  {
    var a := ChargeKeys(px, n + 1);
    var b := ChargeKeys(px, n) + [(px, n, RIGHT), (px, n, LEFT)];
    assert |a| == |b|;
    forall i | 0 <= i < |a| ensures a[i] == b[i] {
      if i == 2 * n {
        assert i / 2 == n && i % 2 == 0;
      } else if i == 2 * n + 1 {
        assert i / 2 == n && i % 2 == 1;
      }
    }
  }

  /** The keys in the order they are tried: positions, then charges, then directions. */
  function AllKeys(pontos: seq<int>): seq<Key>
    decreases |pontos|
  {
    if pontos == [] then []
    else AllKeys(pontos[..|pontos| - 1]) + ChargeKeys(pontos[|pontos| - 1], CHARGES)
  }

  lemma ChargeKeysShape(px: int, n: nat)
    ensures |ChargeKeys(px, n)| == 2 * n
    ensures Distinct(ChargeKeys(px, n))
    ensures forall k: Key :: k in ChargeKeys(px, n) <==> k.0 == px && 0 <= k.1 < n && k.2 in DIRECTIONS
  {
    var r := ChargeKeys(px, n);
    forall i, j | 0 <= i < j < |r| ensures r[i] != r[j] {
      if i / 2 == j / 2 {
        assert i % 2 != j % 2;
      }
    }
    forall k: Key | k.0 == px && 0 <= k.1 < n && k.2 in DIRECTIONS ensures k in r {
      var d := if k.2 == RIGHT then 0 else 1;
      var i := 2 * k.1 + d;
      assert i / 2 == k.1 && i % 2 == d;
      assert r[i] == k;
    }
  }

  /**
   * For distinct positions the keys are distinct, 72 per position, and they are
   * exactly the triples of a position, a charge below 36 and a direction.
   */
  lemma {:induction false} AllKeysShape(pontos: seq<int>)
    requires Distinct(pontos)
    ensures |AllKeys(pontos)| == |pontos| * (2 * CHARGES)
    ensures Distinct(AllKeys(pontos))
    ensures forall k :: k in AllKeys(pontos) <==> k.0 in pontos && 0 <= k.1 < CHARGES && k.2 in DIRECTIONS
    decreases |pontos|
  {
    if pontos != [] {
      var n := |pontos|;
      var front := pontos[..n - 1];
      var last := pontos[n - 1];
      assert Distinct(front);
      AllKeysShape(front);
      ChargeKeysShape(last, CHARGES);
      var a := AllKeys(front);
      var b := ChargeKeys(last, CHARGES);
      assert last !in front;
      assert forall k :: k in a ==> k !in b;
      DistinctAppend(a, b);
      assert pontos == front + [last];
      AllKeysMembers(front, last);
    }
  }

  /** Two distinct sequences with no common element concatenate to a distinct one. */
  lemma DistinctAppend<T>(a: seq<T>, b: seq<T>)
    requires Distinct(a) && Distinct(b)
    requires forall x :: x in a ==> x !in b
    ensures Distinct(a + b)
  {
    var c := a + b;
    forall i, j | 0 <= i < j < |c| ensures c[i] != c[j] {
      if i < |a| && j >= |a| {
        assert c[i] == a[i] && c[j] == b[j - |a|];
        assert a[i] in a;
      } else if i >= |a| {
        assert c[i] == b[i - |a|] && c[j] == b[j - |a|];
      }
    }
  }

  lemma AllKeysMembers(front: seq<int>, last: int)
    requires forall k :: k in AllKeys(front) <==> k.0 in front && 0 <= k.1 < CHARGES && k.2 in DIRECTIONS
    requires forall k: Key :: k in ChargeKeys(last, CHARGES) <==> k.0 == last && 0 <= k.1 < CHARGES && k.2 in DIRECTIONS
    ensures forall k :: k in AllKeys(front) + ChargeKeys(last, CHARGES) <==>
      k.0 in front + [last] && 0 <= k.1 < CHARGES && k.2 in DIRECTIONS
  {
  }

  /** The experiment of a key, from the platform's start height. */
  function InputOf(nivel: int, y: real, k: Key): Input
  {
    Input(nivel, k.0 as real, y, k.1, k.2)
  }

  function Inputs(nivel: int, y: real, keys: seq<Key>): (r: seq<Input>)
    ensures |r| == |keys|
    ensures forall i :: 0 <= i < |keys| ==> r[i] == InputOf(nivel, y, keys[i])
  {
    seq(|keys|, i requires 0 <= i < |keys| => InputOf(nivel, y, keys[i]))
  }

  lemma InputsSnoc(nivel: int, y: real, keys: seq<Key>, k: Key)
    ensures Inputs(nivel, y, keys + [k]) == Inputs(nivel, y, keys) + [InputOf(nivel, y, k)]
  {
  }

  /**
   * What mapping a platform does: the sweep over all keys' experiments, and
   * the map from each key to its landing, or the first rejected setup.
   */
  ghost function Mapping(tick: Tick, g: Game, nivel: int, p: Platform): (Result<map<Key, JumpOutcome>, Error>, Game)
  {
    var keys := AllKeys(SamplePoints(p));
    var run := Sweep(tick, g, Inputs(nivel, StartY(p), keys));
    SweepOk(tick, g, Inputs(nivel, StartY(p), keys));
    if run.outcomes.Err? then (Err(run.outcomes.error), run.game)
    else (Ok(ToMap(keys, run.outcomes.value)), run.game)
  }

  /**
   * Mapping succeeds exactly when the level, the start height and every test
   * position are in range (or there is no position); then the map has 72
   * entries per position, keyed exactly by the tried triples, and each key
   * holds the landing of its own experiment.
   */
  lemma MappingSpec(tick: Tick, g: Game, nivel: int, p: Platform)
    ensures var pts := SamplePoints(p);
      Mapping(tick, g, nivel, p).0.Ok? <==>
        (pts == [] || (ValidLevel(nivel) && ValidY(StartY(p)) && forall q :: q in pts ==> ValidX(q as real)))
    ensures var pts := SamplePoints(p);
      var r := Mapping(tick, g, nivel, p).0;
      r.Ok? ==>
        |r.value| == |pts| * (2 * CHARGES) &&
        (forall k :: k in r.value <==> k.0 in pts && 0 <= k.1 < CHARGES && k.2 in DIRECTIONS)
    ensures var keys := AllKeys(SamplePoints(p));
      var inputs := Inputs(nivel, StartY(p), keys);
      var r := Mapping(tick, g, nivel, p).0;
      r.Ok? ==> forall i :: 0 <= i < |keys| ==>
        keys[i] in r.value &&
        Experiment(tick, Sweep(tick, g, inputs[..i]).game, inputs[i]).0 == Ok(r.value[keys[i]])
  {
    MappingOk(tick, g, nivel, p);
    if Mapping(tick, g, nivel, p).0.Ok? {
      MappingContents(tick, g, nivel, p);
    }
  }

  lemma MappingOk(tick: Tick, g: Game, nivel: int, p: Platform)
    ensures Mapping(tick, g, nivel, p).0.Ok? <==> MappingInRange(nivel, p)
  {
    var inputs := Inputs(nivel, StartY(p), AllKeys(SamplePoints(p)));
    SweepOk(tick, g, inputs);
    MappingInputsValid(nivel, p);
  }

  /** Every experiment of the sequence has its level and position in range. */
  predicate AllValid(inputs: seq<Input>)
  {
    forall i :: 0 <= i < |inputs| ==> ValidInput(inputs[i])
  }

  /** The mapping's level, start height and positions are all in range (or there is no position). */
  ghost predicate MappingInRange(nivel: int, p: Platform)
  {
    var pts := SamplePoints(p);
    pts == [] || (ValidLevel(nivel) && ValidY(StartY(p)) && forall q :: q in pts ==> ValidX(q as real))
  }

  /** Every experiment of the mapping is valid exactly when the level, the start height and every position are. */
  lemma MappingInputsValid(nivel: int, p: Platform)
    ensures AllValid(Inputs(nivel, StartY(p), AllKeys(SamplePoints(p)))) <==> MappingInRange(nivel, p)
  {
    var pts := SamplePoints(p);
    SamplePointsBounds(p);
    AscendingDistinct(pts);
    AllKeysShape(pts);
    if MappingInRange(nivel, p) {
      InputsAllValid(nivel, p);
    } else {
      InputsSomeInvalid(nivel, p);
    }
  }

  lemma InputsAllValid(nivel: int, p: Platform)
    requires Distinct(SamplePoints(p)) && MappingInRange(nivel, p)
    ensures AllValid(Inputs(nivel, StartY(p), AllKeys(SamplePoints(p))))
  {
    var pts := SamplePoints(p);
    AllKeysShape(pts);
    var keys := AllKeys(pts);
    var inputs := Inputs(nivel, StartY(p), keys);
    forall i | 0 <= i < |inputs| ensures ValidInput(inputs[i]) {
      assert keys[i] in keys;
      assert inputs[i] == InputOf(nivel, StartY(p), keys[i]);
    }
  }

  lemma InputsSomeInvalid(nivel: int, p: Platform)
    requires Distinct(SamplePoints(p)) && !MappingInRange(nivel, p)
    ensures !AllValid(Inputs(nivel, StartY(p), AllKeys(SamplePoints(p))))
  {
    var pts := SamplePoints(p);
    var q := pts[0];
    assert q in pts;
    if ValidLevel(nivel) && ValidY(StartY(p)) {
      q :| q in pts && !ValidX(q as real);
    }
    var keys := AllKeys(pts);
    FirstKeyOf(pts, q);
    var i :| 0 <= i < |keys| && keys[i] == (q, 0, RIGHT);
    var inputs := Inputs(nivel, StartY(p), keys);
    assert inputs[i] == InputOf(nivel, StartY(p), (q, 0, RIGHT));
  }

  lemma FirstKeyOf(pts: seq<int>, q: int)
    requires Distinct(pts) && q in pts
    ensures (q, 0, RIGHT) in AllKeys(pts)
  {
    AllKeysShape(pts);
  }

  /** A successful mapping holds one entry per key, and each key holds the landing of its own experiment. */
  lemma MappingContents(tick: Tick, g: Game, nivel: int, p: Platform)
    requires Mapping(tick, g, nivel, p).0.Ok?
    ensures var pts := SamplePoints(p);
      var r := Mapping(tick, g, nivel, p).0;
      |r.value| == |pts| * (2 * CHARGES) &&
      (forall k :: k in r.value <==> k.0 in pts && 0 <= k.1 < CHARGES && k.2 in DIRECTIONS)
    ensures var keys := AllKeys(SamplePoints(p));
      var inputs := Inputs(nivel, StartY(p), keys);
      var r := Mapping(tick, g, nivel, p).0;
      forall i :: 0 <= i < |keys| ==>
        keys[i] in r.value &&
        Experiment(tick, Sweep(tick, g, inputs[..i]).game, inputs[i]).0 == Ok(r.value[keys[i]])
  {
    var pts := SamplePoints(p);
    SamplePointsBounds(p);
    AscendingDistinct(pts);
    AllKeysShape(pts);
    var keys := AllKeys(pts);
    var inputs := Inputs(nivel, StartY(p), keys);
    SweepOk(tick, g, inputs);
    var outs := Sweep(tick, g, inputs).outcomes.value;
    assert Mapping(tick, g, nivel, p).0 == Ok(ToMap(keys, outs));
    ToMapKeys(keys, outs);
    ToMapAt(keys, outs);
    forall i | 0 <= i < |keys|
      ensures Experiment(tick, Sweep(tick, g, inputs[..i]).game, inputs[i]).0 == Ok(ToMap(keys, outs)[keys[i]])
    {
      SweepAt(tick, g, inputs, i);
    }
  }

  lemma ChargeKeysPrefix(px: int, a: nat, b: nat)
    requires a <= b
    ensures ChargeKeys(px, a) <= ChargeKeys(px, b)
  {
    assert ChargeKeys(px, a) == ChargeKeys(px, b)[..2 * a];
  }

  lemma {:induction false} AllKeysPrefix(pontos: seq<int>, i: int)
    requires 0 <= i <= |pontos|
    ensures AllKeys(pontos[..i]) <= AllKeys(pontos)
    decreases |pontos| - i
  {
    if i < |pontos| {
      var n := |pontos|;
      AllKeysPrefix(pontos[..n - 1], i);
      assert pontos[..n - 1][..i] == pontos[..i];
    } else {
      assert pontos[..i] == pontos;
    }
  }

  /** The keys of the first n directions of charge c at one position. */
  function DirKeys(px: int, c: int, n: int): (r: seq<Key>)
    requires 0 <= n <= |DIRECTIONS|
    ensures |r| == n && forall j :: 0 <= j < n ==> r[j] == (px, c, DIRECTIONS[j])
  {
    seq(n, j requires 0 <= j < n => (px, c, DIRECTIONS[j]))
  }

  lemma DirKeysSnoc(px: int, c: int, n: int)
    requires 0 <= n < |DIRECTIONS|
    ensures DirKeys(px, c, n) + [(px, c, DIRECTIONS[n])] == DirKeys(px, c, n + 1)
  {
  }

  /** The first n directions of charge c continue the keys of the charges below c. */
  lemma ChargeKeysPartial(px: int, c: nat, n: int)
    requires 0 <= n <= |DIRECTIONS|
    ensures ChargeKeys(px, c) + DirKeys(px, c, n) == ChargeKeys(px, c + 1)[..2 * c + n]
  {
    var a := ChargeKeys(px, c) + DirKeys(px, c, n);
    var b := ChargeKeys(px, c + 1)[..2 * c + n];
    assert |a| == |b|;
    forall i | 0 <= i < |a| ensures a[i] == b[i] {
      if i >= 2 * c {
        assert i / 2 == c && i % 2 == i - 2 * c;
      }
    }
  }

  /** The keys tried up to direction n of charge c at one position come before that position's remaining keys. */
  lemma KeysSoFarPrefix(front: seq<Key>, px: int, c: nat, n: int)
    requires c < CHARGES && 0 <= n <= |DIRECTIONS|
    ensures front + ChargeKeys(px, c) + DirKeys(px, c, n) <= front + ChargeKeys(px, CHARGES)
  {
    var part := ChargeKeys(px, c + 1)[..2 * c + n];
    assert front + ChargeKeys(px, c) + DirKeys(px, c, n) == front + part by {
      ChargeKeysPartial(px, c, n);
    }
    ChargeKeysPrefix(px, c + 1, CHARGES);
    PrefixAppend(front, part, ChargeKeys(px, CHARGES));
  }

  lemma DirKeysPrefix(front: seq<Key>, px: int, c: int, n: int)
    requires 0 <= n <= |DIRECTIONS|
    ensures front + DirKeys(px, c, n) <= front + DirKeys(px, c, |DIRECTIONS|)
  {
    PrefixAppend(front, DirKeys(px, c, n), DirKeys(px, c, |DIRECTIONS|));
  }

  lemma AllKeysSnoc(pontos: seq<int>, i: int)
    requires 0 <= i < |pontos|
    ensures AllKeys(pontos[..i + 1]) == AllKeys(pontos[..i]) + ChargeKeys(pontos[i], CHARGES)
  {
    var q := pontos[..i + 1];
    assert q[..|q| - 1] == pontos[..i];
    assert q[|q| - 1] == pontos[i];
  }

  /** One more experiment of the mapping, after a successful prefix. */
  lemma SweepKeysStep(tick: Tick, g: Game, nivel: int, y: real, done: seq<Key>, k: Key,
                      outs: seq<JumpOutcome>, h: Game)
    requires |outs| == |done|
    requires Sweep(tick, g, Inputs(nivel, y, done)) == Run(Ok(outs), h)
    ensures var (r, h') := Experiment(tick, h, InputOf(nivel, y, k));
      Sweep(tick, g, Inputs(nivel, y, done + [k])) ==
        (if r.Err? then Run(Err(r.error), h') else Run(Ok(outs + [r.value]), h'))
    ensures forall v :: ToMap(done + [k], outs + [v]) == ToMap(done, outs)[k := v]
  {
    InputsSnoc(nivel, y, done, k);
    SweepExtend(tick, g, Inputs(nivel, y, done), InputOf(nivel, y, k), outs, h);
    forall v ensures ToMap(done + [k], outs + [v]) == ToMap(done, outs)[k := v] {
      assert (done + [k])[..|done|] == done;
      assert (outs + [v])[..|outs|] == outs;
    }
  }

  /** A setup rejected part way through a key sequence ends the sweep of any longer one with that error. */
  lemma KeysStopAt(tick: Tick, g: Game, nivel: int, y: real, prefix: seq<Key>, keys: seq<Key>, e: Error, h: Game)
    requires prefix <= keys
    requires Sweep(tick, g, Inputs(nivel, y, prefix)) == Run(Err(e), h)
    ensures Sweep(tick, g, Inputs(nivel, y, keys)) == Run(Err(e), h)
  {
    var rest := keys[|prefix|..];
    assert keys == prefix + rest;
    assert Inputs(nivel, y, keys) == Inputs(nivel, y, prefix) + Inputs(nivel, y, rest);
    SweepStaysFailed(tick, g, Inputs(nivel, y, prefix), Inputs(nivel, y, rest));
  }

  /** The sweep over the keys so far succeeded with outs, ends in game h, and acc maps each key to its outcome. */
  ghost predicate SweptKeys(tick: Tick, g: Game, nivel: int, y: real, keys: seq<Key>, outs: seq<JumpOutcome>,
                            h: Game, acc: map<Key, JumpOutcome>)
  {
    |outs| == |keys| && Sweep(tick, g, Inputs(nivel, y, keys)) == Run(Ok(outs), h) && acc == ToMap(keys, outs)
  }

  /** A successful experiment extends the sweep and the map by its key. */
  lemma KeyStepOk(tick: Tick, g: Game, nivel: int, y: real, done: seq<Key>, k: Key, outs: seq<JumpOutcome>,
                  h: Game, acc: map<Key, JumpOutcome>, v: JumpOutcome, h': Game)
    requires SweptKeys(tick, g, nivel, y, done, outs, h, acc)
    requires Experiment(tick, h, InputOf(nivel, y, k)) == (Ok(v), h')
    ensures SweptKeys(tick, g, nivel, y, done + [k], outs + [v], h', acc[k := v])
  {
    SweepKeysStep(tick, g, nivel, y, done, k, outs, h);
  }

  /** A rejected experiment ends the sweep of every key sequence that continues the keys so far and this key. */
  lemma KeyStepErr(tick: Tick, g: Game, nivel: int, y: real, done: seq<Key>, k: Key, outs: seq<JumpOutcome>,
                   h: Game, acc: map<Key, JumpOutcome>, e: Error, h': Game, later: seq<Key>)
    requires SweptKeys(tick, g, nivel, y, done, outs, h, acc)
    requires Experiment(tick, h, InputOf(nivel, y, k)) == (Err(e), h')
    requires done + [k] <= later
    ensures Sweep(tick, g, Inputs(nivel, y, later)) == Run(Err(e), h')
  {
    SweepKeysStep(tick, g, nivel, y, done, k, outs, h);
    KeysStopAt(tick, g, nivel, y, done + [k], later, e, h');
  }

  /** The two directions of charge c complete the keys of the charges up to c. */
  lemma ChargeDone(front: seq<Key>, px: int, c: nat)
    ensures front + ChargeKeys(px, c) + DirKeys(px, c, |DIRECTIONS|) == front + ChargeKeys(px, c + 1)
  {
    ChargeKeysPartial(px, c, |DIRECTIONS|);
    assert ChargeKeys(px, c + 1)[..2 * c + 2] == ChargeKeys(px, c + 1);
    assert front + ChargeKeys(px, c) + DirKeys(px, c, |DIRECTIONS|) == front + (ChargeKeys(px, c) + DirKeys(px, c, |DIRECTIONS|));
  }

  /** A charge rejected part way ends the sweep of the position's remaining keys. */
  lemma ChargeStopAt(tick: Tick, g: Game, nivel: int, y: real, front: seq<Key>, px: int, c: nat, e: Error, h: Game)
    requires c < CHARGES
    requires Sweep(tick, g, Inputs(nivel, y, front + ChargeKeys(px, c) + DirKeys(px, c, |DIRECTIONS|))) == Run(Err(e), h)
    ensures Sweep(tick, g, Inputs(nivel, y, front + ChargeKeys(px, CHARGES))) == Run(Err(e), h)
  {
    KeysSoFarPrefix(front, px, c, |DIRECTIONS|);
    KeysStopAt(tick, g, nivel, y, front + ChargeKeys(px, c) + DirKeys(px, c, |DIRECTIONS|),
               front + ChargeKeys(px, CHARGES), e, h);
  }

  /** A position rejected part way ends the whole mapping sweep. */
  lemma PositionStopAt(tick: Tick, g: Game, nivel: int, y: real, pontos: seq<int>, i: int, e: Error, h: Game)
    requires 0 <= i < |pontos|
    requires Sweep(tick, g, Inputs(nivel, y, AllKeys(pontos[..i]) + ChargeKeys(pontos[i], CHARGES))) == Run(Err(e), h)
    ensures Sweep(tick, g, Inputs(nivel, y, AllKeys(pontos))) == Run(Err(e), h)
  {
    AllKeysSnoc(pontos, i);
    AllKeysPrefix(pontos, i + 1);
    assert pontos[..|pontos|] == pontos;
    KeysStopAt(tick, g, nivel, y, AllKeys(pontos[..i + 1]), AllKeys(pontos), e, h);
  }

  /** A sweep over all the platform's keys that succeeded is the mapping's result. */
  lemma MappingDone(tick: Tick, g: Game, nivel: int, p: Platform, outs: seq<JumpOutcome>, h: Game,
                    acc: map<Key, JumpOutcome>)
    requires SweptKeys(tick, g, nivel, StartY(p), AllKeys(SamplePoints(p)), outs, h, acc)
    ensures Mapping(tick, g, nivel, p) == (Ok(acc), h)
  {
  }

  /** A position of the platform rejected part way is the mapping's failure. */
  lemma PositionFails(tick: Tick, g: Game, nivel: int, p: Platform, i: int, e: Error, h: Game)
    requires 0 <= i < |SamplePoints(p)|
    requires var pontos := SamplePoints(p);
      Sweep(tick, g, Inputs(nivel, StartY(p), AllKeys(pontos[..i]) + ChargeKeys(pontos[i], CHARGES))) == Run(Err(e), h)
    ensures Mapping(tick, g, nivel, p) == (Err(e), h)
  {
    PositionStopAt(tick, g, nivel, StartY(p), SamplePoints(p), i, e, h);
    MappingFailed(tick, g, nivel, p, e, h);
  }

  /** A sweep over all the platform's keys that failed is the mapping's failure. */
  lemma MappingFailed(tick: Tick, g: Game, nivel: int, p: Platform, e: Error, h: Game)
    requires Sweep(tick, g, Inputs(nivel, StartY(p), AllKeys(SamplePoints(p)))) == Run(Err(e), h)
    ensures Mapping(tick, g, nivel, p) == (Err(e), h)
  {
  }

  /** The explorer drives one test agent; its harness must be ready. */
  class ExploradorPlataforma {
    const agente: AgenteTeste
    const kingFeetOffset: int := 31

    predicate Valid()
      reads this, agente, agente.tester
    {
      agente.Valid()
    }

    constructor (agente: AgenteTeste)
      requires agente.Valid()
      ensures Valid() && this.agente == agente
    {
      this.agente := agente;
    }

    /**
     * Jumps from every test position of the platform with every charge from 0
     * to 35 in both directions and maps each (position, charge, direction) to
     * its landing. A rejected setup ends the mapping with its error.
     */
    method MapearPlataforma(nivelId: int, p: Platform) returns (r: Result<map<Key, JumpOutcome>, Error>)
      requires Valid()
      modifies agente.tester
      ensures Valid()
      ensures (r, agente.tester.game.value) == Mapping(agente.tester.tick, old(agente.tester.game.value), nivelId, p)
    {
      ghost var tick := agente.tester.tick;
      ghost var g0 := agente.tester.game.value;
      var startY := p.y - kingFeetOffset as real;
      assert startY == StartY(p);
      var pontos := PontosTeste(p);
      var resultados: map<Key, JumpOutcome> := map[];
      ghost var outs: seq<JumpOutcome> := [];
      for pi := 0 to |pontos|
        invariant Valid()
        invariant SweptKeys(tick, g0, nivelId, startY, AllKeys(pontos[..pi]), outs, agente.tester.game.value, resultados)
      {
        ghost var front := AllKeys(pontos[..pi]);
        var res;
        res, outs := MapearPosicao(nivelId, startY, pontos[pi], resultados, g0, front, outs);
        if res.Err? {
          PositionFails(tick, g0, nivelId, p, pi, res.error, agente.tester.game.value);
          return Err(res.error);
        }
        AllKeysSnoc(pontos, pi);
        resultados := res.value;
      }
      assert pontos[..|pontos|] == pontos;
      MappingDone(tick, g0, nivelId, p, outs, agente.tester.game.value, resultados);
      r := Ok(resultados);
    }

    /**
     * The 72 experiments at one test position, continuing a successful sweep
     * over the keys `front` whose results are stored in `resultados`.
     */
    method MapearPosicao(nivelId: int, startY: real, posX: int, resultados: map<Key, JumpOutcome>,
                         ghost g0: Game, ghost front: seq<Key>, ghost outs0: seq<JumpOutcome>)
      returns (r: Result<map<Key, JumpOutcome>, Error>, ghost outs: seq<JumpOutcome>)
      requires Valid()
      requires SweptKeys(agente.tester.tick, g0, nivelId, startY, front, outs0, agente.tester.game.value, resultados)
      modifies agente.tester
      ensures Valid()
      ensures var keys := front + ChargeKeys(posX, CHARGES);
        r.Ok? ==> SweptKeys(agente.tester.tick, g0, nivelId, startY, keys, outs, agente.tester.game.value, r.value)
      ensures var keys := front + ChargeKeys(posX, CHARGES);
        r.Err? ==> Sweep(agente.tester.tick, g0, Inputs(nivelId, startY, keys)) == Run(Err(r.error), agente.tester.game.value)
    {
      ghost var tick := agente.tester.tick;
      var acc := resultados;
      outs := outs0;
      assert front + ChargeKeys(posX, 0) == front;
      for carga := 0 to CHARGES
        invariant Valid()
        invariant SweptKeys(tick, g0, nivelId, startY, front + ChargeKeys(posX, carga), outs, agente.tester.game.value, acc)
      {
        ghost var before := front + ChargeKeys(posX, carga);
        var res;
        res, outs := MapearCarga(nivelId, startY, posX, carga, acc, g0, before, outs);
        ChargeDone(front, posX, carga);
        if res.Err? {
          ChargeStopAt(tick, g0, nivelId, startY, front, posX, carga, res.error, agente.tester.game.value);
          return Err(res.error), outs;
        }
        acc := res.value;
      }
      r := Ok(acc);
    }

    /** The experiments of one charge at one test position, one per direction. */
    method MapearCarga(nivelId: int, startY: real, posX: int, carga: int, resultados: map<Key, JumpOutcome>,
                       ghost g0: Game, ghost before: seq<Key>, ghost outs0: seq<JumpOutcome>)
      returns (r: Result<map<Key, JumpOutcome>, Error>, ghost outs: seq<JumpOutcome>)
      requires Valid()
      requires SweptKeys(agente.tester.tick, g0, nivelId, startY, before, outs0, agente.tester.game.value, resultados)
      modifies agente.tester
      ensures Valid()
      ensures var keys := before + DirKeys(posX, carga, |DIRECTIONS|);
        r.Ok? ==> SweptKeys(agente.tester.tick, g0, nivelId, startY, keys, outs, agente.tester.game.value, r.value)
      ensures var keys := before + DirKeys(posX, carga, |DIRECTIONS|);
        r.Err? ==> Sweep(agente.tester.tick, g0, Inputs(nivelId, startY, keys)) == Run(Err(r.error), agente.tester.game.value)
    {
      ghost var tick := agente.tester.tick;
      var acc := resultados;
      outs := outs0;
      ghost var done := before;
      for di := 0 to |DIRECTIONS|
        invariant Valid()
        invariant done == before + DirKeys(posX, carga, di)
        invariant SweptKeys(tick, g0, nivelId, startY, done, outs, agente.tester.game.value, acc)
      {
        var direcao := DIRECTIONS[di];
        var chave := (posX, carga, direcao);
        var inp := Input(nivelId, posX as real, startY, carga, direcao);
        assert inp == InputOf(nivelId, startY, chave);
        DirKeysSnoc(posX, carga, di);
        ghost var h := agente.tester.game.value;
        var resultado := agente.RunExperiment(inp);
        if resultado.Err? {
          DirKeysPrefix(before, posX, carga, di + 1);
          KeyStepErr(tick, g0, nivelId, startY, done, chave, outs, h, acc, resultado.error, agente.tester.game.value,
                     before + DirKeys(posX, carga, |DIRECTIONS|));
          return Err(resultado.error), outs;
        }
        KeyStepOk(tick, g0, nivelId, startY, done, chave, outs, h, acc, resultado.value, agente.tester.game.value);
        acc := acc[chave := resultado.value];
        outs := outs + [resultado.value];
        done := done + [chave];
      }
      r := Ok(acc);
    }
  }
}
