/**
 * The reachability tester: sweeps every combination of start level, start
 * position, charge and direction through the test agent, expands the landing
 * positions layer by layer, turns the results into a multigraph, and groups
 * the graph's heights into tiers.
 */
module Reachability {
  import opened Wrappers
  import opened GameState
  import opened Tester
  import opened Agent
  import opened Seqs
  import opened ReachGraph
  import opened Tiers

  /** One jump of a sweep: where it started, how it was made, and where it ended. */
  datatype Record = Record(nivelInicial: int, xInicial: real, yInicial: real, carga: int, direcao: string,
                           nivelFinal: int, xFinal: real, yFinal: real)

  function RecordOf(inp: Input, o: JumpOutcome): Record
  {
    Record(inp.level, inp.x, inp.y, inp.charge, inp.direcao, o.level, o.x, o.y)
  }

  /** The records of experiments and their outcomes, pairwise. */
  function Records(inputs: seq<Input>, outs: seq<JumpOutcome>): (r: seq<Record>)
    requires |inputs| == |outs|
    ensures |r| == |inputs| && forall i :: 0 <= i < |r| ==> r[i] == RecordOf(inputs[i], outs[i])
  {
    seq(|inputs|, i requires 0 <= i < |inputs| => RecordOf(inputs[i], outs[i]))
  }

  /** A record read as a dictionary: every field present. */
  function AsEntry(r: Record): (e: Entry)
    ensures Complete(e) && Takeoff(e) == (r.xInicial, r.yInicial) && Touchdown(e) == (r.xFinal, r.yFinal)
  {
    Entry(Some(r.nivelInicial), Some(r.xInicial), Some(r.yInicial), r.carga, r.direcao,
          Some(r.nivelFinal), Some(r.xFinal), Some(r.yFinal))
  }

  function Entries(rs: seq<Record>): (es: seq<Entry>)
    ensures |es| == |rs| && forall i :: 0 <= i < |rs| ==> es[i] == AsEntry(rs[i])
  {
    seq(|rs|, i requires 0 <= i < |rs| => AsEntry(rs[i]))
  }

  /** Records of a sweep are never skipped by the graph: one edge per record, in order. */
  lemma {:induction false} RecordsAllKept(rs: seq<Record>)
    ensures Kept(Entries(rs)) == Entries(rs)
    decreases |rs|
  {
    if rs != [] {
      var n := |rs|;
      RecordsAllKept(rs[..n - 1]);
      assert Entries(rs)[..n - 1] == Entries(rs[..n - 1]);
    }
  }

  // ---------------------------------------------------------------
  // The cross-product sweep
  // ---------------------------------------------------------------

  /** The experiments of one charge at one start: one per direction. */
  function DirBlock(nivel: int, pos: Point, carga: int, direcoes: seq<string>): seq<Input>
  {
    seq(|direcoes|, d requires 0 <= d < |direcoes| => Input(nivel, pos.0, pos.1, carga, direcoes[d]))
  }

  /** The experiments of one start: one block per charge. */
  function ChargeBlocks(nivel: int, pos: Point, cargas: seq<int>, direcoes: seq<string>): seq<seq<Input>>
  {
    seq(|cargas|, c requires 0 <= c < |cargas| => DirBlock(nivel, pos, cargas[c], direcoes))
  }

  /** The experiments of one level: one block per start position. */
  function PosBlocks(nivel: int, posicoes: seq<Point>, cargas: seq<int>, direcoes: seq<string>): seq<seq<Input>>
  {
    seq(|posicoes|, b requires 0 <= b < |posicoes| => Flatten(ChargeBlocks(nivel, posicoes[b], cargas, direcoes)))
  }

  /** The whole sweep: one block per level. */
  function LevelBlocks(niveis: seq<int>, posicoes: seq<Point>, cargas: seq<int>, direcoes: seq<string>): seq<seq<Input>>
  {
    seq(|niveis|, a requires 0 <= a < |niveis| => Flatten(PosBlocks(niveis[a], posicoes, cargas, direcoes)))
  }

  /** Every combination in loop order: level, then position, then charge, then direction. */
  function Grid(niveis: seq<int>, posicoes: seq<Point>, cargas: seq<int>, direcoes: seq<string>): seq<Input>
  {
    Flatten(LevelBlocks(niveis, posicoes, cargas, direcoes))
  }

  lemma ChargeBlockSizes(nivel: int, pos: Point, cargas: seq<int>, direcoes: seq<string>)
    ensures |Flatten(ChargeBlocks(nivel, pos, cargas, direcoes))| == |cargas| * |direcoes|
  {
    FlattenLength(ChargeBlocks(nivel, pos, cargas, direcoes), |direcoes|);
  }

  lemma PosBlockSizes(nivel: int, posicoes: seq<Point>, cargas: seq<int>, direcoes: seq<string>)
    ensures |Flatten(PosBlocks(nivel, posicoes, cargas, direcoes))| == |posicoes| * (|cargas| * |direcoes|)
  {
    var bs := PosBlocks(nivel, posicoes, cargas, direcoes);
    forall b | 0 <= b < |bs| ensures |bs[b]| == |cargas| * |direcoes| {
      ChargeBlockSizes(nivel, posicoes[b], cargas, direcoes);
    }
    FlattenLength(bs, |cargas| * |direcoes|);
  }

  lemma LevelBlockSizes(niveis: seq<int>, posicoes: seq<Point>, cargas: seq<int>, direcoes: seq<string>)
    ensures forall a :: 0 <= a < |niveis| ==>
      |LevelBlocks(niveis, posicoes, cargas, direcoes)[a]| == |posicoes| * (|cargas| * |direcoes|)
  {
    forall a | 0 <= a < |niveis|
      ensures |LevelBlocks(niveis, posicoes, cargas, direcoes)[a]| == |posicoes| * (|cargas| * |direcoes|)
    {
      PosBlockSizes(niveis[a], posicoes, cargas, direcoes);
    }
  }

  lemma NonNegativeProduct(x: int, y: int)
    requires 0 <= x && 0 <= y
    ensures 0 <= x * y
  {
  }

  lemma OneRow(x: int, y: int)
    ensures x * (1 * y) == x * y
  {
  }

  lemma AddOneRow(n: int, m: int)
    ensures (n - 1) * m + m == n * m
  {
  }

  /** Mixed-radix position of (a, b, c, d) in the loop order. */
  function GridIndex(a: int, b: int, c: int, d: int, p: int, q: int, r: int): int
  {
    ((a * p + b) * q + c) * r + d
  }

  lemma GridIndexSplit(a: int, b: int, c: int, d: int, p: int, q: int, r: int)
    ensures GridIndex(a, b, c, d, p, q, r) == a * (p * (q * r)) + (b * (q * r) + (c * r + d))
  {
    calc {
      ((a * p + b) * q + c) * r + d;
      == { assert (a * p + b) * q == a * p * q + b * q; }
      (a * p * q + b * q + c) * r + d;
      == { assert (a * p * q + b * q + c) * r == a * p * q * r + b * q * r + c * r; }
      a * p * q * r + b * q * r + c * r + d;
      == { assert a * p * q * r == a * (p * (q * r)); assert b * q * r == b * (q * r); }
      a * (p * (q * r)) + (b * (q * r) + (c * r + d));
    }
  }

  /** Inside one start's block, (c, d) sits at c * |direcoes| + d. */
  lemma ChargeBlockAt(nivel: int, pos: Point, cargas: seq<int>, direcoes: seq<string>, c: int, d: int)
    requires 0 <= c < |cargas| && 0 <= d < |direcoes|
    ensures var s := Flatten(ChargeBlocks(nivel, pos, cargas, direcoes));
      c * |direcoes| + d < |s| && s[c * |direcoes| + d] == Input(nivel, pos.0, pos.1, cargas[c], direcoes[d])
  {
    var cbs := ChargeBlocks(nivel, pos, cargas, direcoes);
    assert forall k :: 0 <= k < |cbs| ==> |cbs[k]| == |direcoes|;
    FlattenAt(cbs, |direcoes|, c, d);
  }

  /** Inside one level's block, (b, c, d) sits at b * (|cargas| * |direcoes|) + c * |direcoes| + d. */
  lemma PosBlockAt(nivel: int, posicoes: seq<Point>, cargas: seq<int>, direcoes: seq<string>, b: int, c: int, d: int)
    requires 0 <= b < |posicoes| && 0 <= c < |cargas| && 0 <= d < |direcoes|
    ensures var s := Flatten(PosBlocks(nivel, posicoes, cargas, direcoes));
      var i := b * (|cargas| * |direcoes|) + (c * |direcoes| + d);
      i < |s| && s[i] == Input(nivel, posicoes[b].0, posicoes[b].1, cargas[c], direcoes[d])
  {
    var C, D := |cargas|, |direcoes|;
    var pbs := PosBlocks(nivel, posicoes, cargas, direcoes);
    forall k | 0 <= k < |pbs| ensures |pbs[k]| == C * D {
      ChargeBlockSizes(nivel, posicoes[k], cargas, direcoes);
    }
    ChargeBlockAt(nivel, posicoes[b], cargas, direcoes, c, d);
    ChargeBlockSizes(nivel, posicoes[b], cargas, direcoes);
    assert 0 <= c * D + d < C * D;
    FlattenAt(pbs, C * D, b, c * D + d);
  }

  /**
   * The sweep covers all |niveis| * |posicoes| * |cargas| * |direcoes|
   * combinations in loop order: combination (a, b, c, d) sits at its
   * mixed-radix index.
   */
  lemma GridAt(niveis: seq<int>, posicoes: seq<Point>, cargas: seq<int>, direcoes: seq<string>,
               a: int, b: int, c: int, d: int)
    requires 0 <= a < |niveis| && 0 <= b < |posicoes| && 0 <= c < |cargas| && 0 <= d < |direcoes|
    ensures var i := GridIndex(a, b, c, d, |posicoes|, |cargas|, |direcoes|);
      0 <= i < |Grid(niveis, posicoes, cargas, direcoes)| &&
      Grid(niveis, posicoes, cargas, direcoes)[i] == Input(niveis[a], posicoes[b].0, posicoes[b].1, cargas[c], direcoes[d])
  {
    var P, C, D := |posicoes|, |cargas|, |direcoes|;
    var j := b * (C * D) + (c * D + d);
    PosBlockAt(niveis[a], posicoes, cargas, direcoes, b, c, d);
    PosBlockSizes(niveis[a], posicoes, cargas, direcoes);
    MulLess(c, C, D, d);
    NonNegativeProduct(c, D);
    MulLess(b, P, C * D, c * D + d);
    NonNegativeProduct(b, C * D);
    NonNegativeProduct(a, P * (C * D));
    var lbs := LevelBlocks(niveis, posicoes, cargas, direcoes);
    LevelBlockSizes(niveis, posicoes, cargas, direcoes);
    FlattenAt(lbs, P * (C * D), a, j);
    GridIndexSplit(a, b, c, d, P, C, D);
  }

  /** The sweep has |niveis| * |posicoes| * |cargas| * |direcoes| experiments. */
  lemma GridLength(niveis: seq<int>, posicoes: seq<Point>, cargas: seq<int>, direcoes: seq<string>)
    ensures |Grid(niveis, posicoes, cargas, direcoes)| == |niveis| * (|posicoes| * (|cargas| * |direcoes|))
  {
    LevelBlockSizes(niveis, posicoes, cargas, direcoes);
    FlattenLength(LevelBlocks(niveis, posicoes, cargas, direcoes), |posicoes| * (|cargas| * |direcoes|));
  }

  /** Every experiment of the sweep starts at one of the given levels and positions. */
  lemma GridMember(niveis: seq<int>, posicoes: seq<Point>, cargas: seq<int>, direcoes: seq<string>, x: Input)
    requires x in Grid(niveis, posicoes, cargas, direcoes)
    ensures exists a, b :: 0 <= a < |niveis| && 0 <= b < |posicoes| && x.level == niveis[a] && (x.x, x.y) == posicoes[b]
  {
    var lbs := LevelBlocks(niveis, posicoes, cargas, direcoes);
    FlattenMember(lbs, x);
    var a :| 0 <= a < |lbs| && x in lbs[a];
    var pbs := PosBlocks(niveis[a], posicoes, cargas, direcoes);
    FlattenMember(pbs, x);
    var b :| 0 <= b < |pbs| && x in pbs[b];
    var cbs := ChargeBlocks(niveis[a], posicoes[b], cargas, direcoes);
    FlattenMember(cbs, x);
    var c :| 0 <= c < |cbs| && x in cbs[c];
    var s := DirBlock(niveis[a], posicoes[b], cargas[c], direcoes);
    assert x in s;
    var d :| 0 <= d < |s| && s[d] == x;
    assert x == Input(niveis[a], posicoes[b].0, posicoes[b].1, cargas[c], direcoes[d]);
  }

  /** What a sweep over the given experiments yields: its records, or the first rejected setup. */
  function SweepRecords(tick: Tick, g: Game, inputs: seq<Input>): (Result<seq<Record>, Error>, Game)
  {
    var run := Sweep(tick, g, inputs);
    SweepOk(tick, g, inputs);
    if run.outcomes.Err? then (Err(run.outcomes.error), run.game)
    else (Ok(Records(inputs, run.outcomes.value)), run.game)
  }

  /** What `testar_combinacoes` yields. */
  function Combinations(tick: Tick, g: Game, niveis: seq<int>, posicoes: seq<Point>, cargas: seq<int>,
                        direcoes: seq<string>): (Result<seq<Record>, Error>, Game)
  {
    SweepRecords(tick, g, Grid(niveis, posicoes, cargas, direcoes))
  }

  /** Every start level is in range and every start position is on screen. */
  predicate StartsValid(niveis: seq<int>, posicoes: seq<Point>)
  {
    (forall a :: 0 <= a < |niveis| ==> ValidLevel(niveis[a])) &&
    (forall b :: 0 <= b < |posicoes| ==> ValidX(posicoes[b].0) && ValidY(posicoes[b].1))
  }

  /** Record i of a successful sweep holds input i and the landing its own jump reached. */
  lemma SweepRecordAt(tick: Tick, g: Game, inputs: seq<Input>, i: int)
    requires SweepRecords(tick, g, inputs).0.Ok?
    requires 0 <= i < |inputs|
    ensures var r := SweepRecords(tick, g, inputs).0;
      var o := Experiment(tick, Sweep(tick, g, inputs[..i]).game, inputs[i]).0;
      i < |r.value| && o.Ok? && r.value[i] == RecordOf(inputs[i], o.value)
  {
    SweepAt(tick, g, inputs, i);
  }

  /**
   * A sweep yields records exactly when every experiment is valid; then
   * record i holds input i and the landing its own jump reached from the
   * game the earlier jumps left.
   */
  lemma SweepRecordsSpec(tick: Tick, g: Game, inputs: seq<Input>)
    ensures SweepRecords(tick, g, inputs).0.Ok? <==> forall i :: 0 <= i < |inputs| ==> ValidInput(inputs[i])
    ensures var r := SweepRecords(tick, g, inputs).0;
      r.Ok? ==> (|r.value| == |inputs| &&
                 forall i :: 0 <= i < |inputs| ==>
                   var o := Experiment(tick, Sweep(tick, g, inputs[..i]).game, inputs[i]).0;
                   o.Ok? && r.value[i] == RecordOf(inputs[i], o.value))
  {
    SweepOk(tick, g, inputs);
    var r := SweepRecords(tick, g, inputs).0;
    if r.Ok? {
      forall i | 0 <= i < |inputs|
        ensures var o := Experiment(tick, Sweep(tick, g, inputs[..i]).game, inputs[i]).0;
          o.Ok? && r.value[i] == RecordOf(inputs[i], o.value)
      {
        SweepRecordAt(tick, g, inputs, i);
      }
    }
  }

  /**
   * The sweep succeeds when every start is valid, and fails whenever some
   * start is invalid and every list is nonempty (with an empty list no
   * setup is ever attempted).
   */
  lemma CombinationsValid(tick: Tick, g: Game, niveis: seq<int>, posicoes: seq<Point>, cargas: seq<int>,
                          direcoes: seq<string>)
    ensures StartsValid(niveis, posicoes) ==> Combinations(tick, g, niveis, posicoes, cargas, direcoes).0.Ok?
    ensures (|niveis| > 0 && |posicoes| > 0 && |cargas| > 0 && |direcoes| > 0 &&
             Combinations(tick, g, niveis, posicoes, cargas, direcoes).0.Ok?) ==> StartsValid(niveis, posicoes)
  {
    var grid := Grid(niveis, posicoes, cargas, direcoes);
    SweepRecordsSpec(tick, g, grid);
    if StartsValid(niveis, posicoes) {
      forall i | 0 <= i < |grid| ensures ValidInput(grid[i]) {
        assert grid[i] in grid;
        GridMember(niveis, posicoes, cargas, direcoes, grid[i]);
      }
    }
    if |niveis| > 0 && |posicoes| > 0 && |cargas| > 0 && |direcoes| > 0 && SweepRecords(tick, g, grid).0.Ok? {
      forall a | 0 <= a < |niveis| ensures ValidLevel(niveis[a]) {
        GridAt(niveis, posicoes, cargas, direcoes, a, 0, 0, 0);
      }
      forall b | 0 <= b < |posicoes| ensures ValidX(posicoes[b].0) && ValidY(posicoes[b].1) {
        GridAt(niveis, posicoes, cargas, direcoes, 0, b, 0, 0);
      }
    }
  }

  /** A successful sweep has one record per combination. */
  lemma CombinationsCount(tick: Tick, g: Game, niveis: seq<int>, posicoes: seq<Point>, cargas: seq<int>,
                          direcoes: seq<string>)
    ensures var r := Combinations(tick, g, niveis, posicoes, cargas, direcoes).0;
      r.Ok? ==> |r.value| == |niveis| * (|posicoes| * (|cargas| * |direcoes|))
  {
    SweepRecordsSpec(tick, g, Grid(niveis, posicoes, cargas, direcoes));
    GridLength(niveis, posicoes, cargas, direcoes);
  }

  /**
   * In a successful sweep, the record at the mixed-radix index of (a, b, c,
   * d) starts at level a and position b, was made with charge c and
   * direction d, and holds the landing of that jump.
   */
  lemma CombinationsAt(tick: Tick, g: Game, niveis: seq<int>, posicoes: seq<Point>, cargas: seq<int>,
                       direcoes: seq<string>, a: int, b: int, c: int, d: int)
    requires Combinations(tick, g, niveis, posicoes, cargas, direcoes).0.Ok?
    requires 0 <= a < |niveis| && 0 <= b < |posicoes| && 0 <= c < |cargas| && 0 <= d < |direcoes|
    ensures var i := GridIndex(a, b, c, d, |posicoes|, |cargas|, |direcoes|);
      0 <= i < |Grid(niveis, posicoes, cargas, direcoes)| &&
      i < |Combinations(tick, g, niveis, posicoes, cargas, direcoes).0.value|
    ensures var r := Combinations(tick, g, niveis, posicoes, cargas, direcoes).0;
      var grid := Grid(niveis, posicoes, cargas, direcoes);
      var i := GridIndex(a, b, c, d, |posicoes|, |cargas|, |direcoes|);
      var o := Experiment(tick, Sweep(tick, g, grid[..i]).game, grid[i]).0;
      o.Ok? &&
      r.value[i] == Record(niveis[a], posicoes[b].0, posicoes[b].1, cargas[c], direcoes[d], o.value.level, o.value.x, o.value.y)
  {
    var grid := Grid(niveis, posicoes, cargas, direcoes);
    var i := GridIndex(a, b, c, d, |posicoes|, |cargas|, |direcoes|);
    GridAt(niveis, posicoes, cargas, direcoes, a, b, c, d);
    SweepRecordAt(tick, g, grid, i);
  }

  /**
   * The state of a sweep run as far as `inputs`: on success the records so
   * far and the outcomes behind them, otherwise the first error; h is the game.
   */
  ghost predicate Swept(tick: Tick, g: Game, inputs: seq<Input>, r: Result<seq<Record>, Error>,
                        outs: seq<JumpOutcome>, h: Game)
  {
    if r.Ok? then |outs| == |inputs| && Sweep(tick, g, inputs) == Run(Ok(outs), h) && r.value == Records(inputs, outs)
    else Sweep(tick, g, inputs) == Run(Err(r.error), h)
  }

  /** A sweep state reached over all of `inputs` is what SweepRecords yields. */
  lemma SweptRecords(tick: Tick, g: Game, inputs: seq<Input>, r: Result<seq<Record>, Error>,
                     outs: seq<JumpOutcome>, h: Game)
    requires Swept(tick, g, inputs, r, outs, h)
    ensures SweepRecords(tick, g, inputs) == (r, h)
  {
  }

  lemma BlockConcat<T>(done: seq<T>, bs: seq<seq<T>>, i: int)
    requires 0 <= i < |bs|
    ensures done + Flatten(bs[..i]) + bs[i] == done + Flatten(bs[..i + 1])
  {
    assert bs[..i + 1] == bs[..i] + [bs[i]];
    FlattenSnoc(bs[..i], bs[i]);
  }

  lemma BlockPrefix<T>(done: seq<T>, bs: seq<seq<T>>, i: int)
    requires 0 <= i < |bs|
    ensures done + Flatten(bs[..i]) + bs[i] <= done + Flatten(bs)
  {
    FlattenPrefix(bs, i, bs[i]);
    PrefixAfter(done, Flatten(bs[..i]), bs[i], Flatten(bs));
  }

  lemma PrefixAfter<T>(a: seq<T>, x: seq<T>, y: seq<T>, z: seq<T>)
    requires x + y <= z
    ensures a + x + y <= a + z
  {
    assert a + x + y == a + (x + y);
    PrefixAppend(a, x + y, z);
  }

  /** After one block of a block sequence, the sweep has reached the next prefix, or has failed for good. */
  lemma BlockStep(tick: Tick, g: Game, done: seq<Input>, bs: seq<seq<Input>>, i: int,
                  r: Result<seq<Record>, Error>, outs: seq<JumpOutcome>, h: Game)
    requires 0 <= i < |bs|
    requires Swept(tick, g, done + Flatten(bs[..i]) + bs[i], r, outs, h)
    ensures r.Ok? ==> Swept(tick, g, done + Flatten(bs[..i + 1]), r, outs, h)
    ensures r.Err? ==> Swept(tick, g, done + Flatten(bs), r, outs, h)
  {
    var pre := done + Flatten(bs[..i]) + bs[i];
    BlockConcat(done, bs, i);
    if r.Err? {
      BlockPrefix(done, bs, i);
      SweepPrefixFailed(tick, g, pre, done + Flatten(bs));
    }
  }

  /** One more experiment of a sweep that has succeeded so far. */
  lemma ExperimentStep(tick: Tick, g: Game, done: seq<Input>, s: seq<Input>, d: int,
                       acc: seq<Record>, outs: seq<JumpOutcome>, h: Game)
    requires 0 <= d < |s|
    requires Swept(tick, g, done + s[..d], Ok(acc), outs, h)
    ensures var (o, h') := Experiment(tick, h, s[d]);
      if o.Ok? then Swept(tick, g, done + s[..d + 1], Ok(acc + [RecordOf(s[d], o.value)]), outs + [o.value], h')
      else Swept(tick, g, done + s, Err(o.error), outs, h')
  {
    var pre := done + s[..d];
    assert pre + [s[d]] == done + s[..d + 1];
    SweepExtend(tick, g, pre, s[d], outs, h);
    var (o, h') := Experiment(tick, h, s[d]);
    if o.Ok? {
      assert Records(pre + [s[d]], outs + [o.value]) == Records(pre, outs) + [RecordOf(s[d], o.value)];
    } else {
      PrefixAppend(done, s[..d + 1], s);
      SweepPrefixFailed(tick, g, done + s[..d + 1], done + s);
    }
  }

  // ---------------------------------------------------------------
  // Layer-by-layer expansion
  // ---------------------------------------------------------------

  function LandingPoint(r: Record): Point
  {
    (r.xFinal, r.yFinal)
  }

  /** A landing seeds the next layer when the filter is off, or when it moved more than tol vertically. */
  predicate Admits(r: Record, y0: real, tol: real, usar: bool)
  {
    !usar || Abs(r.yFinal - y0) > tol
  }

  /** The landings of a start's records that seed the next layer, in record order, repeats kept. */
  function Admitted(recs: seq<Record>, y0: real, tol: real, usar: bool): seq<Point>
    decreases |recs|
  {
    if recs == [] then []
    else
      var r := recs[|recs| - 1];
      Admitted(recs[..|recs| - 1], y0, tol, usar) + (if Admits(r, y0, tol, usar) then [LandingPoint(r)] else [])
  }

  /**
   * Without the filter every landing is admitted, once per record and in
   * order; with it a point is admitted exactly when some record lands there
   * after moving more than tol vertically. Nothing is ever de-duplicated.
   */
  lemma {:induction false} AdmittedSpec(recs: seq<Record>, y0: real, tol: real, usar: bool)
    ensures !usar ==> Admitted(recs, y0, tol, usar) == seq(|recs|, i requires 0 <= i < |recs| => LandingPoint(recs[i]))
    ensures |Admitted(recs, y0, tol, usar)| <= |recs|
    ensures forall p :: p in Admitted(recs, y0, tol, usar) <==>
      exists i :: 0 <= i < |recs| && LandingPoint(recs[i]) == p && Admits(recs[i], y0, tol, usar)
    decreases |recs|
  {
    if recs != [] {
      var n := |recs|;
      var front := recs[..n - 1];
      AdmittedSpec(front, y0, tol, usar);
      assert forall i :: 0 <= i < n - 1 ==> front[i] == recs[i];
      forall p ensures p in Admitted(recs, y0, tol, usar) <==>
        exists i :: 0 <= i < n && LandingPoint(recs[i]) == p && Admits(recs[i], y0, tol, usar)
      {
        if exists i :: 0 <= i < n && LandingPoint(recs[i]) == p && Admits(recs[i], y0, tol, usar) {
          var i :| 0 <= i < n && LandingPoint(recs[i]) == p && Admits(recs[i], y0, tol, usar);
          if i < n - 1 {
            assert LandingPoint(front[i]) == p && Admits(front[i], y0, tol, usar);
          }
        }
      }
    }
  }

  /** A layer's outcome: its records and the next frontier, or the first rejected setup. */
  type LayerResult = Result<(seq<Record>, seq<Point>), Error>

  /** One layer: for each frontier point in turn, sweep from it and collect what it admits. */
  function LayerRun(tick: Tick, g: Game, fronteira: seq<Point>, niveis: seq<int>, cargas: seq<int>,
                    direcoes: seq<string>, tol: real, usar: bool): (LayerResult, Game)
    decreases |fronteira|
  {
    if fronteira == [] then (Ok(([], [])), g)
    else
      var (prev, h) := LayerRun(tick, g, fronteira[..|fronteira| - 1], niveis, cargas, direcoes, tol, usar);
      if prev.Err? then (prev, h)
      else LayerPoint(tick, h, fronteira[|fronteira| - 1], niveis, cargas, direcoes, tol, usar, prev.value)
  }

  /** Sweeps from one frontier point after the records and frontier acc gathered so far. */
  function LayerPoint(tick: Tick, h: Game, p: Point, niveis: seq<int>, cargas: seq<int>, direcoes: seq<string>,
                      tol: real, usar: bool, acc: (seq<Record>, seq<Point>)): (LayerResult, Game)
  {
    var (c, h') := Combinations(tick, h, niveis, [p], cargas, direcoes);
    if c.Err? then (Err(c.error), h')
    else (Ok((acc.0 + c.value, acc.1 + Admitted(c.value, p.1, tol, usar))), h')
  }

  /** One more frontier point of a layer that has succeeded so far. */
  lemma LayerStep(tick: Tick, g: Game, fronteira: seq<Point>, i: int, niveis: seq<int>, cargas: seq<int>,
                  direcoes: seq<string>, tol: real, usar: bool)
    requires 0 <= i < |fronteira|
    requires LayerRun(tick, g, fronteira[..i], niveis, cargas, direcoes, tol, usar).0.Ok?
    ensures var (prev, h) := LayerRun(tick, g, fronteira[..i], niveis, cargas, direcoes, tol, usar);
      var p := fronteira[i];
      var (c, h') := Combinations(tick, h, niveis, [p], cargas, direcoes);
      LayerRun(tick, g, fronteira[..i + 1], niveis, cargas, direcoes, tol, usar) ==
        if c.Err? then (Err(c.error), h')
        else (Ok((prev.value.0 + c.value, prev.value.1 + Admitted(c.value, p.1, tol, usar))), h')
  {
    assert fronteira[..i + 1][..i] == fronteira[..i];
  }

  /** A layer that failed at some frontier point has failed for good. */
  lemma {:induction false} LayerStaysFailed(tick: Tick, g: Game, fronteira: seq<Point>, i: int, niveis: seq<int>,
                                            cargas: seq<int>, direcoes: seq<string>, tol: real, usar: bool)
    requires 0 <= i <= |fronteira|
    requires LayerRun(tick, g, fronteira[..i], niveis, cargas, direcoes, tol, usar).0.Err?
    ensures LayerRun(tick, g, fronteira, niveis, cargas, direcoes, tol, usar) ==
      LayerRun(tick, g, fronteira[..i], niveis, cargas, direcoes, tol, usar)
    decreases |fronteira| - i
  {
    if i < |fronteira| {
      var next := fronteira[..i + 1];
      assert next[..i] == fronteira[..i];
      LayerFailedSnoc(tick, g, next, niveis, cargas, direcoes, tol, usar);
      LayerStaysFailed(tick, g, fronteira, i + 1, niveis, cargas, direcoes, tol, usar);
    } else {
      assert fronteira[..i] == fronteira;
    }
  }

  lemma LayerFailedSnoc(tick: Tick, g: Game, fronteira: seq<Point>, niveis: seq<int>,
                        cargas: seq<int>, direcoes: seq<string>, tol: real, usar: bool)
    requires fronteira != []
    requires LayerRun(tick, g, fronteira[..|fronteira| - 1], niveis, cargas, direcoes, tol, usar).0.Err?
    ensures LayerRun(tick, g, fronteira, niveis, cargas, direcoes, tol, usar) ==
      LayerRun(tick, g, fronteira[..|fronteira| - 1], niveis, cargas, direcoes, tol, usar)
  {
  }

  /** The first k layers from the initial frontier: all records so far and the current frontier. */
  function ExploreRun(tick: Tick, g: Game, iniciais: seq<Point>, niveis: seq<int>, cargas: seq<int>,
                      direcoes: seq<string>, k: int, tol: real, usar: bool): (LayerResult, Game)
    decreases k
  {
    if k <= 0 then (Ok(([], iniciais)), g)
    else
      var (prev, h) := ExploreRun(tick, g, iniciais, niveis, cargas, direcoes, k - 1, tol, usar);
      if prev.Err? then (prev, h)
      else
        var (layer, h') := LayerRun(tick, h, prev.value.1, niveis, cargas, direcoes, tol, usar);
        if layer.Err? then (Err(layer.error), h')
        else (Ok((prev.value.0 + layer.value.0, layer.value.1)), h')
  }

  /** One more layer of an exploration that has succeeded so far. */
  lemma ExploreStep(tick: Tick, g: Game, iniciais: seq<Point>, niveis: seq<int>, cargas: seq<int>,
                    direcoes: seq<string>, k: int, tol: real, usar: bool, acc: seq<Record>, f: seq<Point>, h: Game)
    requires k >= 0
    requires ExploreRun(tick, g, iniciais, niveis, cargas, direcoes, k, tol, usar) == (Ok((acc, f)), h)
    ensures var (layer, h') := LayerRun(tick, h, f, niveis, cargas, direcoes, tol, usar);
      ExploreRun(tick, g, iniciais, niveis, cargas, direcoes, k + 1, tol, usar) ==
        if layer.Err? then (Err(layer.error), h') else (Ok((acc + layer.value.0, layer.value.1)), h')
  {
  }

  /** A successful layer extends a successful exploration by its records and frontier. */
  lemma ExploreOk(tick: Tick, g: Game, iniciais: seq<Point>, niveis: seq<int>, cargas: seq<int>,
                  direcoes: seq<string>, k: int, tol: real, usar: bool, acc: seq<Record>, f: seq<Point>, h: Game,
                  novos: seq<Record>, f': seq<Point>, h': Game)
    requires k >= 0
    requires ExploreRun(tick, g, iniciais, niveis, cargas, direcoes, k, tol, usar) == (Ok((acc, f)), h)
    requires LayerRun(tick, h, f, niveis, cargas, direcoes, tol, usar) == (Ok((novos, f')), h')
    ensures ExploreRun(tick, g, iniciais, niveis, cargas, direcoes, k + 1, tol, usar) == (Ok((acc + novos, f')), h')
  {
    ExploreStep(tick, g, iniciais, niveis, cargas, direcoes, k, tol, usar, acc, f, h);
  }

  /** A failed layer ends the exploration with its error, whatever the number of layers asked for. */
  lemma ExploreFails(tick: Tick, g: Game, iniciais: seq<Point>, niveis: seq<int>, cargas: seq<int>,
                     direcoes: seq<string>, k: int, m: int, tol: real, usar: bool, acc: seq<Record>, f: seq<Point>, h: Game,
                     e: Error, h': Game)
    requires 0 <= k < m
    requires ExploreRun(tick, g, iniciais, niveis, cargas, direcoes, k, tol, usar) == (Ok((acc, f)), h)
    requires LayerRun(tick, h, f, niveis, cargas, direcoes, tol, usar) == (Err(e), h')
    ensures ExploreRun(tick, g, iniciais, niveis, cargas, direcoes, m, tol, usar) == (Err(e), h')
  {
    ExploreStep(tick, g, iniciais, niveis, cargas, direcoes, k, tol, usar, acc, f, h);
    ExploreStaysFailed(tick, g, iniciais, niveis, cargas, direcoes, k + 1, m, tol, usar);
  }

  /** Exploration that failed at some layer has failed for good. */
  lemma {:induction false} ExploreStaysFailed(tick: Tick, g: Game, iniciais: seq<Point>, niveis: seq<int>,
                                              cargas: seq<int>, direcoes: seq<string>, k: int, m: int, tol: real, usar: bool)
    requires k <= m
    requires ExploreRun(tick, g, iniciais, niveis, cargas, direcoes, k, tol, usar).0.Err?
    ensures ExploreRun(tick, g, iniciais, niveis, cargas, direcoes, m, tol, usar) ==
      ExploreRun(tick, g, iniciais, niveis, cargas, direcoes, k, tol, usar)
    decreases m - k
  {
    if k < m {
      ExploreStaysFailed(tick, g, iniciais, niveis, cargas, direcoes, k, m - 1, tol, usar);
    }
  }

  /**
   * A successful layer holds |fronteira| * (|niveis| * (|cargas| * |direcoes|))
   * records; without the filter its next frontier has one point per record.
   */
  lemma {:induction false} LayerSize(tick: Tick, g: Game, fronteira: seq<Point>, niveis: seq<int>, cargas: seq<int>,
                                     direcoes: seq<string>, tol: real, usar: bool)
    ensures var r := LayerRun(tick, g, fronteira, niveis, cargas, direcoes, tol, usar).0;
      r.Ok? ==> (|r.value.0| == |fronteira| * (|niveis| * (|cargas| * |direcoes|)) &&
                 (!usar ==> |r.value.1| == |r.value.0|))
    decreases |fronteira|
  {
    if fronteira != [] {
      var n := |fronteira|;
      LayerSize(tick, g, fronteira[..n - 1], niveis, cargas, direcoes, tol, usar);
      var (prev, h) := LayerRun(tick, g, fronteira[..n - 1], niveis, cargas, direcoes, tol, usar);
      if prev.Ok? {
        var p := fronteira[n - 1];
        CombinationsCount(tick, h, niveis, [p], cargas, direcoes);
        var c := Combinations(tick, h, niveis, [p], cargas, direcoes).0;
        if c.Ok? {
          AdmittedSpec(c.value, p.1, tol, usar);
          assert |[p]| == 1;
          OneRow(|niveis|, |cargas| * |direcoes|);
          AddOneRow(n, |niveis| * (|cargas| * |direcoes|));
        }
      }
    }
  }

  /**
   * Records add up over layers: after k >= 1 successful layers the total is
   * the total after k - 1 layers plus |frontier| * (|niveis| * (|cargas| *
   * |direcoes|)) for the frontier layer k started from.
   */
  lemma LayersAdd(tick: Tick, g: Game, iniciais: seq<Point>, niveis: seq<int>, cargas: seq<int>,
                  direcoes: seq<string>, k: int, tol: real, usar: bool)
    requires k >= 1
    requires ExploreRun(tick, g, iniciais, niveis, cargas, direcoes, k, tol, usar).0.Ok?
    ensures var prev := ExploreRun(tick, g, iniciais, niveis, cargas, direcoes, k - 1, tol, usar).0;
      var now := ExploreRun(tick, g, iniciais, niveis, cargas, direcoes, k, tol, usar).0;
      prev.Ok? && |now.value.0| == |prev.value.0| + |prev.value.1| * (|niveis| * (|cargas| * |direcoes|))
  {
    var (prev, h) := ExploreRun(tick, g, iniciais, niveis, cargas, direcoes, k - 1, tol, usar);
    LayerSize(tick, h, prev.value.1, niveis, cargas, direcoes, tol, usar);
  }

  /** With max_iter <= 0 nothing is run and no record is produced. */
  lemma NoLayers(tick: Tick, g: Game, iniciais: seq<Point>, niveis: seq<int>, cargas: seq<int>,
                 direcoes: seq<string>, k: int, tol: real, usar: bool)
    requires k <= 0
    ensures ExploreRun(tick, g, iniciais, niveis, cargas, direcoes, k, tol, usar) == (Ok(([], iniciais)), g)
  {
  }

  /** An empty frontier keeps the remaining layers running without jumps, records or changes. */
  lemma EmptyFrontierIdles(tick: Tick, g: Game, iniciais: seq<Point>, niveis: seq<int>, cargas: seq<int>,
                           direcoes: seq<string>, k: int, tol: real, usar: bool)
    requires k >= 0
    requires var r := ExploreRun(tick, g, iniciais, niveis, cargas, direcoes, k, tol, usar).0;
      r.Ok? && r.value.1 == []
    ensures ExploreRun(tick, g, iniciais, niveis, cargas, direcoes, k + 1, tol, usar) ==
      ExploreRun(tick, g, iniciais, niveis, cargas, direcoes, k, tol, usar)
  {
    var (prev, h) := ExploreRun(tick, g, iniciais, niveis, cargas, direcoes, k, tol, usar);
    assert prev.value.0 + [] == prev.value.0;
  }

  /** One layer from one start with one level, four charges and two directions: eight records. */
  lemma OneLayerEight(tick: Tick, g: Game, iniciais: seq<Point>, niveis: seq<int>, cargas: seq<int>,
                      direcoes: seq<string>, tol: real, usar: bool)
    requires |iniciais| == 1 && |niveis| == 1 && |cargas| == 4 && |direcoes| == 2
    requires ExploreRun(tick, g, iniciais, niveis, cargas, direcoes, 1, tol, usar).0.Ok?
    ensures |ExploreRun(tick, g, iniciais, niveis, cargas, direcoes, 1, tol, usar).0.value.0| == 8
  {
    LayersAdd(tick, g, iniciais, niveis, cargas, direcoes, 1, tol, usar);
  }

  // ---------------------------------------------------------------
  // The tester
  // ---------------------------------------------------------------

  /** The reachability tester drives one test agent, whose harness must be ready. */
  class PlataformaTester {
    const agente: AgenteTeste

    predicate Valid()
      reads this, agente, agente.tester
    {
      agente.Valid()
    }

    constructor (agente: AgenteTeste)
      requires agente.Valid()
      ensures Valid() && this.agente == agente
    {
      this.agente := agente;
    }

    /**
     * Jumps from every combination of level, position, charge and direction,
     * in that loop order, and records each start and landing. A rejected
     * setup ends the sweep with its error.
     */
    method TestarCombinacoes(niveis: seq<int>, posicoes: seq<Point>, cargas: seq<int>, direcoes: seq<string>)
      returns (r: Result<seq<Record>, Error>)
      requires Valid()
      modifies agente.tester
      ensures Valid()
      ensures (r, agente.tester.game.value) == Combinations(agente.tester.tick, old(agente.tester.game.value), niveis, posicoes, cargas, direcoes)
    {
      ghost var tick := agente.tester.tick;
      ghost var g0 := agente.tester.game.value;
      ghost var bs := LevelBlocks(niveis, posicoes, cargas, direcoes);
      var resultados: seq<Record> := [];
      ghost var outs: seq<JumpOutcome> := [];
      assert [] + Flatten(bs[..0]) == [];
      for a := 0 to |niveis|
        invariant Valid()
        invariant Swept(tick, g0, [] + Flatten(bs[..a]), Ok(resultados), outs, agente.tester.game.value)
      {
        var res;
        res, outs := TestarNivel(niveis[a], posicoes, cargas, direcoes, resultados, g0, [] + Flatten(bs[..a]), outs);
        BlockStep(tick, g0, [], bs, a, res, outs, agente.tester.game.value);
        if res.Err? {
          assert [] + Flatten(bs) == Grid(niveis, posicoes, cargas, direcoes);
          SweptRecords(tick, g0, Grid(niveis, posicoes, cargas, direcoes), res, outs, agente.tester.game.value);
          return res;
        }
        resultados := res.value;
      }
      assert bs[..|niveis|] == bs;
      assert [] + Flatten(bs[..|niveis|]) == Grid(niveis, posicoes, cargas, direcoes);
      SweptRecords(tick, g0, Grid(niveis, posicoes, cargas, direcoes), Ok(resultados), outs, agente.tester.game.value);
      r := Ok(resultados);
    }

    /** The positions loop of the sweep, at one level, continuing a sweep that has succeeded so far. */
    method TestarNivel(nivel: int, posicoes: seq<Point>, cargas: seq<int>, direcoes: seq<string>,
                       resultados: seq<Record>, ghost g0: Game, ghost done: seq<Input>, ghost outs0: seq<JumpOutcome>)
      returns (r: Result<seq<Record>, Error>, ghost outs: seq<JumpOutcome>)
      requires Valid()
      requires Swept(agente.tester.tick, g0, done, Ok(resultados), outs0, agente.tester.game.value)
      modifies agente.tester
      ensures Valid()
      ensures Swept(agente.tester.tick, g0, done + Flatten(PosBlocks(nivel, posicoes, cargas, direcoes)), r, outs,
                    agente.tester.game.value)
    {
      ghost var tick := agente.tester.tick;
      ghost var bs := PosBlocks(nivel, posicoes, cargas, direcoes);
      var acc := resultados;
      outs := outs0;
      assert done + Flatten(bs[..0]) == done;
      for b := 0 to |posicoes|
        invariant Valid()
        invariant Swept(tick, g0, done + Flatten(bs[..b]), Ok(acc), outs, agente.tester.game.value)
      {
        var res;
        res, outs := TestarPosicao(nivel, posicoes[b], cargas, direcoes, acc, g0, done + Flatten(bs[..b]), outs);
        BlockStep(tick, g0, done, bs, b, res, outs, agente.tester.game.value);
        if res.Err? {
          return res, outs;
        }
        acc := res.value;
      }
      assert bs[..|posicoes|] == bs;
      r := Ok(acc);
    }

    /** The charges loop of the sweep, at one start, continuing a sweep that has succeeded so far. */
    method TestarPosicao(nivel: int, pos: Point, cargas: seq<int>, direcoes: seq<string>,
                         resultados: seq<Record>, ghost g0: Game, ghost done: seq<Input>, ghost outs0: seq<JumpOutcome>)
      returns (r: Result<seq<Record>, Error>, ghost outs: seq<JumpOutcome>)
      requires Valid()
      requires Swept(agente.tester.tick, g0, done, Ok(resultados), outs0, agente.tester.game.value)
      modifies agente.tester
      ensures Valid()
      ensures Swept(agente.tester.tick, g0, done + Flatten(ChargeBlocks(nivel, pos, cargas, direcoes)), r, outs,
                    agente.tester.game.value)
    {
      ghost var tick := agente.tester.tick;
      ghost var bs := ChargeBlocks(nivel, pos, cargas, direcoes);
      var acc := resultados;
      outs := outs0;
      assert done + Flatten(bs[..0]) == done;
      for c := 0 to |cargas|
        invariant Valid()
        invariant Swept(tick, g0, done + Flatten(bs[..c]), Ok(acc), outs, agente.tester.game.value)
      {
        var res;
        res, outs := TestarCarga(nivel, pos, cargas[c], direcoes, acc, g0, done + Flatten(bs[..c]), outs);
        BlockStep(tick, g0, done, bs, c, res, outs, agente.tester.game.value);
        if res.Err? {
          return res, outs;
        }
        acc := res.value;
      }
      assert bs[..|cargas|] == bs;
      r := Ok(acc);
    }

    /** The directions loop of the sweep: set up the start, jump, record. */
    method TestarCarga(nivel: int, pos: Point, carga: int, direcoes: seq<string>,
                       resultados: seq<Record>, ghost g0: Game, ghost done: seq<Input>, ghost outs0: seq<JumpOutcome>)
      returns (r: Result<seq<Record>, Error>, ghost outs: seq<JumpOutcome>)
      requires Valid()
      requires Swept(agente.tester.tick, g0, done, Ok(resultados), outs0, agente.tester.game.value)
      modifies agente.tester
      ensures Valid()
      ensures Swept(agente.tester.tick, g0, done + DirBlock(nivel, pos, carga, direcoes), r, outs, agente.tester.game.value)
    {
      ghost var tick := agente.tester.tick;
      ghost var s := DirBlock(nivel, pos, carga, direcoes);
      var acc := resultados;
      outs := outs0;
      assert done + s[..0] == done;
      for d := 0 to |direcoes|
        invariant Valid()
        invariant Swept(tick, g0, done + s[..d], Ok(acc), outs, agente.tester.game.value)
      {
        var inp := Input(nivel, pos.0, pos.1, carga, direcoes[d]);
        ExperimentStep(tick, g0, done, s, d, acc, outs, agente.tester.game.value);
        var o := agente.RunExperiment(inp);
        if o.Err? {
          return Err(o.error), outs;
        }
        acc := acc + [RecordOf(inp, o.value)];
        outs := outs + [o.value];
      }
      assert s[..|direcoes|] == s;
      r := Ok(acc);
    }

    /**
     * Runs max_iter layers from the initial positions: each frontier point is
     * swept, every record is kept, and the admitted landings form the next
     * frontier. A rejected setup ends the exploration with its error.
     */
    method ExplorarMultiplosPulos(posicoesIniciais: seq<Point>, cargas: seq<int>, direcoes: seq<string>,
                                  niveis: seq<int>, maxIter: int, toleranciaY: real, usarRestricaoY: bool)
      returns (r: Result<seq<Record>, Error>)
      requires Valid()
      modifies agente.tester
      ensures Valid()
      ensures var (e, h) := ExploreRun(agente.tester.tick, old(agente.tester.game.value), posicoesIniciais, niveis,
                                       cargas, direcoes, maxIter, toleranciaY, usarRestricaoY);
        agente.tester.game.value == h && r == (if e.Err? then Err(e.error) else Ok(e.value.0))
    {
      ghost var tick := agente.tester.tick;
      ghost var g0 := agente.tester.game.value;
      var resultadosTotal: seq<Record> := [];
      var fronteira := posicoesIniciais;
      var camada := 0;
      while camada < maxIter
        invariant Valid()
        invariant 0 <= camada && (camada <= maxIter || camada == 0)
        invariant ExploreRun(tick, g0, posicoesIniciais, niveis, cargas, direcoes, camada, toleranciaY, usarRestricaoY) ==
          (Ok((resultadosTotal, fronteira)), agente.tester.game.value)
        decreases maxIter - camada
      {
        ghost var h := agente.tester.game.value;
        var layer := ExplorarCamada(fronteira, niveis, cargas, direcoes, toleranciaY, usarRestricaoY);
        if layer.Err? {
          ExploreFails(tick, g0, posicoesIniciais, niveis, cargas, direcoes, camada, maxIter, toleranciaY, usarRestricaoY,
                       resultadosTotal, fronteira, h, layer.error, agente.tester.game.value);
          return Err(layer.error);
        }
        ExploreOk(tick, g0, posicoesIniciais, niveis, cargas, direcoes, camada, toleranciaY, usarRestricaoY,
                  resultadosTotal, fronteira, h, layer.value.0, layer.value.1, agente.tester.game.value);
        resultadosTotal := resultadosTotal + layer.value.0;
        fronteira := layer.value.1;
        camada := camada + 1;
      }
      if maxIter <= 0 {
        NoLayers(tick, g0, posicoesIniciais, niveis, cargas, direcoes, maxIter, toleranciaY, usarRestricaoY);
      }
      r := Ok(resultadosTotal);
    }

    /** One layer: sweep from each frontier point, keep all records, collect the admitted landings. */
    method ExplorarCamada(fronteira: seq<Point>, niveis: seq<int>, cargas: seq<int>, direcoes: seq<string>,
                          toleranciaY: real, usarRestricaoY: bool) returns (r: LayerResult)
      requires Valid()
      modifies agente.tester
      ensures Valid()
      ensures (r, agente.tester.game.value) ==
        LayerRun(agente.tester.tick, old(agente.tester.game.value), fronteira, niveis, cargas, direcoes, toleranciaY, usarRestricaoY)
    {
      ghost var tick := agente.tester.tick;
      ghost var g0 := agente.tester.game.value;
      var novosResultados: seq<Record> := [];
      var novaFronteira: seq<Point> := [];
      for i := 0 to |fronteira|
        invariant Valid()
        invariant LayerRun(tick, g0, fronteira[..i], niveis, cargas, direcoes, toleranciaY, usarRestricaoY) ==
          (Ok((novosResultados, novaFronteira)), agente.tester.game.value)
      {
        var p := fronteira[i];
        LayerStep(tick, g0, fronteira, i, niveis, cargas, direcoes, toleranciaY, usarRestricaoY);
        var resultados := TestarCombinacoes(niveis, [p], cargas, direcoes);
        if resultados.Err? {
          LayerStaysFailed(tick, g0, fronteira, i + 1, niveis, cargas, direcoes, toleranciaY, usarRestricaoY);
          return Err(resultados.error);
        }
        novosResultados, novaFronteira := Absorver(novosResultados, novaFronteira, resultados.value, p.1, toleranciaY, usarRestricaoY);
      }
      assert fronteira[..|fronteira|] == fronteira;
      r := Ok((novosResultados, novaFronteira));
    }

    /** Keeps every record of one start and appends the landings its filter admits to the next frontier. */
    method Absorver(novos0: seq<Record>, fronteira0: seq<Point>, resultados: seq<Record>, y0: real,
                    toleranciaY: real, usarRestricaoY: bool) returns (novos: seq<Record>, fronteira: seq<Point>)
      ensures novos == novos0 + resultados
      ensures fronteira == fronteira0 + Admitted(resultados, y0, toleranciaY, usarRestricaoY)
    {
      novos := novos0;
      fronteira := fronteira0;
      for i := 0 to |resultados|
        invariant novos == novos0 + resultados[..i]
        invariant fronteira == fronteira0 + Admitted(resultados[..i], y0, toleranciaY, usarRestricaoY)
      {
        var r := resultados[i];
        assert resultados[..i + 1][..i] == resultados[..i];
        novos := novos + [r];
        if !usarRestricaoY {
          fronteira := fronteira + [(r.xFinal, r.yFinal)];
        } else if Abs(r.yFinal - y0) > toleranciaY {
          fronteira := fronteira + [(r.xFinal, r.yFinal)];
        }
      }
      assert resultados[..|resultados|] == resultados;
    }

    /**
     * Builds the multigraph of the results: each entry with all four position
     * fields gives one edge from its takeoff to its landing; the others are skipped.
     */
    method GerarGrafo(resultados: seq<Entry>) returns (g: MultiDiGraph)
      ensures fresh(g) && g.Valid()
      ensures g.nodes == GraphNodes(resultados) && g.edges == GraphEdges(resultados)
    {
      g := new MultiDiGraph();
      for i := 0 to |resultados|
        invariant g.Valid()
        invariant g.nodes == GraphNodes(resultados[..i]) && g.edges == GraphEdges(resultados[..i])
      {
        var dados := resultados[i];
        assert resultados[..i + 1][..i] == resultados[..i];
        if dados.xInicial.None? || dados.yInicial.None? || dados.xFinal.None? || dados.yFinal.None? {
          continue;
        }
        var nodoInicial := (dados.xInicial.value, dados.yInicial.value);
        var nodoFinal := (dados.xFinal.value, dados.yFinal.value);
        g.AddNode(nodoInicial);
        g.AddNode(nodoFinal);
        g.AddEdge(nodoInicial, nodoFinal, dados.carga, dados.direcao, dados);
      }
      assert resultados[..|resultados|] == resultados;
    }

    /**
     * Groups the heights of the graph's nodes into tiers, visiting them in
     * ascending order, each joining the first tier whose latest height is
     * within toleranciaY, and maps every height to its tier's index.
     */
    method AgruparYEmNiveis(G: MultiDiGraph, toleranciaY: real) returns (yMap: map<real, nat>)
      ensures yMap.Keys == set n | n in G.nodes :: n.1
      ensures TierRule(yMap, toleranciaY)
    {
      var alturas := set n | n in G.nodes :: n.1;
      var ys := SortedSetReals(alturas);
      var grupos: seq<seq<real>> := [];
      for i := 0 to |ys|
        invariant grupos == Groups(ys[..i], toleranciaY)
      {
        assert ys[..i + 1][..i] == ys[..i];
        grupos := Colocar(grupos, ys[i], toleranciaY);
      }
      assert ys[..|ys|] == ys;
      yMap := map[];
      assert grupos[..0] == [];
      for nivel := 0 to |grupos|
        invariant yMap == TierMap(grupos[..nivel])
      {
        assert grupos[..nivel + 1] == grupos[..nivel] + [grupos[nivel]];
        yMap := Registrar(yMap, grupos[..nivel], grupos[nivel]);
      }
      assert grupos[..|grupos|] == grupos;
      TierMapFollowsRule(ys, toleranciaY);
      assert (set y | y in ys) == alturas by {
        forall y ensures y in ys <==> y in alturas {
        }
      }
    }
  }
}
