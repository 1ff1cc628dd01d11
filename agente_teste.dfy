/**
 * The jump executor. A jump holds the jump command for a number of charge
 * frames, then releases it and steps frame by frame until the king comes to
 * rest or the frame cap is reached; the landing is the final level and
 * position. A sequence of (setup, jump) experiments is specified by the fold
 * `Sweep`, which the determinism check and the platform explorer both run.
 */
module Agent {
  import opened Wrappers
  import opened GameState
  import opened Tester

  /** Frames the flight phase may run at most. */
  const FLIGHT_CAP: int := 600
  const RIGHT: string := "direita"
  const LEFT: string := "esquerda"
  /** The experiments always start with the wind at phase 0. */
  const START_WIND: real := 0.0

  /** Command held while charging: right and jump for RIGHT; any other direction means left and jump. */
  function ChargeCommand(direcao: string): int
  {
    if direcao == RIGHT then 2 else 3
  }

  /** Command while in flight: right, or left for any direction other than RIGHT. */
  function ReleaseCommand(direcao: string): int
  {
    if direcao == RIGHT then 0 else 1
  }

  /** The flight phase ends when the king is not falling, not jumping, has no speed and is not flagged as landed. */
  predicate Converged(k: King)
  {
    !k.isFalling && !k.isJump && k.speed == 0.0 && !k.isLanded
  }

  /** At most `limit` release frames, stopping right after the first frame that ends converged. */
  function Flight(tick: Tick, g: Game, release: Option<int>, limit: int): Game
    decreases limit
  {
    if limit <= 0 then g
    else
      var g' := tick(g, release);
      if Converged(g'.king) then g' else Flight(tick, g', release, limit - 1)
  }

  /** How many frames `Flight` runs. */
  function FlightFrames(tick: Tick, g: Game, release: Option<int>, limit: int): int
    decreases limit
  {
    if limit <= 0 then 0
    else if Converged(tick(g, release).king) then 1
    else 1 + FlightFrames(tick, tick(g, release), release, limit - 1)
  }

  /**
   * The flight runs n frames of the release command, 1 <= n <= limit: none of
   * the first n - 1 frames ends converged, and the n-th does unless the cap is reached.
   */
  lemma {:induction false} FlightSpec(tick: Tick, g: Game, release: Option<int>, limit: int)
    requires limit >= 1
    ensures var n := FlightFrames(tick, g, release, limit);
      1 <= n <= limit &&
      Flight(tick, g, release, limit) == Iterate(tick, g, release, n) &&
      (forall j :: 1 <= j < n ==> !Converged(Iterate(tick, g, release, j).king)) &&
      (Converged(Iterate(tick, g, release, n).king) || n == limit)
    decreases limit
  {
    var g1 := tick(g, release);
    assert Iterate(tick, g, release, 1) == g1;
    if !Converged(g1.king) && limit > 1 {
      FlightSpec(tick, g1, release, limit - 1);
      var m := FlightFrames(tick, g1, release, limit - 1);
      IterateShift(tick, g, release, m);
      forall j | 1 <= j < m + 1
        ensures !Converged(Iterate(tick, g, release, j).king)
      {
        if j > 1 {
          IterateShift(tick, g, release, j - 1);
        }
      }
    } else if !Converged(g1.king) {
      assert limit == 1;
    }
  }

  /** A jump: `charge` frames of the charge command, then the flight. */
  function Jump(tick: Tick, g: Game, direcao: string, charge: int): Game
  {
    Flight(tick, Iterate(tick, g, Some(ChargeCommand(direcao)), charge),
           Some(ReleaseCommand(direcao)), FLIGHT_CAP)
  }

  /** Where a jump ended: final level and position. */
  datatype JumpOutcome = JumpOutcome(level: int, x: real, y: real)

  function Landing(g: Game): JumpOutcome
  {
    JumpOutcome(g.levels.currentLevel, g.king.x, g.king.y)
  }

  /** A jump is the charge frames followed by between 1 and FLIGHT_CAP release frames. */
  lemma JumpFrames(tick: Tick, g: Game, direcao: string, charge: int)
    ensures var c := Iterate(tick, g, Some(ChargeCommand(direcao)), charge);
      var n := FlightFrames(tick, c, Some(ReleaseCommand(direcao)), FLIGHT_CAP);
      1 <= n <= FLIGHT_CAP &&
      Jump(tick, g, direcao, charge) == Iterate(tick, c, Some(ReleaseCommand(direcao)), n)
  {
    var c := Iterate(tick, g, Some(ChargeCommand(direcao)), charge);
    FlightSpec(tick, c, Some(ReleaseCommand(direcao)), FLIGHT_CAP);
  }

  /** One experiment: a start level and position, and a jump. */
  datatype Input = Input(level: int, x: real, y: real, charge: int, direcao: string)

  predicate ValidInput(inp: Input)
  {
    ValidLevel(inp.level) && ValidX(inp.x) && ValidY(inp.y)
  }

  /** Set up the start state (wind at its start phase), then jump; a rejected setup is an error. */
  function Experiment(tick: Tick, g: Game, inp: Input): (Result<JumpOutcome, Error>, Game)
  {
    var (o, g1) := ApplySetup(g, inp.level, inp.x, inp.y, START_WIND);
    if o.Fail? then (Err(o.error), g1)
    else
      var g2 := Jump(tick, g1, inp.direcao, inp.charge);
      (Ok(Landing(g2)), g2)
  }

  lemma ExperimentOk(tick: Tick, g: Game, inp: Input)
    ensures Experiment(tick, g, inp).0.Ok? <==> ValidInput(inp)
  {
    SetupEffect(g, inp.level, inp.x, inp.y, START_WIND);
  }

  /** The outcomes of experiments run one after another on the same game, and the final game. */
  datatype Run = Run(outcomes: Result<seq<JumpOutcome>, Error>, game: Game)

  /** Runs the experiments in order; the first error stops the run. */
  function Sweep(tick: Tick, g: Game, inputs: seq<Input>): Run
    decreases |inputs|
  {
    if inputs == [] then Run(Ok([]), g)
    else
      var prev := Sweep(tick, g, inputs[..|inputs| - 1]);
      if prev.outcomes.Err? then prev
      else SweepNext(tick, prev.game, prev.outcomes.value, inputs[|inputs| - 1])
  }

  /** One more experiment after the outcomes outs, from game h. */
  function SweepNext(tick: Tick, h: Game, outs: seq<JumpOutcome>, inp: Input): Run
  {
    var (r, h') := Experiment(tick, h, inp);
    if r.Err? then Run(Err(r.error), h') else Run(Ok(outs + [r.value]), h')
  }

  /** A sweep succeeds exactly when every input is valid, and then it has one outcome per input. */
  lemma {:induction false} SweepOk(tick: Tick, g: Game, inputs: seq<Input>)
    ensures Sweep(tick, g, inputs).outcomes.Ok? <==> forall i :: 0 <= i < |inputs| ==> ValidInput(inputs[i])
    ensures Sweep(tick, g, inputs).outcomes.Ok? ==> |Sweep(tick, g, inputs).outcomes.value| == |inputs|
    decreases |inputs|
  {
    if inputs != [] {
      var n := |inputs|;
      var front := inputs[..n - 1];
      SweepOk(tick, g, front);
      var prev := Sweep(tick, g, front);
      if prev.outcomes.Ok? {
        ExperimentOk(tick, prev.game, inputs[n - 1]);
      }
      assert forall i :: 0 <= i < n - 1 ==> front[i] == inputs[i];
    }
  }

  /** When a sweep succeeds, outcome i is the experiment run from the game the first i experiments left. */
  lemma {:induction false} SweepAt(tick: Tick, g: Game, inputs: seq<Input>, i: int)
    requires Sweep(tick, g, inputs).outcomes.Ok?
    requires 0 <= i < |inputs|
    ensures |Sweep(tick, g, inputs).outcomes.value| == |inputs|
    ensures Sweep(tick, g, inputs[..i]).outcomes.Ok?
    ensures var r := Experiment(tick, Sweep(tick, g, inputs[..i]).game, inputs[i]).0;
      r.Ok? && Sweep(tick, g, inputs).outcomes.value[i] == r.value
    decreases |inputs|
  {
    var n := |inputs|;
    var front := inputs[..n - 1];
    SweepOk(tick, g, inputs);
    SweepLast(tick, g, inputs);
    if i < n - 1 {
      SweepAt(tick, g, front, i);
      assert front[..i] == inputs[..i];
    } else {
      assert inputs[..i] == front;
    }
  }

  /** A successful sweep is the successful sweep of all but the last input plus the last experiment's outcome. */
  lemma SweepLast(tick: Tick, g: Game, inputs: seq<Input>)
    requires Sweep(tick, g, inputs).outcomes.Ok? && inputs != []
    ensures var front := Sweep(tick, g, inputs[..|inputs| - 1]);
      var r := Experiment(tick, front.game, inputs[|inputs| - 1]).0;
      front.outcomes.Ok? && r.Ok? &&
      Sweep(tick, g, inputs).outcomes.value == front.outcomes.value + [r.value]
  {
  }

  /** One more experiment after a successful sweep. */
  lemma SweepExtend(tick: Tick, g: Game, inputs: seq<Input>, inp: Input, outs: seq<JumpOutcome>, h: Game)
    requires Sweep(tick, g, inputs) == Run(Ok(outs), h)
    ensures var (r, h') := Experiment(tick, h, inp);
      Sweep(tick, g, inputs + [inp]) == (if r.Err? then Run(Err(r.error), h') else Run(Ok(outs + [r.value]), h'))
  {
    assert (inputs + [inp])[..|inputs|] == inputs;
  }

  /** Once a sweep has failed, further experiments change nothing. */
  lemma {:induction false} SweepStaysFailed(tick: Tick, g: Game, inputs: seq<Input>, more: seq<Input>)
    requires Sweep(tick, g, inputs).outcomes.Err?
    ensures Sweep(tick, g, inputs + more) == Sweep(tick, g, inputs)
    decreases |more|
  {
    if more != [] {
      var m := |more|;
      SweepStaysFailed(tick, g, inputs, more[..m - 1]);
      assert (inputs + more)[..|inputs + more| - 1] == inputs + more[..m - 1];
    } else {
      assert inputs + more == inputs;
    }
  }

  /** A sweep whose prefix already failed fails the same way. */
  lemma SweepPrefixFailed(tick: Tick, g: Game, prefix: seq<Input>, inputs: seq<Input>)
    requires prefix <= inputs
    requires Sweep(tick, g, prefix).outcomes.Err?
    ensures Sweep(tick, g, inputs) == Sweep(tick, g, prefix)
  {
    var rest := inputs[|prefix|..];
    assert inputs == prefix + rest;
    SweepStaysFailed(tick, g, prefix, rest);
  }

  /** `n` copies of `x`; none when n <= 0. */
  function Repeated<T>(x: T, n: int): seq<T>
    decreases n
  {
    if n <= 0 then [] else Repeated(x, n - 1) + [x]
  }

  lemma {:induction false} RepeatedAdd<T>(x: T, a: nat, b: nat)
    ensures Repeated(x, a) + Repeated(x, b) == Repeated(x, a + b)
    decreases b
  {
    if b > 0 {
      RepeatedAdd(x, a, b - 1);
    }
  }

  /**
   * One more repetition after i successful ones: it extends the outcomes, or
   * its error ends every longer repetition.
   */
  lemma RepeatedStep(tick: Tick, g: Game, inp: Input, i: nat, n: int, outs: seq<JumpOutcome>, h: Game)
    requires i < n
    requires Sweep(tick, g, Repeated(inp, i)) == Run(Ok(outs), h)
    ensures var (r, h') := Experiment(tick, h, inp);
      (r.Err? ==> Sweep(tick, g, Repeated(inp, n)) == Run(Err(r.error), h')) &&
      (r.Ok? ==> Sweep(tick, g, Repeated(inp, i + 1)) == Run(Ok(outs + [r.value]), h'))
  {
    SweepExtend(tick, g, Repeated(inp, i), inp, outs, h);
    var k: nat := n - (i + 1);
    RepeatedAdd(inp, i + 1, k);
    assert i + 1 + k == n;
    assert Repeated(inp, i + 1) + Repeated(inp, k) == Repeated(inp, n);
    if Experiment(tick, h, inp).0.Err? {
      SweepStaysFailed(tick, g, Repeated(inp, i + 1), Repeated(inp, k));
    }
  }

  lemma RepeatedOk(tick: Tick, g: Game, inp: Input, i: nat, outs: seq<JumpOutcome>, h: Game, v: JumpOutcome, h': Game)
    requires Sweep(tick, g, Repeated(inp, i)) == Run(Ok(outs), h)
    requires Experiment(tick, h, inp) == (Ok(v), h')
    ensures Sweep(tick, g, Repeated(inp, i + 1)) == Run(Ok(outs + [v]), h')
  {
    RepeatedStep(tick, g, inp, i, i + 1, outs, h);
  }

  lemma RepeatedErr(tick: Tick, g: Game, inp: Input, i: nat, n: int, outs: seq<JumpOutcome>, h: Game, e: Error, h': Game)
    requires i < n
    requires Sweep(tick, g, Repeated(inp, i)) == Run(Ok(outs), h)
    requires Experiment(tick, h, inp) == (Err(e), h')
    ensures Sweep(tick, g, Repeated(inp, n)) == Run(Err(e), h')
  {
    RepeatedStep(tick, g, inp, i, n, outs, h);
  }

  /** Every element equals the first; holds of the empty sequence. */
  predicate AllEqualFirst<T(==)>(s: seq<T>)
  {
    forall i :: 0 <= i < |s| ==> s[i] == s[0]
  }

  /** The flags that setup leaves as they were. */
  function Flags(g: Game): (bool, bool)
  {
    (g.king.isJump, g.king.isLanded)
  }

  /**
   * Repeating a valid experiment gives identical outcomes whenever the first
   * jump leaves the jump and landing flags as they were at the start: every run
   * then starts from the same configured state.
   */
  lemma {:induction false} RepeatsAgree(tick: Tick, g: Game, inp: Input, n: int)
    requires ValidInput(inp)
    requires Flags(Experiment(tick, g, inp).1) == Flags(g)
    ensures var run := Sweep(tick, g, Repeated(inp, n));
      run.outcomes == Ok(Repeated(Experiment(tick, g, inp).0.value, n)) &&
      (n >= 1 ==> run.game == Experiment(tick, g, inp).1)
    decreases n
  {
    ExperimentOk(tick, g, inp);
    if n >= 1 {
      RepeatsAgree(tick, g, inp, n - 1);
      var reps := Repeated(inp, n);
      assert reps[..|reps| - 1] == Repeated(inp, n - 1);
      var prev := Sweep(tick, g, Repeated(inp, n - 1));
      assert Flags(prev.game) == Flags(g);
      SetupEffect(g, inp.level, inp.x, inp.y, START_WIND);
      SetupForgetsPast(g, prev.game, inp.level, inp.x, inp.y, START_WIND);
    }
  }

  lemma {:induction false} RepeatedAllEqual<T>(x: T, n: int)
    ensures AllEqualFirst(Repeated(x, n))
    ensures forall i :: 0 <= i < |Repeated(x, n)| ==> Repeated(x, n)[i] == x
    decreases n
  {
    if n > 0 {
      RepeatedAllEqual(x, n - 1);
    }
  }

  /** The determinism verdict is true for a valid experiment whose jump restores the two flags. */
  lemma VerdictWhenFlagsRestored(tick: Tick, g: Game, inp: Input, n: int)
    requires ValidInput(inp)
    requires Flags(Experiment(tick, g, inp).1) == Flags(g)
    ensures Sweep(tick, g, Repeated(inp, n)).outcomes.Ok?
    ensures AllEqualFirst(Sweep(tick, g, Repeated(inp, n)).outcomes.value)
  {
    RepeatsAgree(tick, g, inp, n);
    RepeatedAllEqual(Experiment(tick, g, inp).0.value, n);
  }

  /**
   * A deterministic frame function that reads the landing flag: a king flagged
   * as landed lands at x = 10, any other at x = 20, and every frame clears the flag.
   */
  function LandedSensitiveTick(g: Game, action: Option<int>): Game
  {
    g.(king := g.king.(isLanded := false, x := if g.king.isLanded then 10.0 else 20.0))
  }

  const SampleKing: King := King(0.0, 0.0, 0.0, 0.0, 0.0, 0.0, false, false, false, true, None)

  /**
   * The determinism check can report a deterministic game as non-deterministic:
   * setup does not clear the landing flag, so the first run starts from
   * a different state than the second.
   */
  lemma VerdictDependsOnLandedFlag()
    ensures var g := Game(SampleKing, Levels(0, 0.0));
      var run := Sweep(LandedSensitiveTick, g, Repeated(Input(0, 230.0, 298.0, 0, RIGHT), 2));
      run.outcomes == Ok([JumpOutcome(0, 10.0, 298.0), JumpOutcome(0, 20.0, 298.0)]) &&
      !AllEqualFirst(run.outcomes.value)
  {
    var tick := LandedSensitiveTick;
    var g := Game(SampleKing, Levels(0, 0.0));
    var inp := Input(0, 230.0, 298.0, 0, RIGHT);
    var reps := Repeated(inp, 2);
    assert Repeated(inp, 1) == [inp];
    assert reps == [inp, inp];
    assert reps[..1] == [inp];
    var g1 := ApplySetup(g, 0, 230.0, 298.0, START_WIND).1;
    assert g1.king.isLanded;
    var j1 := Jump(tick, g1, RIGHT, 0);
    assert Iterate(tick, g1, Some(2), 0) == g1;
    assert j1 == tick(g1, Some(0));
    assert Experiment(tick, g, inp) == (Ok(JumpOutcome(0, 10.0, 298.0)), j1);
    var g2 := ApplySetup(j1, 0, 230.0, 298.0, START_WIND).1;
    assert !g2.king.isLanded;
    var j2 := Jump(tick, g2, RIGHT, 0);
    assert Iterate(tick, g2, Some(2), 0) == g2;
    assert j2 == tick(g2, Some(0));
    assert Experiment(tick, j1, inp) == (Ok(JumpOutcome(0, 20.0, 298.0)), j2);
    var o1, o2 := JumpOutcome(0, 10.0, 298.0), JumpOutcome(0, 20.0, 298.0);
    assert [inp][..0] == [];
    assert Sweep(tick, g, [inp]) == Run(Ok([] + [o1]), j1);
    assert [] + [o1] == [o1];
    assert Sweep(tick, g, reps) == Run(Ok([o1] + [o2]), j2);
    assert [o1] + [o2] == [o1, o2];
    assert [o1, o2][1] != [o1, o2][0];
  }

  /** An experiment whose setup also clears the jump and landing flags. */
  function ExperimentClearing(tick: Tick, g: Game, inp: Input): (Result<JumpOutcome, Error>, Game)
  {
    var (o, g1) := ApplySetupClearing(g, inp.level, inp.x, inp.y, START_WIND);
    if o.Fail? then (Err(o.error), g1)
    else
      var g2 := Jump(tick, g1, inp.direcao, inp.charge);
      (Ok(Landing(g2)), g2)
  }

  /** The repetition loop of the determinism check, run with the flag-clearing setup. */
  function RepeatClearing(tick: Tick, g: Game, inp: Input, n: int): Run
    decreases n
  {
    if n <= 0 then Run(Ok([]), g)
    else
      var prev := RepeatClearing(tick, g, inp, n - 1);
      if prev.outcomes.Err? then prev
      else
        var (r, h) := ExperimentClearing(tick, prev.game, inp);
        if r.Err? then Run(Err(r.error), h) else Run(Ok(prev.outcomes.value + [r.value]), h)
  }

  /** The determinism verdict with the flag-clearing setup: a rejected setup is still an error. */
  function VerdictClearing(tick: Tick, g: Game, inp: Input, n: int): Result<bool, Error>
  {
    var run := RepeatClearing(tick, g, inp, n);
    if run.outcomes.Err? then Err(run.outcomes.error) else Ok(AllEqualFirst(run.outcomes.value))
  }

  /** With the flag-clearing setup, an experiment's result does not depend on the game it starts from. */
  lemma ExperimentClearingForgetsPast(tick: Tick, g1: Game, g2: Game, inp: Input)
    ensures ExperimentClearing(tick, g1, inp).0.Ok? <==> ValidInput(inp)
    ensures ValidInput(inp) ==> ExperimentClearing(tick, g1, inp) == ExperimentClearing(tick, g2, inp)
  {
    SetupEffect(g1, inp.level, inp.x, inp.y, START_WIND);
    SetupClearingForgetsPast(g1, g2, inp.level, inp.x, inp.y, START_WIND);
  }

  /**
   * With the flag-clearing setup, n repetitions of a valid experiment give n
   * copies of one landing, from any start game and for any frame function.
   */
  lemma {:induction false} RepeatClearingAgrees(tick: Tick, g: Game, inp: Input, n: int)
    requires ValidInput(inp)
    ensures RepeatClearing(tick, g, inp, n).outcomes == Ok(Repeated(ExperimentClearing(tick, g, inp).0.value, n))
    decreases n
  {
    ExperimentClearingForgetsPast(tick, g, g, inp);
    if n >= 1 {
      RepeatClearingAgrees(tick, g, inp, n - 1);
      var prev := RepeatClearing(tick, g, inp, n - 1);
      ExperimentClearingForgetsPast(tick, prev.game, g, inp);
    }
  }

  /**
   * The determinism verdict with the flag-clearing setup is true for every
   * valid experiment on every start game, and an invalid one reports its setup error.
   */
  lemma VerdictClearingHolds(tick: Tick, g: Game, inp: Input, n: int)
    ensures ValidInput(inp) ==> VerdictClearing(tick, g, inp, n) == Ok(true)
    ensures !ValidInput(inp) && n >= 1 ==> VerdictClearing(tick, g, inp, n).Err?
  {
    if ValidInput(inp) {
      RepeatClearingAgrees(tick, g, inp, n);
      RepeatedAllEqual(ExperimentClearing(tick, g, inp).0.value, n);
    } else if n >= 1 {
      ClearingFirstFails(tick, g, inp, n);
    }
  }

  /** An invalid experiment fails the first repetition, and the failure ends the run. */
  lemma {:induction false} ClearingFirstFails(tick: Tick, g: Game, inp: Input, n: int)
    requires !ValidInput(inp) && n >= 1
    ensures RepeatClearing(tick, g, inp, n).outcomes.Err?
    decreases n
  {
    if n > 1 {
      ClearingFirstFails(tick, g, inp, n - 1);
    } else {
      ExperimentClearingForgetsPast(tick, g, g, inp);
    }
  }

  /** On the frame function that exposes the unreset flag, the flag-clearing setup gives equal landings. */
  lemma LandedSensitiveClearing()
    ensures var g := Game(SampleKing, Levels(0, 0.0));
      var inp := Input(0, 230.0, 298.0, 0, RIGHT);
      RepeatClearing(LandedSensitiveTick, g, inp, 2).outcomes == Ok([JumpOutcome(0, 20.0, 298.0), JumpOutcome(0, 20.0, 298.0)])
  {
    var tick := LandedSensitiveTick;
    var g := Game(SampleKing, Levels(0, 0.0));
    var inp := Input(0, 230.0, 298.0, 0, RIGHT);
    RepeatClearingAgrees(tick, g, inp, 2);
    var g1 := ApplySetupClearing(g, 0, 230.0, 298.0, START_WIND).1;
    assert !g1.king.isLanded;
    assert Iterate(tick, g1, Some(2), 0) == g1;
    assert Jump(tick, g1, RIGHT, 0) == tick(g1, Some(0));
    var o := JumpOutcome(0, 20.0, 298.0);
    assert ExperimentClearing(tick, g, inp).0 == Ok(o);
    assert Repeated(o, 1) == [o];
    assert Repeated(o, 2) == [o] + [o] == [o, o];
  }

  /** The test agent: drives its own harness through setups and jumps. */
  class AgenteTeste {
    const tester: GameTester

    predicate Valid()
      reads this, tester
    {
      tester.Valid() && tester.Ready()
    }

    /** A fresh harness, windowed at 60 frames per second, on the given game. */
    constructor (initial: Game, tick: Tick)
      ensures Valid() && fresh(tester)
      ensures tester.game == Some(initial) && tester.tick == tick
      ensures !tester.headless && tester.fps == 60
    {
      tester := new GameTester(false, 60, initial, tick);
    }

    /** setup with the given level and position and the default wind phase. */
    method DefinirEstadoInicial(nivel: int, x: real, y: real) returns (o: Outcome<Error>)
      requires Valid()
      modifies tester
      ensures Valid()
      ensures (o, tester.game.value) == ApplySetup(old(tester.game.value), nivel, x, y, START_WIND)
    {
      o := tester.Setup(nivel, x, y, START_WIND);
    }

    /** Charges for `frames_carga` frames, releases, and waits for the landing. */
    method ExecutarTestePulo(direcao: string, framesCarga: int) returns (r: JumpOutcome)
      requires Valid()
      modifies tester
      ensures Valid()
      ensures tester.game == Some(Jump(tester.tick, old(tester.game.value), direcao, framesCarga))
      ensures r == Landing(tester.game.value)
    {
      var cmdCarga, cmdSolta;
      if direcao == RIGHT {
        cmdCarga, cmdSolta := 2, 0;
      } else {
        cmdCarga, cmdSolta := 3, 1;
      }
      var _ := tester.Step(framesCarga, Some(cmdCarga));
      ghost var charged := tester.game.value;
      var limiteEspera := FLIGHT_CAP;
      while limiteEspera > 0
        invariant Valid()
        invariant 0 <= limiteEspera <= FLIGHT_CAP
        invariant Flight(tester.tick, charged, Some(cmdSolta), FLIGHT_CAP) ==
          Flight(tester.tick, tester.game.value, Some(cmdSolta), limiteEspera)
        decreases limiteEspera
      {
        var _ := tester.Step(1, Some(cmdSolta));
        var king := tester.game.value.king;
        if !king.isFalling && !king.isJump && king.speed == 0.0 && king.isLanded == false {
          break;
        }
        limiteEspera := limiteEspera - 1;
      }
      var level := tester.GetCurrentLevel();
      var pos := tester.GetPlayerPosition();
      r := JumpOutcome(level.value, pos.value.0, pos.value.1);
    }

    /** The setup of an input followed by its jump, stopping at a rejected setup. */
    method RunExperiment(inp: Input) returns (r: Result<JumpOutcome, Error>)
      requires Valid()
      modifies tester
      ensures Valid()
      ensures (r, tester.game.value) == Experiment(tester.tick, old(tester.game.value), inp)
    {
      var o := DefinirEstadoInicial(inp.level, inp.x, inp.y);
      if o.Fail? {
        return Err(o.error);
      }
      var landing := ExecutarTestePulo(inp.direcao, inp.charge);
      r := Ok(landing);
    }

    /**
     * Runs the same setup and jump `repeticoes` times and reports whether all
     * landings equal the first; a rejected setup is reported as its error.
     */
    method VerificarDeterminismo(nivel: int, x: real, y: real, direcao: string, carga: int, repeticoes: int)
      returns (r: Result<bool, Error>)
      requires Valid()
      modifies tester
      ensures Valid()
      ensures var run := Sweep(tester.tick, old(tester.game.value), Repeated(Input(nivel, x, y, carga, direcao), repeticoes));
        tester.game.value == run.game &&
        r == (if run.outcomes.Err? then Err(run.outcomes.error) else Ok(AllEqualFirst(run.outcomes.value)))
    {
      var resultados := Repetir(Input(nivel, x, y, carga, direcao), repeticoes);
      if resultados.Err? {
        return Err(resultados.error);
      }
      r := Ok(AllEqualFirst(resultados.value));
    }

    /** The repetitions of one experiment, in order; the first rejected setup ends them with its error. */
    method Repetir(inp: Input, repeticoes: int) returns (r: Result<seq<JumpOutcome>, Error>)
      requires Valid()
      modifies tester
      ensures Valid()
      ensures Run(r, tester.game.value) == Sweep(tester.tick, old(tester.game.value), Repeated(inp, repeticoes))
    {
      ghost var g0 := tester.game.value;
      var resultados: seq<JumpOutcome> := [];
      var i := 0;
      while i < repeticoes
        invariant Valid()
        invariant 0 <= i <= (if repeticoes > 0 then repeticoes else 0)
        invariant Sweep(tester.tick, g0, Repeated(inp, i)) == Run(Ok(resultados), tester.game.value)
      {
        ghost var h := tester.game.value;
        var resultado := RunExperiment(inp);
        if resultado.Err? {
          RepeatedErr(tester.tick, g0, inp, i, repeticoes, resultados, h, resultado.error, tester.game.value);
          return Err(resultado.error);
        }
        RepeatedOk(tester.tick, g0, inp, i, resultados, h, resultado.value, tester.game.value);
        resultados := resultados + [resultado.value];
        i := i + 1;
      }
      assert Repeated(inp, repeticoes) == Repeated(inp, i);
      r := Ok(resultados);
    }
  }
}
