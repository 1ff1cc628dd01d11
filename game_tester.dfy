/**
 * The test harness that drives one game instance: parameter validation, the
 * setters that place the king and configure the level and wind, the getters,
 * frame stepping and shutdown.
 *
 * The setters are specified by pure functions on the game value (`ApplyPosition`,
 * `ApplyLevel`, `ApplyWind`, `ApplySetup`); the class `GameTester` holds the game and
 * applies them, raising NotInitialized when it holds none.
 */
module Tester {
  import opened Wrappers
  import opened GameState

  /** The two exception kinds of the harness: RuntimeError and ValueError (by cause). */
  datatype Error =
    | NotInitialized
    | InvalidX(x: real)
    | InvalidY(y: real)
    | InvalidLevel(level: int)
    | InvalidWindPhase(phase: real)

  const MAX_X: real := 480.0
  const MAX_Y: real := 360.0
  const MAX_LEVEL: int := 42
  /** 2 * math.pi as a double. */
  const TWO_PI: real := 6.283185307179586

  predicate ValidX(x: real) { 0.0 <= x <= MAX_X }
  predicate ValidY(y: real) { 0.0 <= y <= MAX_Y }
  predicate ValidLevel(level: int) { 0 <= level <= MAX_LEVEL }
  predicate ValidWindPhase(phase: real) { 0.0 <= phase <= TWO_PI }

  function CheckX(x: real): (o: Outcome<Error>)
    ensures o.Pass? <==> ValidX(x)
    ensures o.Fail? ==> o.error == InvalidX(x)
  {
    if ValidX(x) then Pass else Fail(InvalidX(x))
  }

  function CheckY(y: real): (o: Outcome<Error>)
    ensures o.Pass? <==> ValidY(y)
    ensures o.Fail? ==> o.error == InvalidY(y)
  {
    if ValidY(y) then Pass else Fail(InvalidY(y))
  }

  /** x is checked before y, so a pair with both out of range reports x. */
  function CheckCoordinates(x: real, y: real): (o: Outcome<Error>)
    ensures o.Pass? <==> ValidX(x) && ValidY(y)
    ensures !ValidX(x) ==> o == Fail(InvalidX(x))
    ensures ValidX(x) && !ValidY(y) ==> o == Fail(InvalidY(y))
  {
    var ox := CheckX(x);
    if ox.Fail? then ox else CheckY(y)
  }

  function CheckLevel(level: int): (o: Outcome<Error>)
    ensures o.Pass? <==> ValidLevel(level)
    ensures o.Fail? ==> o.error == InvalidLevel(level)
  {
    if ValidLevel(level) then Pass else Fail(InvalidLevel(level))
  }

  function CheckWindPhase(phase: real): (o: Outcome<Error>)
    ensures o.Pass? <==> ValidWindPhase(phase)
    ensures o.Fail? ==> o.error == InvalidWindPhase(phase)
  {
    if ValidWindPhase(phase) then Pass else Fail(InvalidWindPhase(phase))
  }

  /** The king's physics is at rest: no speed, no angle, not falling, not splatted, no collision. */
  predicate AtRest(k: King)
  {
    k.speed == 0.0 && k.angle == 0.0 && !k.isFalling && !k.isSplat && k.lastCollision == None
  }

  /** The collision rectangle sits at the game's fixed offsets from the position. */
  predicate RectAligned(k: King)
  {
    k.rectX == k.x + 1.0 && k.rectY == k.y + 7.0
  }

  function Position(g: Game): (real, real)
  {
    (g.king.x, g.king.y)
  }

  /** The king moved to (x, y) with its physics reset; the jump and landing flags are not touched. */
  function PlaceKing(k: King, x: real, y: real): King
  {
    k.(x := x, y := y, rectX := x + 1.0, rectY := y + 7.0,
       speed := 0.0, angle := 0.0, isFalling := false, isSplat := false, lastCollision := None)
  }

  /** set_player_position on an initialized game: validate both coordinates, then write. */
  function ApplyPosition(g: Game, x: real, y: real): (Outcome<Error>, Game)
  {
    var o := CheckCoordinates(x, y);
    if o.Fail? then (o, g) else (Pass, g.(king := PlaceKing(g.king, x, y)))
  }

  /** set_level on an initialized game. */
  function ApplyLevel(g: Game, level: int): (Outcome<Error>, Game)
  {
    var o := CheckLevel(level);
    if o.Fail? then (o, g) else (Pass, g.(levels := g.levels.(currentLevel := level)))
  }

  /** set_wind on an initialized game (the visual displacement it also sets is not modelled). */
  function ApplyWind(g: Game, phase: real): (Outcome<Error>, Game)
  {
    var o := CheckWindPhase(phase);
    if o.Fail? then (o, g) else (Pass, g.(levels := g.levels.(windVar := phase)))
  }

  /**
   * setup on an initialized game: level, then position, then wind. A failing
   * step stops the sequence; the steps before it stay applied.
   */
  function ApplySetup(g: Game, level: int, x: real, y: real, phase: real): (Outcome<Error>, Game)
  {
    var (o1, g1) := ApplyLevel(g, level);
    if o1.Fail? then (o1, g1)
    else
      var (o2, g2) := ApplyPosition(g1, x, y);
      if o2.Fail? then (o2, g2)
      else ApplyWind(g2, phase)
  }

  /** Setting the position succeeds exactly for coordinates in range; then the king is there, at rest. */
  lemma PositionEffect(g: Game, x: real, y: real)
    ensures ApplyPosition(g, x, y).0.Pass? <==> ValidX(x) && ValidY(y)
    ensures var (o, g') := ApplyPosition(g, x, y);
      o.Pass? ==>
        Position(g') == (x, y) && AtRest(g'.king) && RectAligned(g'.king) &&
        g'.king.isJump == g.king.isJump && g'.king.isLanded == g.king.isLanded &&
        g'.levels == g.levels
  {
  }

  /** A rejected position leaves the game untouched and reports x before y. */
  lemma PositionRejects(g: Game, x: real, y: real)
    requires !(ValidX(x) && ValidY(y))
    ensures ApplyPosition(g, x, y).1 == g
    ensures ApplyPosition(g, x, y).0 == Fail(if !ValidX(x) then InvalidX(x) else InvalidY(y))
  {
  }

  /** Setting a position twice is setting it once, and the last of two settings wins. */
  lemma PositionLastWins(g: Game, x1: real, y1: real, x2: real, y2: real)
    ensures ApplyPosition(ApplyPosition(g, x1, y1).1, x1, y1) == ApplyPosition(g, x1, y1)
    ensures ValidX(x2) && ValidY(y2) ==>
      ApplyPosition(ApplyPosition(g, x1, y1).1, x2, y2).1 == ApplyPosition(g, x2, y2).1
  {
  }

  lemma LevelEffect(g: Game, level: int)
    ensures ApplyLevel(g, level).0 == CheckLevel(level)
    ensures var g' := ApplyLevel(g, level).1;
      g'.king == g.king && g'.levels.windVar == g.levels.windVar &&
      g'.levels.currentLevel == (if ValidLevel(level) then level else g.levels.currentLevel)
  {
  }

  lemma WindEffect(g: Game, phase: real)
    ensures ApplyWind(g, phase).0 == CheckWindPhase(phase)
    ensures var g' := ApplyWind(g, phase).1;
      g'.king == g.king && g'.levels.currentLevel == g.levels.currentLevel &&
      g'.levels.windVar == (if ValidWindPhase(phase) then phase else g.levels.windVar)
  {
  }

  /** The three setters touch disjoint parts of the game, so their order does not matter to the state. */
  lemma SettersCommute(g: Game, level: int, x: real, y: real, phase: real)
    ensures ApplyLevel(ApplyPosition(g, x, y).1, level).1 == ApplyPosition(ApplyLevel(g, level).1, x, y).1
    ensures ApplyWind(ApplyPosition(g, x, y).1, phase).1 == ApplyPosition(ApplyWind(g, phase).1, x, y).1
    ensures ApplyWind(ApplyLevel(g, level).1, phase).1 == ApplyLevel(ApplyWind(g, phase).1, level).1
  {
  }

  /** setup succeeds exactly when all four parameters are in range, and then the game is as configured. */
  lemma SetupEffect(g: Game, level: int, x: real, y: real, phase: real)
    ensures ApplySetup(g, level, x, y, phase).0.Pass? <==>
      ValidLevel(level) && ValidX(x) && ValidY(y) && ValidWindPhase(phase)
    ensures var (o, g') := ApplySetup(g, level, x, y, phase);
      o.Pass? ==>
        g'.levels == Levels(level, phase) && Position(g') == (x, y) &&
        AtRest(g'.king) && RectAligned(g'.king) &&
        g'.king.isJump == g.king.isJump && g'.king.isLanded == g.king.isLanded
  {
    PositionEffect(ApplyLevel(g, level).1, x, y);
  }

  /**
   * The first invalid parameter, in the order level, x, y, wind, is the one
   * reported, and the steps before it are already applied.
   */
  lemma SetupFailure(g: Game, level: int, x: real, y: real, phase: real)
    ensures !ValidLevel(level) ==> ApplySetup(g, level, x, y, phase) == (Fail(InvalidLevel(level)), g)
    ensures ValidLevel(level) && !(ValidX(x) && ValidY(y)) ==>
      ApplySetup(g, level, x, y, phase) ==
        (Fail(if !ValidX(x) then InvalidX(x) else InvalidY(y)), ApplyLevel(g, level).1)
    ensures ValidLevel(level) && ValidX(x) && ValidY(y) && !ValidWindPhase(phase) ==>
      ApplySetup(g, level, x, y, phase) ==
        (Fail(InvalidWindPhase(phase)), ApplyPosition(ApplyLevel(g, level).1, x, y).1)
  {
  }

  /**
   * setup depends on the previous game only through the king's jump and landing
   * flags: two games agreeing on those are configured to the same state.
   */
  lemma SetupForgetsPast(g1: Game, g2: Game, level: int, x: real, y: real, phase: real)
    requires g1.king.isJump == g2.king.isJump && g1.king.isLanded == g2.king.isLanded
    requires ApplySetup(g1, level, x, y, phase).0.Pass?
    ensures ApplySetup(g1, level, x, y, phase) == ApplySetup(g2, level, x, y, phase)
  {
    SetupEffect(g1, level, x, y, phase);
    SetupEffect(g2, level, x, y, phase);
  }

  /** Running setup twice with the same parameters is running it once. */
  lemma SetupIdempotent(g: Game, level: int, x: real, y: real, phase: real)
    ensures ApplySetup(ApplySetup(g, level, x, y, phase).1, level, x, y, phase) == ApplySetup(g, level, x, y, phase)
  {
  }

  /**
   * set_player_position as its callers need it: besides the physics it
   * already resets, it also clears the jump and landing flags.
   */
  function ApplyPositionClearing(g: Game, x: real, y: real): (Outcome<Error>, Game)
  {
    var (o, g1) := ApplyPosition(g, x, y);
    if o.Fail? then (o, g1) else (o, g1.(king := g1.king.(isJump := false, isLanded := false)))
  }

  /** setup with the flag-clearing position step: level, then position, then wind. */
  function ApplySetupClearing(g: Game, level: int, x: real, y: real, phase: real): (Outcome<Error>, Game)
  {
    var (o1, g1) := ApplyLevel(g, level);
    if o1.Fail? then (o1, g1)
    else
      var (o2, g2) := ApplyPositionClearing(g1, x, y);
      if o2.Fail? then (o2, g2)
      else ApplyWind(g2, phase)
  }

  /**
   * The flag-clearing setup fails exactly as setup does, and when it succeeds
   * the configured game does not depend on the previous game at all.
   */
  lemma SetupClearingForgetsPast(g1: Game, g2: Game, level: int, x: real, y: real, phase: real)
    ensures ApplySetupClearing(g1, level, x, y, phase).0 == ApplySetup(g1, level, x, y, phase).0
    ensures ApplySetupClearing(g1, level, x, y, phase).0.Pass? ==>
      ApplySetupClearing(g1, level, x, y, phase) == ApplySetupClearing(g2, level, x, y, phase)
    ensures var (o, g') := ApplySetupClearing(g1, level, x, y, phase);
      o.Pass? ==> !g'.king.isJump && !g'.king.isLanded
  {
    SetupEffect(g1, level, x, y, phase);
    SetupEffect(g2, level, x, y, phase);
  }

  /**
   * The harness around one game instance. `tick` is the game's frame update
   * for a command; the game's rendering, audio and clock are not modelled.
   */
  class GameTester {
    var initialized: bool
    var game: Option<Game>
    const headless: bool
    const fps: int
    const tick: Tick

    /** The guard every operation starts with. */
    predicate Ready()
      reads this
    {
      initialized && game.Some?
    }

    /** The harness holds a game exactly while it is initialized. */
    predicate Valid()
      reads this
    {
      initialized <==> game.Some?
    }

    /** Launching the game succeeds and leaves it in its initial state. */
    constructor (headless: bool, fps: int, initial: Game, tick: Tick)
      ensures Valid() && Ready() && game == Some(initial)
      ensures this.headless == headless && this.fps == fps && this.tick == tick
    {
      this.headless := headless;
      this.fps := fps;
      this.tick := tick;
      initialized := true;
      game := Some(initial);
    }

    method SetPlayerPosition(x: real, y: real) returns (o: Outcome<Error>)
      requires Valid()
      modifies this`game
      ensures Valid()
      ensures !old(Ready()) ==> o == Fail(NotInitialized) && game == old(game)
      ensures old(Ready()) ==> game.Some? && (o, game.value) == ApplyPosition(old(game.value), x, y)
    {
      if !Ready() {
        return Fail(NotInitialized);
      }
      var (o', g') := ApplyPosition(game.value, x, y);
      o := o';
      game := Some(g');
    }

    method SetLevel(level: int) returns (o: Outcome<Error>)
      requires Valid()
      modifies this`game
      ensures Valid()
      ensures !old(Ready()) ==> o == Fail(NotInitialized) && game == old(game)
      ensures old(Ready()) ==> game.Some? && (o, game.value) == ApplyLevel(old(game.value), level)
    {
      if !Ready() {
        return Fail(NotInitialized);
      }
      var (o', g') := ApplyLevel(game.value, level);
      o := o';
      game := Some(g');
    }

    method SetWind(phase: real) returns (o: Outcome<Error>)
      requires Valid()
      modifies this`game
      ensures Valid()
      ensures !old(Ready()) ==> o == Fail(NotInitialized) && game == old(game)
      ensures old(Ready()) ==> game.Some? && (o, game.value) == ApplyWind(old(game.value), phase)
    {
      if !Ready() {
        return Fail(NotInitialized);
      }
      var (o', g') := ApplyWind(game.value, phase);
      o := o';
      game := Some(g');
    }

    /** Calls the three setters in order and stops at the first error. */
    method Setup(level: int, x: real, y: real, phase: real) returns (o: Outcome<Error>)
      requires Valid()
      modifies this`game
      ensures Valid()
      ensures !old(Ready()) ==> o == Fail(NotInitialized) && game == old(game)
      ensures old(Ready()) ==> game.Some? && (o, game.value) == ApplySetup(old(game.value), level, x, y, phase)
    {
      if !Ready() {
        return Fail(NotInitialized);
      }
      o := SetLevel(level);
      if o.Fail? {
        return;
      }
      o := SetPlayerPosition(x, y);
      if o.Fail? {
        return;
      }
      o := SetWind(phase);
    }

    method GetPlayerPosition() returns (r: Result<(real, real), Error>)
      ensures Ready() ==> r == Ok((game.value.king.x, game.value.king.y))
      ensures !Ready() ==> r == Err(NotInitialized)
    {
      if !Ready() {
        return Err(NotInitialized);
      }
      r := Ok(Position(game.value));
    }

    method GetCurrentLevel() returns (r: Result<int, Error>)
      ensures Ready() ==> r == Ok(game.value.levels.currentLevel)
      ensures !Ready() ==> r == Err(NotInitialized)
    {
      if !Ready() {
        return Err(NotInitialized);
      }
      r := Ok(game.value.levels.currentLevel);
    }

    method GetWindState() returns (r: Result<real, Error>)
      ensures Ready() ==> r == Ok(game.value.levels.windVar)
      ensures !Ready() ==> r == Err(NotInitialized)
    {
      if !Ready() {
        return Err(NotInitialized);
      }
      r := Ok(game.value.levels.windVar);
    }

    /** Playable means the king is not falling; the menu and pause flags always hold here. */
    method IsPlayable() returns (r: Result<bool, Error>)
      ensures Ready() ==> r == Ok(!game.value.king.isFalling)
      ensures !Ready() ==> r == Err(NotInitialized)
    {
      if !Ready() {
        return Err(NotInitialized);
      }
      r := Ok(!game.value.king.isFalling);
    }

    /** Advances `frames` frames with the same command; no frame at all for frames <= 0. */
    method Step(frames: int, action: Option<int>) returns (o: Outcome<Error>)
      requires Valid()
      modifies this`game
      ensures Valid()
      ensures !old(Ready()) ==> o == Fail(NotInitialized) && game == old(game)
      ensures old(Ready()) ==> o == Pass && game == Some(Iterate(tick, old(game.value), action, frames))
    {
      if !Ready() {
        return Fail(NotInitialized);
      }
      var i := 0;
      while i < frames
        invariant 0 <= i <= (if frames > 0 then frames else 0)
        invariant game == Some(Iterate(tick, old(game.value), action, i))
      {
        game := Some(tick(game.value, action));
        i := i + 1;
      }
      o := Pass;
    }

    /** Releases the game; a second call does nothing. */
    method Shutdown()
      requires Valid()
      modifies this
      ensures Valid() && !initialized && !Ready()
      ensures game == (if old(initialized) then None else old(game))
    {
      if !initialized {
        return;
      }
      initialized := false;
      game := None;
    }
  }
}
