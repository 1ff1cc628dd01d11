/**
 * The simulation oracle boundary. The game's physics is not modelled: one
 * frame of the game is an arbitrary, total function `Tick` from the current
 * game state and the frame's command to the next game state. Being a function
 * value, every oracle is deterministic by construction.
 */
module GameState {
  import opened Wrappers

  /** The fields of the game's king that the tooling writes or reads. */
  datatype King = King(
    x: real,
    y: real,
    rectX: real,
    rectY: real,
    speed: real,
    angle: real,
    isFalling: bool,
    isSplat: bool,
    isJump: bool,
    isLanded: bool,
    lastCollision: Option<nat>)

  /** The level manager: the current screen and the wind oscillator's phase. */
  datatype Levels = Levels(currentLevel: int, windVar: real)

  datatype Game = Game(king: King, levels: Levels)

  /**
   * One frame of the game with an optional command
   * (0 right, 1 left, 2 right and jump, 3 left and jump; None for no input).
   */
  type Tick = (Game, Option<int>) -> Game

  /** The state after `n` frames with the same command; no frame at all when n <= 0. */
  function Iterate(tick: Tick, g: Game, action: Option<int>, n: int): Game
    decreases n
  {
    if n <= 0 then g else tick(Iterate(tick, g, action, n - 1), action)
  }

  /** Running one frame first and then n frames is running n + 1 frames. */
  lemma {:induction false} IterateShift(tick: Tick, g: Game, action: Option<int>, n: nat)
    ensures Iterate(tick, g, action, n + 1) == Iterate(tick, tick(g, action), action, n)
  {
    if n > 0 {
      IterateShift(tick, g, action, n - 1);
    }
  }

  /** Running n frames and then m more is running n + m frames. */
  lemma {:induction false} IterateAdd(tick: Tick, g: Game, action: Option<int>, n: nat, m: nat)
    ensures Iterate(tick, Iterate(tick, g, action, n), action, m) == Iterate(tick, g, action, n + m)
  {
    if m > 0 {
      IterateAdd(tick, g, action, n, m - 1);
    }
  }
}
