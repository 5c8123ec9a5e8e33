/** The state the game deck and the navigation bar share. */
module Context {

  /** The three-valued game status: `null` (reset, waiting for a first key),
      `true` (running) and `false` (lost). */
  datatype Status = Idle | Running | Lost

  class GameContext {
    var score: int
    var status: Status
    /** The current level, starting at 1. */
    var level: int

    constructor ()
      ensures score == 0 && status == Idle && level == 1
    {
      score, status, level := 0, Idle, 1;
    }
  }
}
