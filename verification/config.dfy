/** The fixed geometry and thresholds of the playfield. The game reads these
    module-level constants directly, even where it also carries its own window
    size (see Games.Loop). */
module Config {

  /** Playfield width and height in pixels. */
  const Width: int := 700
  const Height: int := 500

  /** Every paddle the game builds is this wide and this tall. */
  const PaddleWidth: int := 20
  const PaddleHeight: int := 100

  /** Radius of the ball in pixels. */
  const BallRadius: int := 7

  /** A side that reaches this many points has won. */
  const WinningScore: nat := 10
}
