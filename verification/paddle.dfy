/** A paddle: an axis-aligned integer rectangle that only ever moves
    vertically, by a fixed step, and can be put back where it started.
    Bounds are not its concern; the game checks them before moving it. */
module Paddles {

  /** Vertical distance covered by one move, in pixels per move. */
  const Speed: int := 4

  /** A paddle dimension. The game only builds 20 x 100 paddles, so every
      dimension is positive. */
  type Extent = n: int | n > 0 witness 1

  datatype Direction = Up | Down

  /** The direction that undoes a move in `d`. */
  function Opposite(d: Direction): Direction
  {
    match d
    case Up => Down
    case Down => Up
  }

  /** Screen coordinates grow downwards: `y` is the top edge and `y + height`
      the bottom edge. `originalX`/`originalY` are where the paddle was built. */
  datatype Paddle = Paddle(x: int, y: int, width: Extent, height: Extent, originalX: int, originalY: int)
  {
    /** The paddle lies vertically inside a playfield `limit` pixels tall. */
    predicate Within(limit: int)
    {
      0 <= y && y + height <= limit
    }

    /** Only `y` differs between this paddle and `other`. */
    predicate SameBodyAs(other: Paddle)
    {
      && x == other.x && width == other.width && height == other.height
      && originalX == other.originalX && originalY == other.originalY
    }
  }

  /** A new paddle at `(x, y)`, remembering that position as its origin. */
  function Create(x: int, y: int, width: Extent, height: Extent): (p: Paddle)
    ensures p.x == x && p.y == y && p.width == width && p.height == height
    ensures Reset(p) == p
  {
    Paddle(x, y, width, height, x, y)
  }

  /** One step up (towards y = 0) or down, with no bounds check at all. */
  function Move(p: Paddle, dir: Direction): (q: Paddle)
    ensures q.SameBodyAs(p)
    ensures dir == Up ==> q.y + Speed == p.y
    ensures dir == Down ==> q.y == p.y + Speed
  {
    match dir
    case Up => p.(y := p.y - Speed)
    case Down => p.(y := p.y + Speed)
  }

  /** Back to the position the paddle was built at. */
  function Reset(p: Paddle): (q: Paddle)
    ensures q.width == p.width && q.height == p.height
    ensures q.originalX == p.originalX && q.originalY == p.originalY
    ensures q.x == p.originalX && q.y == p.originalY
  {
    p.(x := p.originalX, y := p.originalY)
  }

  /** A move is undone by a move in the opposite direction. */
  lemma MoveInverse(p: Paddle, dir: Direction)
    ensures Move(Move(p, dir), Opposite(dir)) == p
    ensures Move(p, dir) != p
  {
  }

  /** Resetting twice is resetting once. */
  lemma ResetIdempotent(p: Paddle)
    ensures Reset(Reset(p)) == Reset(p)
  {
  }

  /** Reset forgets any movement made since the paddle was built. */
  lemma {:induction false} ResetForgetsMoves(p: Paddle, moves: seq<Direction>)
    decreases |moves|
    ensures Reset(MoveSeq(p, moves)) == Reset(p)
    ensures MoveSeq(p, moves).SameBodyAs(p)
  {
    if moves != [] {
      ResetForgetsMoves(Move(p, moves[0]), moves[1..]);
    }
  }

  /** The paddle after moving in each direction of `moves`, in order. */
  function MoveSeq(p: Paddle, moves: seq<Direction>): Paddle
    decreases |moves|
  {
    if moves == [] then p else MoveSeq(Move(p, moves[0]), moves[1..])
  }
}
