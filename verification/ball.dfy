/** The ball: a circle with a real position and a real velocity, moving in a
    straight line one velocity step per tick. Its relaunch direction is drawn
    at random by the game; here it is a velocity the caller supplies. */
module Balls {

  /** Nominal speed of the ball, in pixels per tick; also the largest vertical
      speed a paddle hit can give it. */
  const MaxSpeed: real := 5.0

  /** A velocity in pixels per tick; `dy > 0` is downwards. */
  datatype Velocity = Velocity(dx: real, dy: real)

  /** `originalX`/`originalY` are where the ball was built and where every
      reset puts it back. */
  datatype Ball = Ball(x: real, y: real, radius: int, dx: real, dy: real, originalX: real, originalY: real)
  {
    function Motion(): Velocity
    {
      Velocity(dx, dy)
    }

    /** The ball sits at its origin. */
    predicate AtOrigin()
    {
      x == originalX && y == originalY
    }
  }

  /** A new ball at `(x, y)` that will set off with `launch`. */
  function Create(x: real, y: real, radius: int, launch: Velocity): (b: Ball)
    ensures b.AtOrigin() && b.x == x && b.y == y && b.radius == radius
    ensures b.Motion() == launch
  {
    Ball(x, y, radius, launch.dx, launch.dy, x, y)
  }

  /** One tick of straight-line motion; no collision is looked at. */
  function Move(b: Ball): (c: Ball)
    ensures c.x - b.x == b.dx && c.y - b.y == b.dy
    ensures c.Motion() == b.Motion()
    ensures c.radius == b.radius && c.originalX == b.originalX && c.originalY == b.originalY
  {
    b.(x := b.x + b.dx, y := b.y + b.dy)
  }

  /** Back to the origin, setting off with the fresh velocity `launch`. */
  function Reset(b: Ball, launch: Velocity): (c: Ball)
    ensures c.AtOrigin() && c.Motion() == launch
    ensures c.radius == b.radius && c.originalX == b.originalX && c.originalY == b.originalY
  {
    b.(x := b.originalX, y := b.originalY, dx := launch.dx, dy := launch.dy)
  }

  /** The ball after `n` ticks of motion with nothing in its way. */
  function Advance(b: Ball, n: nat): Ball
    decreases n
  {
    if n == 0 then b else Advance(Move(b), n - 1)
  }

  /** Without collisions the ball travels in a straight line: after `n` ticks
      it has moved `n` velocity steps and its velocity is the same. */
  lemma {:induction false} AdvanceIsLinear(b: Ball, n: nat)
    decreases n
    ensures Advance(b, n).x == b.x + n as real * b.dx
    ensures Advance(b, n).y == b.y + n as real * b.dy
    ensures Advance(b, n).Motion() == b.Motion()
  {
    if n > 0 {
      AdvanceIsLinear(Move(b), n - 1);
    }
  }

  /** Where the ball was before a reset makes no difference to the reset. */
  lemma ResetForgetsMotion(b: Ball, n: nat, launch: Velocity)
    ensures Reset(Advance(b, n), launch) == Reset(b, launch)
  {
    AdvanceIsLinear(b, n);
    AdvanceKeepsOrigin(b, n);
  }

  /** Motion never changes the ball's radius or origin. */
  lemma {:induction false} AdvanceKeepsOrigin(b: Ball, n: nat)
    decreases n
    ensures Advance(b, n).radius == b.radius
    ensures Advance(b, n).originalX == b.originalX && Advance(b, n).originalY == b.originalY
  {
    if n > 0 {
      AdvanceKeepsOrigin(Move(b), n - 1);
    }
  }
}
