/** The game: two paddles, one ball, the scores, the hit counters and the
    game-over flag, advanced one tick at a time. Every operation is a pure
    transition from one game state to the next. Where the game draws a random
    relaunch direction, the caller supplies the velocity instead. */
module Games {
  import opened Config
  import Paddles
  import Balls

  datatype Side = Left | Right

  /** The counters reported after each tick. */
  datatype GameInformation = GameInformation(leftHits: nat, rightHits: nat, leftScore: nat, rightScore: nat)

  /** `windowWidth`/`windowHeight` are the window size the game was built
      with. Only `Loop` reads `windowWidth`; everything else uses the
      constants of `Config`. */
  datatype Game = Game(
    windowWidth: int, windowHeight: int,
    left: Paddles.Paddle, right: Paddles.Paddle, ball: Balls.Ball,
    leftScore: nat, rightScore: nat,
    leftHits: nat, rightHits: nat,
    gameOver: bool)
  {
    function PaddleOn(side: Side): Paddles.Paddle
    {
      match side
      case Left => left
      case Right => right
    }

    function WithPaddle(side: Side, p: Paddles.Paddle): Game
    {
      match side
      case Left => this.(left := p)
      case Right => this.(right := p)
    }

    function Snapshot(): GameInformation
    {
      GameInformation(leftHits, rightHits, leftScore, rightScore)
    }
  }

  /** The state after one tick, with the counters that tick reports. */
  datatype Tick = Tick(game: Game, info: GameInformation)

  /** A new game: both paddles vertically centred, 10 pixels in from their
      walls, the ball at the centre of the playfield, no scores, no hits. */
  function Create(windowWidth: int, windowHeight: int, launch: Balls.Velocity): (g: Game)
    ensures g.windowWidth == windowWidth && g.windowHeight == windowHeight
    ensures g.left.x == 10 && g.right.x + g.right.width + 10 == Width
    ensures 2 * g.left.y + g.left.height == Height && 2 * g.right.y + g.right.height == Height
    ensures g.left.width == g.right.width == PaddleWidth && g.left.height == g.right.height == PaddleHeight
    ensures g.left.Within(Height) && g.right.Within(Height)
    ensures Paddles.Reset(g.left) == g.left && Paddles.Reset(g.right) == g.right
    ensures 2.0 * g.ball.x == Width as real && 2.0 * g.ball.y == Height as real
    ensures g.ball.AtOrigin() && g.ball.radius == BallRadius && g.ball.Motion() == launch
    ensures g.leftScore == g.rightScore == g.leftHits == g.rightHits == 0 && !g.gameOver
  {
    Game(windowWidth, windowHeight,
      Paddles.Create(10, Height / 2 - PaddleHeight / 2, PaddleWidth, PaddleHeight),
      Paddles.Create(Width - 10 - PaddleWidth, Height / 2 - PaddleHeight / 2, PaddleWidth, PaddleHeight),
      Balls.Create((Width / 2) as real, (Height / 2) as real, BallRadius, launch),
      0, 0, 0, 0, false)
  }

  /** Moves the chosen paddle one step, unless that step would take it
      outside the playfield's height, in which case nothing happens. */
  function MovePaddle(g: Game, side: Side, dir: Paddles.Direction): (h: Game)
    ensures h == g.WithPaddle(side, h.PaddleOn(side))
    ensures h.PaddleOn(side) == g.PaddleOn(side) || h.PaddleOn(side) == Paddles.Move(g.PaddleOn(side), dir)
    ensures dir == Paddles.Up ==>
      (h.PaddleOn(side) != g.PaddleOn(side) <==> g.PaddleOn(side).y - Paddles.Speed >= 0)
    ensures dir == Paddles.Down ==>
      (h.PaddleOn(side) != g.PaddleOn(side) <==> g.PaddleOn(side).y + g.PaddleOn(side).height + Paddles.Speed <= Height)
    ensures g.PaddleOn(side).Within(Height) ==> h.PaddleOn(side).Within(Height)
  {
    var paddle := g.PaddleOn(side);
    match dir
    case Up =>
      if paddle.y - Paddles.Speed >= 0 then g.WithPaddle(side, Paddles.Move(paddle, Paddles.Up)) else g
    case Down =>
      if paddle.y + paddle.height + Paddles.Speed <= Height then g.WithPaddle(side, Paddles.Move(paddle, Paddles.Down)) else g
  }

  /** The ball's top or bottom edge is on or beyond the ceiling or the floor. */
  predicate TouchesWall(b: Balls.Ball)
  {
    b.y + b.radius as real >= Height as real || b.y - b.radius as real <= 0.0
  }

  /** The ball's centre lies within the paddle's vertical extent, edges included. */
  predicate Spans(p: Paddles.Paddle, ballY: real)
  {
    p.y as real <= ballY <= (p.y + p.height) as real
  }

  /** The ball moves left, its centre is level with the left paddle, and its
      left edge has reached the paddle's right-hand face. */
  predicate HitsLeftPaddle(g: Game)
  {
    && g.ball.dx < 0.0
    && Spans(g.left, g.ball.y)
    && g.ball.x - g.ball.radius as real <= (g.left.x + g.left.width) as real
  }

  /** The ball moves right, its centre is level with the right paddle, and
      its right edge has reached the paddle's left-hand face. */
  predicate HitsRightPaddle(g: Game)
  {
    && g.ball.dx > 0.0
    && Spans(g.right, g.ball.y)
    && g.ball.x + g.ball.radius as real >= g.right.x as real
  }

  /** Vertical centre of a paddle. */
  function Middle(p: Paddles.Paddle): real
  {
    p.y as real + p.height as real / 2.0
  }

  /** The vertical velocity a paddle gives the ball it strikes at height
      `ballY`: a linear function of the distance from the paddle's centre,
      scaled so that the paddle's edges give the full speed. */
  function Deflection(p: Paddles.Paddle, ballY: real): (dy: real)
    ensures dy * (p.height as real / 2.0) == (ballY - Middle(p)) * Balls.MaxSpeed
    ensures Spans(p, ballY) ==> -Balls.MaxSpeed <= dy <= Balls.MaxSpeed
  {
    var differenceY := Middle(p) - ballY;
    var reduction := (p.height as real / 2.0) / Balls.MaxSpeed;
    var dy := differenceY / reduction * -1.0;
    DeflectionBounded(p.height as real / 2.0, ballY - Middle(p), dy);
    dy
  }

  /** If `dy * half == offset * MaxSpeed` and the offset is at most `half`
      in size, `dy` is at most `MaxSpeed` in size. */
  lemma DeflectionBounded(half: real, offset: real, dy: real)
    requires half > 0.0
    requires dy == offset / (half / Balls.MaxSpeed)
    ensures dy * half == offset * Balls.MaxSpeed
    ensures -half <= offset <= half ==> -Balls.MaxSpeed <= dy <= Balls.MaxSpeed
  {
  }

  /** Two values proportional to `a1 <= a2` by the same positive factors
      keep their order; with `DeflectionBounded`, the product form of
      `Deflection` is all the other proofs about it need. */
  lemma ScaledOrder(d1: real, d2: real, a1: real, a2: real, half: real)
    requires half > 0.0 && a1 <= a2
    requires d1 * half == a1 * Balls.MaxSpeed && d2 * half == a2 * Balls.MaxSpeed
    ensures d1 <= d2
  {
  }

  /** Reflects the ball off the ceiling and the floor, then checks it against
      the paddle it is heading for (by the sign of its horizontal velocity).
      On a hit the horizontal velocity flips, that side's hit counter goes up
      and the vertical velocity is recomputed from where the ball struck. The
      ball's position is not corrected. */
  function HandleCollisions(g: Game): (h: Game)
    ensures h == g.(ball := h.ball, leftHits := h.leftHits, rightHits := h.rightHits)
    ensures h.ball == g.ball.(dx := h.ball.dx, dy := h.ball.dy)
    ensures h.leftHits == (if HitsLeftPaddle(g) then g.leftHits + 1 else g.leftHits)
    ensures h.rightHits == (if HitsRightPaddle(g) then g.rightHits + 1 else g.rightHits)
    ensures !(HitsLeftPaddle(g) && HitsRightPaddle(g))
    ensures HitsLeftPaddle(g) ==> h.ball.dx == -g.ball.dx > 0.0 && h.ball.dy == Deflection(g.left, g.ball.y)
    ensures HitsRightPaddle(g) ==> h.ball.dx == -g.ball.dx < 0.0 && h.ball.dy == Deflection(g.right, g.ball.y)
    ensures !HitsLeftPaddle(g) && !HitsRightPaddle(g) ==>
      h.ball.dx == g.ball.dx && h.ball.dy == (if TouchesWall(g.ball) then -g.ball.dy else g.ball.dy)
  {
    var b := if TouchesWall(g.ball) then g.ball.(dy := -g.ball.dy) else g.ball;
    if HitsLeftPaddle(g) then
      g.(ball := b.(dx := -b.dx, dy := Deflection(g.left, b.y)), leftHits := g.leftHits + 1)
    else if HitsRightPaddle(g) then
      g.(ball := b.(dx := -b.dx, dy := Deflection(g.right, b.y)), rightHits := g.rightHits + 1)
    else
      g.(ball := b)
  }

  /** Awards a point when the ball has left the playfield (measured against
      `Width`), relaunching it from its origin with `launch`, then sets the
      game-over flag if either side has reached the winning score. */
  function CheckScore(g: Game, launch: Balls.Velocity): (h: Game)
    ensures h == g.(ball := h.ball, leftScore := h.leftScore, rightScore := h.rightScore, gameOver := h.gameOver)
    ensures g.ball.x < 0.0 ==>
      h.rightScore == g.rightScore + 1 && h.leftScore == g.leftScore
    ensures g.ball.x > Width as real ==>
      h.leftScore == g.leftScore + 1 && h.rightScore == g.rightScore
    ensures 0.0 <= g.ball.x <= Width as real ==>
      h.leftScore == g.leftScore && h.rightScore == g.rightScore && h.ball == g.ball
    ensures g.ball.x < 0.0 || g.ball.x > Width as real ==> h.ball == Balls.Reset(g.ball, launch)
    ensures h.gameOver <==> g.gameOver || h.leftScore >= WinningScore || h.rightScore >= WinningScore
  {
    var s :=
      if g.ball.x < 0.0 then g.(rightScore := g.rightScore + 1, ball := Balls.Reset(g.ball, launch))
      else if g.ball.x > Width as real then g.(leftScore := g.leftScore + 1, ball := Balls.Reset(g.ball, launch))
      else g;
    if s.leftScore >= WinningScore || s.rightScore >= WinningScore then s.(gameOver := true) else s
  }

  /** Starts over: both paddles and the ball go back to their origins (the
      ball relaunching with `launch`), both scores become 0 and the game is no
      longer over. The hit counters are kept. */
  function Reset(g: Game, launch: Balls.Velocity): (h: Game)
    ensures h.leftScore == 0 && h.rightScore == 0 && !h.gameOver
    ensures h.leftHits == g.leftHits && h.rightHits == g.rightHits
    ensures h.left == Paddles.Reset(g.left) && h.right == Paddles.Reset(g.right)
    ensures h.ball == Balls.Reset(g.ball, launch)
    ensures h.ball.AtOrigin() && h.ball.Motion() == launch
    ensures h.windowWidth == g.windowWidth && h.windowHeight == g.windowHeight
  {
    g.(left := Paddles.Reset(g.left), right := Paddles.Reset(g.right),
       ball := Balls.Reset(g.ball, launch),
       leftScore := 0, rightScore := 0, gameOver := false)
  }

  /** The first half of a tick: one step of motion, then collisions. The
      second half, scoring, never changes the hit counters. */
  function MoveAndCollide(g: Game): Game
  {
    HandleCollisions(g.(ball := Balls.Move(g.ball)))
  }

  /** One tick: move the ball, resolve collisions, award at most one point
      (measured against the window width), and report the counters. The
      game-over flag is never consulted or updated. */
  function Loop(g: Game, launch: Balls.Velocity): (t: Tick)
    ensures t.info == GameInformation(t.game.leftHits, t.game.rightHits, t.game.leftScore, t.game.rightScore)
    ensures t.game.left == g.left && t.game.right == g.right && t.game.gameOver == g.gameOver
    ensures t.game.windowWidth == g.windowWidth && t.game.windowHeight == g.windowHeight
    ensures t.game.leftHits + t.game.rightHits <= g.leftHits + g.rightHits + 1
    ensures t.game.leftHits >= g.leftHits && t.game.rightHits >= g.rightHits
    ensures var c := MoveAndCollide(g);
      && t.game.leftHits == c.leftHits && t.game.rightHits == c.rightHits
      && (0.0 <= c.ball.x <= g.windowWidth as real ==> t.game.ball == c.ball)
    ensures t.game.ball.radius == g.ball.radius
    ensures t.game.ball.originalX == g.ball.originalX && t.game.ball.originalY == g.ball.originalY
    ensures g.ball.x + g.ball.dx < 0.0 ==>
      && t.game.rightScore == g.rightScore + 1 && t.game.leftScore == g.leftScore
      && t.game.ball == Balls.Reset(g.ball, launch)
    ensures 0.0 <= g.ball.x + g.ball.dx && g.ball.x + g.ball.dx > g.windowWidth as real ==>
      && t.game.leftScore == g.leftScore + 1 && t.game.rightScore == g.rightScore
      && t.game.ball == Balls.Reset(g.ball, launch)
    ensures 0.0 <= g.ball.x + g.ball.dx <= g.windowWidth as real ==>
      && t.game.leftScore == g.leftScore && t.game.rightScore == g.rightScore
      && t.game.ball.x == g.ball.x + g.ball.dx && t.game.ball.y == g.ball.y + g.ball.dy
  {
    var c := MoveAndCollide(g);
    var s :=
      if c.ball.x < 0.0 then c.(ball := Balls.Reset(c.ball, launch), rightScore := c.rightScore + 1)
      else if c.ball.x > c.windowWidth as real then c.(ball := Balls.Reset(c.ball, launch), leftScore := c.leftScore + 1)
      else c;
    Tick(s, s.Snapshot())
  }
}
