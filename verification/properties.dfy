/** Properties that relate several operations of the game, or one operation
    over many calls: the shape every reachable game keeps, what reset does to
    it, the deflection profile of a paddle, scoring over a tick and over a
    whole run, and the two places where the tick does not do what the
    scoring routine does. */
module GameProperties {
  import opened Config
  import Paddles
  import Balls
  import opened Games

  /** The game as `Create` lays it out, whatever the launch velocity. */
  function Home(g: Game): Game
  {
    Create(g.windowWidth, g.windowHeight, Balls.Velocity(0.0, 0.0))
  }

  /** The shape every reachable game keeps: paddles of the built size at
      their built columns, inside the playfield, on the step grid of their
      starting height; the ball of the built radius with its built origin. */
  predicate Wellformed(g: Game)
  {
    var home := Home(g);
    && g.left.SameBodyAs(home.left) && g.right.SameBodyAs(home.right)
    && g.left.Within(Height) && g.right.Within(Height)
    && (g.left.y - home.left.y) % Paddles.Speed == 0
    && (g.right.y - home.right.y) % Paddles.Speed == 0
    && g.ball.radius == home.ball.radius
    && g.ball.originalX == home.ball.originalX && g.ball.originalY == home.ball.originalY
  }

  /** One input to the game per tick: paddle moves first, then the tick. */
  datatype Command = Command(side: Side, dir: Paddles.Direction)
  datatype Step = Step(moves: seq<Command>, launch: Balls.Velocity)

  /** The game after each paddle command in turn, each one bounds-checked. */
  function MoveAll(g: Game, moves: seq<Command>): Game
    decreases |moves|
  {
    if moves == [] then g else MoveAll(MovePaddle(g, moves[0].side, moves[0].dir), moves[1..])
  }

  /** The game after each step in turn: its paddle moves, then one tick. */
  function Play(g: Game, steps: seq<Step>): Game
    decreases |steps|
  {
    if steps == [] then g
    else Play(Loop(MoveAll(g, steps[0].moves), steps[0].launch).game, steps[1..])
  }

  // ---------------------------------------------------------------------
  // Paddles

  /** A new game is well formed, its paddles starting at height 200. */
  lemma CreateWellformed(windowWidth: int, windowHeight: int, launch: Balls.Velocity)
    ensures Wellformed(Create(windowWidth, windowHeight, launch))
    ensures Create(windowWidth, windowHeight, launch).left.y == 200
    ensures Create(windowWidth, windowHeight, launch).right.y == 200
  {
  }

  /** A bounds-checked paddle move keeps both paddles inside the playfield
      and leaves everything but the chosen paddle's height untouched. */
  lemma MovePaddleKeepsBounds(g: Game, side: Side, dir: Paddles.Direction)
    requires g.left.Within(Height) && g.right.Within(Height)
    ensures MovePaddle(g, side, dir).left.Within(Height)
    ensures MovePaddle(g, side, dir).right.Within(Height)
    ensures MovePaddle(g, side, dir).PaddleOn(side).SameBodyAs(g.PaddleOn(side))
    ensures var dy := MovePaddle(g, side, dir).PaddleOn(side).y - g.PaddleOn(side).y;
      dy == 0 || dy == Paddles.Speed || dy == -Paddles.Speed
  {
  }

  /** On the step grid a paddle reaches the walls exactly: a move is refused
      only when the paddle already touches the wall it would move towards. */
  lemma PaddleStopsAtWalls(g: Game, side: Side)
    requires Wellformed(g)
    ensures MovePaddle(g, side, Paddles.Up) == g <==> g.PaddleOn(side).y == 0
    ensures MovePaddle(g, side, Paddles.Down) == g <==> g.PaddleOn(side).y + g.PaddleOn(side).height == Height
  {
  }

  /** A paddle move keeps a game well formed. */
  lemma MovePaddleWellformed(g: Game, side: Side, dir: Paddles.Direction)
    requires Wellformed(g)
    ensures Wellformed(MovePaddle(g, side, dir))
  {
  }

  /** Any list of paddle commands keeps a game well formed and touches nothing but the paddles. */
  lemma {:induction false} MoveAllWellformed(g: Game, moves: seq<Command>)
    requires Wellformed(g)
    ensures Wellformed(MoveAll(g, moves))
    ensures MoveAll(g, moves) == g.(left := MoveAll(g, moves).left, right := MoveAll(g, moves).right)
    decreases |moves|
  {
    if moves != [] {
      MovePaddleWellformed(g, moves[0].side, moves[0].dir);
      MoveAllWellformed(MovePaddle(g, moves[0].side, moves[0].dir), moves[1..]);
    }
  }

  // ---------------------------------------------------------------------
  // Collisions

  /** Deflection profile: the paddle's top edge sends the ball up at full
      speed, its centre sends it straight and its bottom edge sends it down
      at full speed. */
  lemma DeflectionEdges(p: Paddles.Paddle)
    ensures Deflection(p, p.y as real) == -Balls.MaxSpeed
    ensures Deflection(p, Middle(p)) == 0.0
    ensures Deflection(p, (p.y + p.height) as real) == Balls.MaxSpeed
  {
  }

  /** A lower strike on the paddle never gives a smaller vertical speed. */
  lemma DeflectionMonotone(p: Paddles.Paddle, y1: real, y2: real)
    requires y1 <= y2
    ensures Deflection(p, y1) <= Deflection(p, y2)
  {
    var half := p.height as real / 2.0;
    ScaledOrder(Deflection(p, y1), Deflection(p, y2), y1 - Middle(p), y2 - Middle(p), half);
  }

  /** A ball on or past a wall has its vertical velocity reversed; unless a
      paddle hit follows, nothing else about the game changes. */
  lemma WallReflection(g: Game)
    requires TouchesWall(g.ball)
    requires !HitsLeftPaddle(g) && !HitsRightPaddle(g)
    ensures HandleCollisions(g) == g.(ball := g.ball.(dy := -g.ball.dy))
  {
  }

  /** A hit is counted once, on the side the ball was heading for, and sends
      the ball back the other way with a vertical speed of at most MaxSpeed. */
  lemma PaddleHitOnce(g: Game)
    ensures var h := HandleCollisions(g);
      && h.leftHits + h.rightHits <= g.leftHits + g.rightHits + 1
      && (h.leftHits > g.leftHits ==> g.ball.dx < 0.0 && h.ball.dx > 0.0 && h.rightHits == g.rightHits)
      && (h.rightHits > g.rightHits ==> g.ball.dx > 0.0 && h.ball.dx < 0.0 && h.leftHits == g.leftHits)
      && (h.leftHits > g.leftHits || h.rightHits > g.rightHits ==> -Balls.MaxSpeed <= h.ball.dy <= Balls.MaxSpeed)
      && (g.ball.dx == 0.0 ==> h.leftHits == g.leftHits && h.rightHits == g.rightHits && h.ball.dx == 0.0)
  {
  }

  /** Collision resolution keeps a game well formed. */
  lemma HandleCollisionsWellformed(g: Game)
    requires Wellformed(g)
    ensures Wellformed(HandleCollisions(g))
  {
  }

  // ---------------------------------------------------------------------
  // Scoring and the tick

  /** In one tick scores never fall, at most one of them rises, and by
      exactly one, and a point always sends the ball back to its origin. */
  lemma LoopScoresAtMostOnce(g: Game, launch: Balls.Velocity)
    ensures var h := Loop(g, launch).game;
      && h.leftScore >= g.leftScore && h.rightScore >= g.rightScore
      && h.leftScore + h.rightScore <= g.leftScore + g.rightScore + 1
      && (h.leftScore + h.rightScore > g.leftScore + g.rightScore ==> h.ball.AtOrigin())
  {
  }

  /** A tick keeps a game well formed. */
  lemma LoopWellformed(g: Game, launch: Balls.Velocity)
    requires Wellformed(g)
    ensures Wellformed(Loop(g, launch).game)
  {
  }

  /** The scoring routine sets the game-over flag once a score reaches the
      winning score and never clears it: from 9 points, one more point for
      the right side ends the game. */
  lemma CheckScoreEndsGame(g: Game, launch: Balls.Velocity)
    ensures g.gameOver ==> CheckScore(g, launch).gameOver
    ensures g.rightScore + 1 == WinningScore && g.ball.x < 0.0 ==> CheckScore(g, launch).gameOver
    ensures g.leftScore + 1 == WinningScore && g.ball.x > Width as real ==> CheckScore(g, launch).gameOver
  {
  }

  /** Source quirk: the tick never calls the scoring routine, so a tick that
      brings the right side to the winning score leaves the game running,
      while the scoring routine applied to the same state would end it. */
  lemma LoopNeverEndsGame(g: Game, launch: Balls.Velocity)
    requires !g.gameOver
    requires g.rightScore + 1 == WinningScore && g.ball.x + g.ball.dx < 0.0
    ensures Loop(g, launch).game.rightScore == WinningScore
    ensures !Loop(g, launch).game.gameOver
    ensures CheckScore(MoveAndCollide(g), launch).gameOver
  {
  }

  /** Source quirk: the tick measures the ball against the window width and
      the scoring routine against the constant `Width`. In a window wider
      than `Width` a ball between the two is a point for the scoring routine
      and not for the tick. */
  lemma LoopUsesWindowWidth(g: Game, launch: Balls.Velocity)
    requires Width as real < g.ball.x + g.ball.dx <= g.windowWidth as real
    ensures Loop(g, launch).game.leftScore == g.leftScore
    ensures CheckScore(MoveAndCollide(g), launch).leftScore == g.leftScore + 1
  {
  }

  /** The scoring routine keeps a game well formed. */
  lemma CheckScoreWellformed(g: Game, launch: Balls.Velocity)
    requires Wellformed(g)
    ensures Wellformed(CheckScore(g, launch))
  {
  }

  // ---------------------------------------------------------------------
  // Reset

  /** Reset keeps a game well formed. */
  lemma ResetWellformed(g: Game, launch: Balls.Velocity)
    requires Wellformed(g)
    ensures Wellformed(Reset(g, launch))
  {
  }

  /** Reset is a new game in the same window, except that the hit counters
      carry over. */
  lemma ResetIsNewGame(g: Game, launch: Balls.Velocity)
    requires Wellformed(g)
    ensures Reset(g, launch) == Create(g.windowWidth, g.windowHeight, launch).(leftHits := g.leftHits, rightHits := g.rightHits)
  {
  }

  /** Resetting twice is resetting once with the second launch velocity:
      scores 0, not over, paddles home, hit counters untouched. */
  lemma ResetIdempotent(g: Game, first: Balls.Velocity, second: Balls.Velocity)
    ensures Reset(Reset(g, first), second) == Reset(g, second)
  {
  }

  // ---------------------------------------------------------------------
  // Whole runs

  /** Over any run of steps the game stays well formed, scores and hit
      counters never fall, the scores rise by at most one per step, and the
      game-over flag never changes. */
  lemma {:induction false} PlayKeepsInvariants(g: Game, steps: seq<Step>)
    requires Wellformed(g)
    ensures var h := Play(g, steps);
      && Wellformed(h)
      && h.leftScore >= g.leftScore && h.rightScore >= g.rightScore
      && h.leftScore + h.rightScore <= g.leftScore + g.rightScore + |steps|
      && h.leftHits >= g.leftHits && h.rightHits >= g.rightHits
      && h.gameOver == g.gameOver
    decreases |steps|
  {
    if steps != [] {
      var moved := MoveAll(g, steps[0].moves);
      MoveAllWellformed(g, steps[0].moves);
      LoopWellformed(moved, steps[0].launch);
      LoopScoresAtMostOnce(moved, steps[0].launch);
      PlayKeepsInvariants(Loop(moved, steps[0].launch).game, steps[1..]);
    }
  }
}
