# Pong game engine in Dafny

This project models the engine of a two-paddle Pong game (`pong.py`). The playfield is 700 x 500 pixels. It holds two 20 x 100 paddles and one ball of radius 7. Each tick the ball moves one velocity step. It bounces off the ceiling and the floor, and off the face of the paddle it is heading for. A paddle hit sends it back with a vertical speed that depends on where it struck. When the ball leaves the playfield, the other side scores a point.

Every piece of state is an immutable datatype, and every operation is a pure function from one state to the next:

- `Config` holds the module-level constants of the game.
- `Paddles` models a paddle. Its `y` moves by a fixed step of 4 and it can be reset to where it was built.
- `Balls` models the ball. Its position and velocity are `real`; it moves in a straight line and can be reset to its origin.
- `Games` models the game:
  - the constructor and the bounds-checked paddle move;
  - collision resolution;
  - the scoring routine (`check_score`), the reset, and the per-tick `loop` with its `GameInformation` snapshot.
- `GameProperties` relates operations to each other. It defines the shape every reachable game keeps (`Wellformed`), shows that each operation preserves it, and proves facts about reset, deflection and scoring over whole runs of ticks (`Play`).

The game draws each relaunch direction at random. Here that direction is a velocity the caller supplies (`launch`). It is used by the constructor, by `Reset`, and by `Loop` and `CheckScore` when a point is scored.

Two quirks of the source are kept as written, and a lemma states each one:

- The tick never calls the scoring routine, so no tick sets the game-over flag, even when a side reaches the winning score (`GameProperties.LoopNeverEndsGame`).
- The tick compares the ball with the window width it was built with. The scoring routine compares it with the constant `Width` (`GameProperties.LoopUsesWindowWidth`).

Other details kept from the source:

- The paddle bounds check and the wall test both use the constant `Height`, not the window height.
- Reset clears the scores and the game-over flag but keeps the hit counters.

## Model

| member | source | states |
|---|---|---|
| Paddles.Create | pong.py:31-37 | a new paddle stands at the given position, with the given size, and resetting it changes nothing |
| Paddles.Move | pong.py:42-46 | a move changes only `y`: up subtracts 4, down adds 4, and the column, size and origin stay the same |
| Paddles.Reset | pong.py:48-50 | reset puts the paddle back at its original `x` and `y` and keeps its size and origin |
| Paddles.MoveInverse | pong.py:42-46 | a move followed by a move in the opposite direction restores the paddle, and no move leaves it where it was |
| Paddles.ResetIdempotent | pong.py:48-50 | resetting twice gives the same paddle as resetting once |
| Paddles.ResetForgetsMoves | pong.py:42-50 | after any sequence of moves, reset gives the same paddle as resetting the unmoved one, and the moves never change its column, size or origin |
| Balls.Create | pong.py:56-61 | a new ball sits at its origin with the given radius and the supplied launch velocity |
| Balls.Move | pong.py:70-72 | one tick adds the velocity to the position and leaves the velocity, radius and origin unchanged |
| Balls.Reset | pong.py:74-79 | reset puts the ball at its origin with the supplied launch velocity and keeps its radius |
| Balls.AdvanceIsLinear | pong.py:70-72 | after n ticks without collisions the ball has moved exactly n velocity steps and its velocity is unchanged |
| Balls.ResetForgetsMotion | pong.py:70-79 | a reset after any number of ticks gives the same ball as a reset before them |
| Games.Create | pong.py:88-99 | a new game has both paddles vertically centred and inside the playfield, the left paddle 10 pixels from its wall and the right paddle 10 pixels from its wall; the ball is at the playfield centre; scores and hits are 0 and the game is not over |
| Games.MovePaddle | pong.py:126-137 | only the chosen paddle can change, and only by one move in the requested direction; an up move happens exactly when the new top edge `y` is still `>= 0`, and a down move exactly when the new bottom edge `y + height` is still `<= Height` (the edge the paddle moves away from is not checked); a paddle inside the playfield stays inside |
| Games.Deflection | pong.py:148-151 | the new vertical speed is (strike height minus paddle centre) times MaxSpeed divided by half the paddle height; it lies within `[-MaxSpeed, MaxSpeed]` for any strike on the paddle |
| Games.HandleCollisions | pong.py:139-161 | only the ball's velocity and the hit counters change. A side's counter rises by one exactly when the ball heads for that paddle, its centre is level with the paddle and its leading edge reaches the face; both sides never rise together. A hit reverses `dx` and sets `dy` to the deflection. Without a hit, `dx` is kept and `dy` is reversed exactly when the ball touches a wall |
| Games.CheckScore | pong.py:163-172 | a ball left of 0 gives the right side one point, a ball right of `Width` gives the left side one point, and a ball in between scores nothing and stays put. A point relaunches the ball: it becomes the ball's own reset, at its own origin with the launch velocity. Afterwards the game is over exactly when it already was or a score has reached 10 |
| Games.Reset | pong.py:174-180 | scores become 0 and the game is no longer over; both paddles return to their origins; the ball becomes its own reset, back at its own origin with its radius and the launch velocity; the hit counters are unchanged |
| Games.Loop | pong.py:182-196 | after the ball moves one step: left of 0 gives the right side one point and the ball becomes its own reset, at its own origin with the launch velocity; right of the window width gives the left side one point and the same relaunch; in between, no score changes and the ball is exactly the moved ball after `HandleCollisions` (position, bounce and deflection). The hit counters are exactly those `HandleCollisions` leaves. The paddles and the game-over flag are untouched, the ball's radius and origin never change, hits rise by at most one in total, and the snapshot equals the new counters |
| GameProperties.CreateWellformed | pong.py:88-99 | a new game is well formed, and both paddles start at height 200 |
| GameProperties.MovePaddleKeepsBounds | pong.py:126-137 | if both paddles lie within `[0, Height]` before a paddle move, both still do after it; the chosen paddle keeps its column and size, and its `y` changes by 0 or by exactly 4 |
| GameProperties.PaddleStopsAtWalls | pong.py:126-137 | in a well-formed game, an upward move is refused exactly when the paddle touches the ceiling, and a downward move exactly when it touches the floor |
| GameProperties.MovePaddleWellformed | pong.py:126-137 | a paddle move keeps the game well formed |
| GameProperties.MoveAllWellformed | pong.py:126-137 | any sequence of paddle moves keeps the game well formed and changes nothing but the paddles |
| GameProperties.DeflectionEdges | pong.py:148-151 | a strike at the paddle's top edge gives `-MaxSpeed`, one at its centre gives 0 and one at its bottom edge gives `+MaxSpeed` |
| GameProperties.DeflectionMonotone | pong.py:158-161 | a lower strike never gives a smaller vertical speed |
| GameProperties.WallReflection | pong.py:140-141 | a ball touching a wall with no paddle hit has only its vertical velocity reversed; its position, `dx` and the hit counters are unchanged |
| GameProperties.PaddleHitOnce | pong.py:143-161 | hits rise by at most one in total, and only on the side the ball was heading for. The ball then moves away from that paddle with a vertical speed of at most MaxSpeed. A ball with `dx == 0` hits nothing |
| GameProperties.HandleCollisionsWellformed | pong.py:139-161 | collision resolution keeps the game well formed |
| GameProperties.LoopScoresAtMostOnce | pong.py:182-191 | in one tick scores never fall, their sum rises by at most one, and a point leaves the ball at its origin |
| GameProperties.LoopWellformed | pong.py:182-196 | a tick keeps the game well formed |
| GameProperties.CheckScoreEndsGame | pong.py:163-172 | the scoring routine never clears the game-over flag, and a ninth-to-tenth point for either side sets it |
| GameProperties.LoopNeverEndsGame | pong.py:182-196 | a tick that brings the right side to 10 points leaves the game running, while the scoring routine applied after the same motion ends it |
| GameProperties.LoopUsesWindowWidth | pong.py:163-191 | in a window wider than `Width`, a ball between the two bounds scores for the scoring routine but not for the tick |
| GameProperties.CheckScoreWellformed | pong.py:163-172 | the scoring routine keeps the game well formed |
| GameProperties.ResetWellformed | pong.py:174-180 | reset keeps the game well formed |
| GameProperties.ResetIsNewGame | pong.py:174-180 | resetting a well-formed game gives a new game in the same window, except that the hit counters carry over |
| GameProperties.ResetIdempotent | pong.py:174-180 | resetting twice gives the same game as resetting once with the second launch velocity |
| GameProperties.PlayKeepsInvariants | pong.py:182-196 | over any run of paddle moves and ticks the game stays well formed; scores and hits never fall; the scores rise by at most one per tick; the game-over flag never changes |

## Left out

- Rendering and I/O are not modelled: the pygame window, the font, the `draw` methods, the display update and `main`. They produce pixels, not state.
- The random launch direction (`random_angle`, and the trigonometric velocity in the ball's constructor and reset) is left out. Each launch is a velocity the caller supplies.
- The speed invariant `dx² + dy² == MaxSpeed²` after a launch is left out. It depends on the trigonometry that is left out.
- Floating-point rounding is not modelled. Positions and velocities are exact reals.
- The frame rate, the colours and the clock are presentation only and are left out.
- The game's `window` reference is left out. It is only used for drawing.
- Paddles.Extent: a paddle's width and height must be positive. The game only builds 20 x 100 paddles. A Python paddle of height 0 would fail with a division by zero on a hit; that case is not modelled.
