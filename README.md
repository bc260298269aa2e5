# JumpGame core in Dafny

A model of the per-frame game logic of a small arcade game. A player sprite
sits at a fixed x. It thrusts upwards while the fly key is held and falls
under gravity otherwise. A single obstacle column scrolls left. The column
has a 120-unit opening at a random height. Once the column leaves the left
edge it is recycled in place at the right edge, slightly faster. The player
scores at most one point per obstacle cycle. The point is certain only while
the obstacle moves less than the player's x (50) per frame. A faster
obstacle can jump over the scoring window in one frame and recycle with no
point scored. The game ends when the player touches
the top or bottom edge or overlaps the column. After that, nothing moves.

The model follows the source's imperative form. Each class is proved
against a value-level function:

- `Players.Player` keeps `x`, `y`, `velY`, the cached box `imageRect` and
  `score`. `Move` is proved against `Players.Moved`.
- `Enemies.Enemy` keeps `x`, `gapY`, `speed` and `passed`. `Move` is proved
  against `Enemies.Advance`.
- `GameLoop.Game` owns one player, one enemy and the `gameOver` flag.
  `Tick` is one pass of the main loop's game logic. It is proved against
  `GameLoop.Step`.

Runs of calls (`Players.Fly`, `Enemies.Scroll`, `GameLoop.Run`) are
recursive functions over input sequences. The lemmas about those runs state
the game's invariants.

Two inputs the source takes from the outside world are parameters. `flying`
is the result of keyboard event polling. `roll` is the value
`random.randint(80, MAX_HEIGHT - GAP_SIZE - 80)` returns, so any integer in
[80, 200].

The player box used in the collision test is the one `draw` refreshed at the
start of the frame, before `move` ran. The obstacle's rectangles are also
taken before it moves. `Step` and `Tick` keep both orders exactly. The
overlap test uses the box from the start of the frame; the edge test uses the
position after the move.

Positions, velocities and speeds are exact `real`s. The gap offset and the
screen sizes are `int`s, as in the source. Collision is strict overlap of
the two rectangles' interiors.

## Model

| member | source | states |
|---|---|---|
| `Geometry.ObstacleRects` | jump.py:67-70 | both parts are 20 wide at x; the upper part runs from y = 0 to gapY; the opening between the parts is exactly GAP_SIZE tall; the lower part ends at the bottom of the field |
| `Geometry.ColumnCoversAllButOpening` | jump.py:68-69 | inside the column's width and the field's height, a point is solid exactly when it lies outside [gapY, gapY + GAP_SIZE); the two parts never overlap |
| `Geometry.HitsObstacleIff` | jump.py:158 | a player box hits the column exactly when the two overlap horizontally and the box reaches above the opening or below it, within the field |
| `Geometry.NoHitInsideOpening` | jump.py:158 | a player box that lies vertically within the opening never hits the column |
| `Players.Moved` | jump.py:46-52 | with thrust, the velocity becomes FLY_FORCE whatever it was; without, it grows by GRAVITY; y grows by the new velocity; x, score and the cached box do not change |
| `Players.FlyKeepsFixedFields` | jump.py:46-52 | no run of move calls changes x, the score or the cached box |
| `Players.FallClosedForm` | jump.py:49-52 | after n frames without thrust the velocity is v + n * GRAVITY and y is y0 + n * v + GRAVITY * n * (n + 1) / 2 |
| `Players.ThrustThenFall` | jump.py:47-52 | after one thrust frame and k frames without, the velocity is FLY_FORCE + k * GRAVITY, whatever came before |
| `Players.TenFramesOfFalling` | jump.py:46-52 | a player spawned at (50, 200) who falls for ten frames has velocity 5 and y = 227.5 |
| `Players.Player.constructor` | jump.py:33-40 | a new player is at (x, y) with zero velocity, zero score and its box at (x, y), 35 by 35 |
| `Players.Player.Draw` | jump.py:42-43 | the cached box moves to the current position; nothing else changes |
| `Players.Player.Move` | jump.py:46-57 | the new state is `Moved` of the old one; the result is true exactly when y <= 0 or y + 35 >= MAX_HEIGHT after the move |
| `Enemies.Advance` | jump.py:72-84 | when x - speed <= -20: x = MAX_WIDTH, the gap is the new draw, passed is false, and the speed grows by 0.1 plus 0.01 if the score is at least 4; otherwise x = x - speed, the gap and passed are unchanged, and the speed grows by 0.01 only if the score is at least 4; the speed never drops; an in-range gap stays in range |
| `Enemies.SpeedLedger` | jump.py:74-83 | over any run, the speed grows by exactly 0.01 per frame whose score is at least 4 plus 0.1 per recycle |
| `Enemies.SpeedNeverDecreases` | jump.py:76-83 | over any run of move calls the speed never decreases |
| `Enemies.ScrollKeepsGapInRange` | jump.py:82 | if every random draw is in [80, 200], the gap offset stays in [80, 200] over any run |
| `Enemies.HundredRampedTurnsOneRecycle` | jump.py:76-83 | a hundred frames with score at least 4 and one recycle make the obstacle exactly 1.1 faster |
| `Enemies.Enemy.constructor` | jump.py:61-65 | a new obstacle is at x = MAX_WIDTH with the drawn gap, speed 5 and passed false |
| `Enemies.Enemy.Draw` | jump.py:67-70 | returns the lower and the upper part of the column, as `ObstacleRects` gives them, without changing the obstacle |
| `Enemies.Enemy.Move` | jump.py:72-84 | the new state is `Advance` of the old one |
| `GameLoop.Step` | jump.py:142-163 | after game over nothing changes; otherwise the cached box is the pre-move one, the physics is `Moved`, x is unchanged, the obstacle is `Advance` of the old one with passed also set when a point is scored, the score rises by one exactly when the moved obstacle is past the player and not yet passed (and passed is then set), an already-passed obstacle that does not recycle yields no point, game over is set exactly on an edge hit or an overlap of the pre-move boxes, the speed never drops, score plus the pending point grows by at most one per recycle, and the invariant is kept |
| `GameLoop.RunFrozenAfterGameOver` | jump.py:161-163 | from a game-over state any sequence of frames leaves the whole state unchanged |
| `GameLoop.GameOverIsFinal` | jump.py:158-163 | once a run has ended the game, extending the run changes nothing, the final score included |
| `GameLoop.RunKeepsInv` | jump.py:142-159 | if all draws are in range, every state a run reaches keeps the gap in [80, 200] and the speed at least 5 |
| `GameLoop.InitialSatisfiesInv` | jump.py:117-119 | a session starts with the player at (50, 200), at rest, with score 0, and the obstacle at x = 600, speed 5, not passed, game running; the invariant holds there |
| `GameLoop.RunSpeedNeverDecreases` | jump.py:146 | the obstacle's speed never decreases over a run of frames |
| `GameLoop.RunScoreBounds` | jump.py:149-151 | the score never decreases and rises by at most one per frame |
| `GameLoop.RunScorePerCycle` | jump.py:149-151 | over any run, the score plus the point still pending grows by at most the number of recycles |
| `GameLoop.NoSecondPointWithoutRecycle` | jump.py:149-151 | once the current obstacle has been scored, no further point comes until a recycle |
| `GameLoop.PhasesBeforeRecycle` | jump.py:146-151 | until the obstacle recycles, a running session is either still approaching with no point or has scored exactly one point with passed set |
| `GameLoop.OnePointPerCycle` | jump.py:146-151 | an unscored obstacle that has not yet passed the player yields exactly one point by the frame that recycles it, while the game runs and the speed stays below the player's x |
| `GameLoop.FastObstacleSkipsPoint` | jump.py:74-84 | at speed 51 an unscored obstacle jumps from x = 30 to x = -21.01 and recycles with no point and no collision |
| `GameLoop.Game.constructor` | jump.py:117-119 | a new session is `Initial` and satisfies the invariant; restarting builds a new one |
| `GameLoop.Game.Tick` | jump.py:142-159 | the new state is `Step` of the old one, and the invariant is kept |

## Left out

- Window, screen and font set-up, and loading the background and player images with the background's fallback: these are pygame I/O.
- Blitting, filling, text rendering, `display.update` and `clock.tick(FPS)` pacing: rendering and timing only, so the FPS constant is not part of the model.
- Event polling and the quit event: only its result, the `flying` argument of `Tick`, is modelled. The source ignores key events after game over, which the model's callers must do themselves.
- `draw_button` and `game_over_screen`: mouse hit testing and drawing in the game-over menu. Restart calls `main` anew; in the model that is a new `Game`, whose constructor yields the initial state. Quit ends the process.
- `pygame.Rect` truncates coordinates to integers, and `pygame.draw.rect` clips the rectangle it returns to the screen. The model uses exact real rectangles.
- colliderect rejects rectangles of zero width or height. While the gap is in [80, 200], no part of the column has zero height, so `Geometry.Collide` leaves this case out.
- IEEE floating-point rounding: the 0.5, 0.01 and 0.1 steps are exact reals in the model.
- The internals of `random.randint`: each draw is the `roll` argument, which may be any integer in [80, 200].
- Every `Move` of the obstacle receives a `roll`, but the model reads it only when the obstacle recycles, which is the only time the source draws a random number.
