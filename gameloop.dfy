/**
  The session driven by main (jump.py:116-163): one player, one obstacle and
  the game_over flag. Tick is one pass of the main loop's game logic; Step
  is its specification on values, and Run is a sequence of frames. The fly
  input arrives as a parameter (`flying`), and so does the value of the
  random draw (`roll`).
 */
module GameLoop {
  import opened Config
  import opened Geometry
  import opened Players
  import opened Enemies

  /** The whole state of a session. */
  datatype World = World(player: PlayerState, enemy: EnemyState, gameOver: bool)

  /** What one frame receives from outside: whether the fly key is held,
      and what the random draw returns should the obstacle recycle. */
  datatype Frame = Frame(flying: bool, roll: int)

  /** The state main sets up before its loop: a player at the spawn point, a
      new obstacle, and the game running. Restarting builds it anew. */
  function Initial(roll: int): World {
    World(Spawn(SPAWN_X, SPAWN_Y), Fresh(roll), false)
  }

  /** What every reachable state satisfies: the opening lies in the randint
      range and the obstacle is at least as fast as it started. */
  predicate Inv(w: World) {
    InGapRange(w.enemy.gapY) && w.enemy.speed >= INITIAL_SPEED
  }

  /** The obstacle has moved strictly past the player's left edge and has
      not been scored yet in this cycle. */
  predicate Passes(e: EnemyState, playerX: real) {
    e.x + OBSTACLE_WIDTH < playerX && !e.passed
  }

  /** The frame scores a point if, after the obstacle has moved, it passes
      the player. */
  predicate Scores(w: World, roll: int) {
    !w.gameOver && Passes(Advance(w.enemy, w.player.score, roll), w.player.x)
  }

  /** A point still to be earned in the current obstacle cycle. */
  function Pending(w: World): nat {
    if w.enemy.passed then 0 else 1
  }

  /** One frame. While the game runs, in order: the player's box is
      refreshed from the position at the start of the frame, the player
      moves, the obstacle's parts are taken from its position at the start
      of the frame, the obstacle moves, a passed obstacle scores once, and
      an edge hit or an overlap between the two pre-move boxes ends the
      game. Once the game is over nothing changes. */
  function Step(w: World, flying: bool, roll: int): (r: World)
    ensures w.gameOver ==> r == w
    ensures !w.gameOver ==> r.player.rect == PlayerRect(w.player.x, w.player.y)
    ensures !w.gameOver ==> r.player.velY == Moved(w.player, flying).velY
                            && r.player.y == w.player.y + r.player.velY
    ensures r.player.x == w.player.x
    ensures !w.gameOver ==>
              r.enemy == Advance(w.enemy, w.player.score, roll)
                         .(passed := Advance(w.enemy, w.player.score, roll).passed || Scores(w, roll))
    ensures r.player.score == w.player.score + (if Scores(w, roll) then 1 else 0)
    ensures Scores(w, roll) ==> r.enemy.passed
    ensures w.enemy.passed && !Recycles(w.enemy) ==> r.player.score == w.player.score
    ensures !w.gameOver ==>
              (r.gameOver <==> HitsEdge(r.player.y)
                               || HitsObstacle(PlayerRect(w.player.x, w.player.y), w.enemy.x, w.enemy.gapY))
    ensures r.enemy.speed >= w.enemy.speed
    ensures r.player.score + Pending(r)
            <= w.player.score + Pending(w) + (if !w.gameOver && Recycles(w.enemy) then 1 else 0)
    ensures Inv(w) && InGapRange(roll) ==> Inv(r)
  {
    if w.gameOver then w
    else
      var drawn := w.player.(rect := PlayerRect(w.player.x, w.player.y));
      var moved := Moved(drawn, flying);
      var hitTopOrBottom := HitsEdge(moved.y);
      var (bottomRect, topRect) := ObstacleRects(w.enemy.x, w.enemy.gapY);
      var advanced := Advance(w.enemy, moved.score, roll);
      var scores := Passes(advanced, moved.x);
      var player := if scores then moved.(score := moved.score + 1) else moved;
      var enemy := if scores then advanced.(passed := true) else advanced;
      World(player, enemy,
            hitTopOrBottom || Collide(drawn.rect, bottomRect) || Collide(drawn.rect, topRect))
  }

  /** A sequence of frames, in order. */
  function Run(w: World, frames: seq<Frame>): World
    decreases |frames|
  {
    if frames == [] then w else Run(Step(w, frames[0].flying, frames[0].roll), frames[1..])
  }

  /** How many frames of the run recycle the obstacle. */
  function RunRecycles(w: World, frames: seq<Frame>): nat
    decreases |frames|
  {
    if frames == [] then 0
    else (if !w.gameOver && Recycles(w.enemy) then 1 else 0)
         + RunRecycles(Step(w, frames[0].flying, frames[0].roll), frames[1..])
  }

  /** Running two frame sequences one after the other is running their
      concatenation. */
  lemma {:induction false} RunAppend(w: World, a: seq<Frame>, b: seq<Frame>)
    ensures Run(w, a + b) == Run(Run(w, a), b)
    decreases |a|
  {
    if a == [] {
      assert a + b == b;
    } else {
      assert (a + b)[1..] == a[1..] + b;
      RunAppend(Step(w, a[0].flying, a[0].roll), a[1..], b);
    }
  }

  /** Game over is absorbing: later frames change nothing at all. */
  lemma {:induction false} RunFrozenAfterGameOver(w: World, frames: seq<Frame>)
    requires w.gameOver
    ensures Run(w, frames) == w
    decreases |frames|
  {
    if frames != [] {
      RunFrozenAfterGameOver(Step(w, frames[0].flying, frames[0].roll), frames[1..]);
    }
  }

  /** Once a run has ended the game, any further frames leave the state,
      the final score included, exactly as it was. */
  lemma GameOverIsFinal(w: World, a: seq<Frame>, b: seq<Frame>)
    requires Run(w, a).gameOver
    ensures Run(w, a + b) == Run(w, a)
  {
    RunAppend(w, a, b);
    RunFrozenAfterGameOver(Run(w, a), b);
  }

  /** Inv holds in the initial state and in every state a run reaches, as
      long as every random draw comes from the randint range. */
  lemma {:induction false} RunKeepsInv(w: World, frames: seq<Frame>)
    requires Inv(w)
    requires forall i :: 0 <= i < |frames| ==> InGapRange(frames[i].roll)
    ensures Inv(Run(w, frames))
    decreases |frames|
  {
    if frames != [] {
      RunKeepsInv(Step(w, frames[0].flying, frames[0].roll), frames[1..]);
    }
  }

  /** The state main sets up: the player at (50, 200) at rest with no score,
      the obstacle at the right edge at speed 5, the game running. */
  lemma InitialSatisfiesInv(roll: int)
    requires InGapRange(roll)
    ensures Inv(Initial(roll))
    ensures Initial(roll).player == PlayerState(50.0, 200.0, 0.0, 0, Rect(50.0, 200.0, 35.0, 35.0))
    ensures Initial(roll).enemy == EnemyState(600.0, roll, 5.0, false)
    ensures !Initial(roll).gameOver
  {
  }

  /** The obstacle's speed never decreases over a run. */
  lemma {:induction false} RunSpeedNeverDecreases(w: World, frames: seq<Frame>)
    ensures Run(w, frames).enemy.speed >= w.enemy.speed
    decreases |frames|
  {
    if frames != [] {
      RunSpeedNeverDecreases(Step(w, frames[0].flying, frames[0].roll), frames[1..]);
    }
  }

  /** The score never decreases and rises by at most one per frame. */
  lemma {:induction false} RunScoreBounds(w: World, frames: seq<Frame>)
    ensures w.player.score <= Run(w, frames).player.score <= w.player.score + |frames|
    decreases |frames|
  {
    if frames != [] {
      RunScoreBounds(Step(w, frames[0].flying, frames[0].roll), frames[1..]);
    }
  }

  /** Scoring is paid for by obstacle cycles: the score plus the point still
      pending in the current cycle grows by at most one per recycle. */
  lemma {:induction false} RunScorePerCycle(w: World, frames: seq<Frame>)
    ensures Run(w, frames).player.score + Pending(Run(w, frames))
            <= w.player.score + Pending(w) + RunRecycles(w, frames)
    decreases |frames|
  {
    if frames != [] {
      RunScorePerCycle(Step(w, frames[0].flying, frames[0].roll), frames[1..]);
    }
  }

  /** Once the current obstacle has been scored, the score cannot rise
      again until a recycle clears the passed flag. */
  lemma NoSecondPointWithoutRecycle(w: World, frames: seq<Frame>)
    requires w.enemy.passed && RunRecycles(w, frames) == 0
    ensures Run(w, frames).player.score == w.player.score
  {
    RunScorePerCycle(w, frames);
    RunScoreBounds(w, frames);
  }

  /** A state that has ended the game stays ended: a run that is still going
      started from a running state. */
  lemma GameOverPersists(w: World, frames: seq<Frame>)
    ensures w.gameOver ==> Run(w, frames).gameOver
  {
    if w.gameOver {
      RunFrozenAfterGameOver(w, frames);
    }
  }

  /** The obstacle of the current cycle has not yet moved past the player's
      left edge, and has not been scored. */
  predicate Approaching(w: World) {
    !w.enemy.passed && w.enemy.x + OBSTACLE_WIDTH >= w.player.x
  }

  /** Within one obstacle cycle, before the recycle, the session is in one of
      two phases: the obstacle is still approaching with no point scored, or
      it has been scored once. */
  lemma {:induction false} PhasesBeforeRecycle(w: World, frames: seq<Frame>, base: nat)
    requires !Run(w, frames).gameOver
    requires RunRecycles(w, frames) == 0
    requires (Approaching(w) && w.player.score == base) || (w.enemy.passed && w.player.score == base + 1)
    ensures Run(w, frames).player.x == w.player.x
    ensures (Approaching(Run(w, frames)) && Run(w, frames).player.score == base)
            || (Run(w, frames).enemy.passed && Run(w, frames).player.score == base + 1)
    decreases |frames|
  {
    if frames != [] {
      GameOverPersists(w, frames);
      var w1 := Step(w, frames[0].flying, frames[0].roll);
      assert Run(w, frames) == Run(w1, frames[1..]);
      assert !Recycles(w.enemy);
      PhasesBeforeRecycle(w1, frames[1..], base);
    }
  }

  /** The other half of once per cycle: an obstacle that starts its approach
      unscored yields exactly one point by the frame that recycles it, as
      long as the game keeps running and the obstacle moves less than the
      player's x per frame (so it cannot jump over the scoring window
      between RECYCLE_X and the player's left edge in one frame). */
  lemma OnePointPerCycle(w: World, frames: seq<Frame>, last: Frame)
    requires Approaching(w)
    requires w.player.x <= FIELD_WIDTH + OBSTACLE_WIDTH
    requires RunRecycles(w, frames) == 0 && Recycles(Run(w, frames).enemy)
    requires Run(w, frames).enemy.speed < w.player.x
    requires !Run(w, frames + [last]).gameOver
    ensures Run(w, frames + [last]).player.score == w.player.score + 1
  {
    var u := Run(w, frames);
    RunAppend(w, frames, [last]);
    assert Run(u, [last]) == Step(u, last.flying, last.roll);
    GameOverPersists(u, [last]);
    PhasesBeforeRecycle(w, frames, w.player.score);
    assert !Approaching(u);
  }

  /** Above that speed the point can be missed: an unscored obstacle at
      speed 51 jumps from x = 30, where it does not yet count as passed, to
      x = -21.01, where it is recycled, so the cycle ends with no point and
      no collision. */
  lemma FastObstacleSkipsPoint()
    ensures var w := World(Spawn(SPAWN_X, SPAWN_Y).(score := 4), EnemyState(81.0, 150, 51.0, false), false);
            var frames := [Frame(false, 80), Frame(false, 80)];
            Approaching(w) && RunRecycles(w, frames) == 1
            && Run(w, frames) == World(PlayerState(50.0, 201.5, 1.0, 4, PlayerRect(50.0, 200.5)),
                                       EnemyState(600.0, 80, 51.12, false), false)
  {
    var w := World(Spawn(SPAWN_X, SPAWN_Y).(score := 4), EnemyState(81.0, 150, 51.0, false), false);
    var w1 := Step(w, false, 80);
    assert w1 == World(PlayerState(50.0, 200.5, 0.5, 4, PlayerRect(50.0, 200.0)),
                       EnemyState(30.0, 150, 51.01, false), false);
    var w2 := Step(w1, false, 80);
    assert w2 == World(PlayerState(50.0, 201.5, 1.0, 4, PlayerRect(50.0, 200.5)),
                       EnemyState(600.0, 80, 51.12, false), false);
    var frames := [Frame(false, 80), Frame(false, 80)];
    assert Run(w, frames) == Run(w1, frames[1..]);
    assert Run(w1, frames[1..]) == Run(w2, []);
    assert !Recycles(w.enemy) && Recycles(w1.enemy);
    assert RunRecycles(w, frames) == RunRecycles(w1, frames[1..]);
    assert RunRecycles(w1, frames[1..]) == 1 + RunRecycles(w2, []);
  }

  /** The session object: main's local player, enemy and game_over. */
  class Game {
    const player: Player
    const enemy: Enemy
    var gameOver: bool

    function State(): World
      reads this, player, enemy
    {
      World(player.State(), enemy.State(), gameOver)
    }

    ghost predicate Valid()
      reads this, player, enemy
    {
      Inv(State())
    }

    /** The set-up at the start of main, which Restart repeats. */
    constructor (roll: int)
      requires InGapRange(roll)
      ensures Valid() && fresh(player) && fresh(enemy)
      ensures State() == Initial(roll)
    {
      player := new Player(SPAWN_X, SPAWN_Y);
      enemy := new Enemy(roll);
      gameOver := false;
    }

    /** The game logic of one pass of the main loop. */
    method Tick(flying: bool, roll: int)
      requires Valid() && InGapRange(roll)
      modifies this, player, enemy
      ensures Valid()
      ensures State() == Step(old(State()), flying, roll)
    {
      if !gameOver {
        player.Draw();
        var hitTopOrBottom := player.Move(flying);
        var bottomRect, topRect := enemy.Draw();
        enemy.Move(player.score, roll);
        if enemy.x + OBSTACLE_WIDTH < player.x && !enemy.passed {
          player.score := player.score + 1;
          enemy.passed := true;
        }
        if hitTopOrBottom || Collide(player.imageRect, bottomRect) || Collide(player.imageRect, topRect) {
          gameOver := true;
        }
      }
    }
  }
}
