/**
  The obstacle (jump.py:60-84): one column with an opening that scrolls
  left and is recycled in place at the right edge once it has left the
  screen. The class Enemy keeps the source's mutable fields; EnemyState is
  the same state as a value, and Advance is the specification of one call
  to move. The random gap offset is the parameter `roll`, which may be any
  value random.randint could return.
 */
module Enemies {
  import opened Config
  import opened Geometry

  /** A snapshot of an Enemy's fields. */
  datatype EnemyState = EnemyState(x: real, gapY: int, speed: real, passed: bool)

  /** The obstacle as __init__ creates it: at the right edge, at the
      initial speed, not yet passed. */
  function Fresh(roll: int): EnemyState {
    EnemyState(FIELD_WIDTH, roll, INITIAL_SPEED, false)
  }

  /** The speed ramp move applies for a given player score. */
  function Ramp(playerScore: int): real {
    if playerScore >= RAMP_SCORE then SPEED_RAMP else 0.0
  }

  /** This call of move takes the obstacle past the left threshold. */
  predicate Recycles(e: EnemyState) {
    e.x - e.speed <= RECYCLE_X
  }

  /** One call of move(player_score): scroll left by the current speed,
      ramp the speed once the score has reached RAMP_SCORE, and recycle the
      obstacle when it has reached the left threshold. */
  function Advance(e: EnemyState, playerScore: int, roll: int): (r: EnemyState)
    ensures Recycles(e) ==>
              r.x == FIELD_WIDTH && r.gapY == roll && !r.passed
              && r.speed == e.speed + Ramp(playerScore) + RECYCLE_BONUS
    ensures !Recycles(e) ==>
              r.x == e.x - e.speed && r.gapY == e.gapY && r.passed == e.passed
              && r.speed == e.speed + Ramp(playerScore)
    ensures r.speed >= e.speed
    ensures InGapRange(e.gapY) && InGapRange(roll) ==> InGapRange(r.gapY)
  {
    var x := e.x - e.speed;
    var speed := if playerScore >= RAMP_SCORE then e.speed + SPEED_RAMP else e.speed;
    if x <= RECYCLE_X then EnemyState(FIELD_WIDTH, roll, speed + RECYCLE_BONUS, false)
    else e.(x := x, speed := speed)
  }

  /** The arguments of one call of move: the player's score and the value
      the random draw would give if this call recycles. */
  datatype Turn = Turn(playerScore: int, roll: int)

  /** A run of move calls, one per turn in order. */
  function Scroll(e: EnemyState, turns: seq<Turn>): EnemyState
    decreases |turns|
  {
    if turns == [] then e else Scroll(Advance(e, turns[0].playerScore, turns[0].roll), turns[1..])
  }

  /** How many of the turns recycle the obstacle. */
  function RecycleCount(e: EnemyState, turns: seq<Turn>): nat
    decreases |turns|
  {
    if turns == [] then 0
    else (if Recycles(e) then 1 else 0)
         + RecycleCount(Advance(e, turns[0].playerScore, turns[0].roll), turns[1..])
  }

  /** How many of the turns have a score at or above RAMP_SCORE. */
  function RampCount(turns: seq<Turn>): nat
    decreases |turns|
  {
    if turns == [] then 0
    else (if turns[0].playerScore >= RAMP_SCORE then 1 else 0) + RampCount(turns[1..])
  }

  /** The speed grows from exactly two sources: SPEED_RAMP for every turn
      whose score has reached RAMP_SCORE, and RECYCLE_BONUS for every
      recycle. */
  lemma {:induction false} SpeedLedger(e: EnemyState, turns: seq<Turn>)
    ensures Scroll(e, turns).speed
            == e.speed + SPEED_RAMP * RampCount(turns) as real
               + RECYCLE_BONUS * RecycleCount(e, turns) as real
    decreases |turns|
  {
    if turns != [] {
      SpeedLedger(Advance(e, turns[0].playerScore, turns[0].roll), turns[1..]);
    }
  }

  /** The speed never decreases over any run of move calls. */
  lemma {:induction false} SpeedNeverDecreases(e: EnemyState, turns: seq<Turn>)
    ensures Scroll(e, turns).speed >= e.speed
  {
    SpeedLedger(e, turns);
  }

  /** Every recycle draws the new offset from the randint range, so an
      offset in range stays in range. */
  lemma {:induction false} ScrollKeepsGapInRange(e: EnemyState, turns: seq<Turn>)
    requires InGapRange(e.gapY)
    requires forall i :: 0 <= i < |turns| ==> InGapRange(turns[i].roll)
    ensures InGapRange(Scroll(e, turns).gapY)
    decreases |turns|
  {
    if turns != [] {
      ScrollKeepsGapInRange(Advance(e, turns[0].playerScore, turns[0].roll), turns[1..]);
    }
  }

  /** When every turn's score is at least RAMP_SCORE, every turn ramps. */
  lemma {:induction false} AllTurnsRamp(turns: seq<Turn>)
    requires forall i :: 0 <= i < |turns| ==> turns[i].playerScore >= RAMP_SCORE
    ensures RampCount(turns) == |turns|
    decreases |turns|
  {
    if turns != [] {
      AllTurnsRamp(turns[1..]);
    }
  }

  /** A hundred turns at a score of at least RAMP_SCORE with one recycle
      among them make the obstacle 1.1 faster: 100 ramps of 0.01 and one
      bonus of 0.1. */
  lemma HundredRampedTurnsOneRecycle(e: EnemyState, turns: seq<Turn>)
    requires |turns| == 100
    requires forall i :: 0 <= i < |turns| ==> turns[i].playerScore >= RAMP_SCORE
    requires RecycleCount(e, turns) == 1
    ensures Scroll(e, turns).speed == e.speed + 1.1
  {
    SpeedLedger(e, turns);
    AllTurnsRamp(turns);
  }

  /** The obstacle object, recycled in place for the whole session. */
  class Enemy {
    var x: real
    var gapY: int
    var speed: real
    var passed: bool

    function State(): EnemyState
      reads this
    {
      EnemyState(x, gapY, speed, passed)
    }

    /** Enemy(): at the right edge with the opening at `roll`. */
    constructor (roll: int)
      requires InGapRange(roll)
      ensures State() == Fresh(roll)
    {
      x := FIELD_WIDTH;
      gapY := roll;
      speed := INITIAL_SPEED;
      passed := false;
    }

    /** The geometric part of draw: the two solid parts of the column, the
        one below the opening first. */
    method Draw() returns (bottomRect: Rect, topRect: Rect)
      ensures (bottomRect, topRect) == ObstacleRects(x, gapY)
    {
      bottomRect := Rect(x, (gapY + GAP_SIZE) as real, OBSTACLE_WIDTH, FIELD_HEIGHT - (gapY + GAP_SIZE) as real);
      topRect := Rect(x, 0.0, OBSTACLE_WIDTH, gapY as real);
    }

    /** move(player_score), with `roll` standing for the random draw. */
    method Move(playerScore: int, roll: int)
      requires InGapRange(roll)
      modifies this
      ensures State() == Advance(old(State()), playerScore, roll)
    {
      x := x - speed;
      if playerScore >= RAMP_SCORE {
        speed := speed + SPEED_RAMP;
      }
      if x <= RECYCLE_X {
        x := FIELD_WIDTH;
        gapY := roll;
        speed := speed + RECYCLE_BONUS;
        passed := false;
      }
    }
  }
}
