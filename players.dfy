/**
  The player (jump.py:32-57): a sprite at a fixed x that thrusts upwards
  while the fly input is held and falls under gravity otherwise. The class
  Player keeps the source's mutable fields; PlayerState is the same state
  as a value, and Moved is the specification of one call to move.
 */
module Players {
  import opened Config
  import opened Geometry

  /** A snapshot of a Player's fields. `rect` is the cached bounding box
      (image_rect), which only draw brings up to date. */
  datatype PlayerState = PlayerState(x: real, y: real, velY: real, score: nat, rect: Rect)

  /** A player as __init__ creates it at (x, y). */
  function Spawn(x: real, y: real): PlayerState {
    PlayerState(x, y, 0.0, 0, PlayerRect(x, y))
  }

  /** The player's box touches or crosses the top or the bottom edge. */
  predicate HitsEdge(y: real) {
    y <= 0.0 || y + PLAYER_SIZE >= FIELD_HEIGHT
  }

  /** One call of move: thrust overwrites the velocity, otherwise gravity
      adds to it; then the position moves by the new velocity. Nothing
      else changes. */
  function Moved(p: PlayerState, flying: bool): (r: PlayerState)
    ensures flying ==> r.velY == FLY_FORCE
    ensures !flying ==> r.velY == p.velY + GRAVITY
    ensures r.y == p.y + r.velY
    ensures r.x == p.x && r.score == p.score && r.rect == p.rect
  {
    var velY := if flying then FLY_FORCE else p.velY + GRAVITY;
    p.(velY := velY, y := p.y + velY)
  }

  /** A run of move calls, one per input in order. */
  function Fly(p: PlayerState, inputs: seq<bool>): PlayerState
    decreases |inputs|
  {
    if inputs == [] then p else Fly(Moved(p, inputs[0]), inputs[1..])
  }

  /** Running two input sequences one after the other is running their
      concatenation. */
  lemma {:induction false} FlyAppend(p: PlayerState, a: seq<bool>, b: seq<bool>)
    ensures Fly(p, a + b) == Fly(Fly(p, a), b)
    decreases |a|
  {
    if a == [] {
      assert a + b == b;
    } else {
      assert (a + b)[1..] == a[1..] + b;
      FlyAppend(Moved(p, a[0]), a[1..], b);
    }
  }

  /** Moving never changes x, the score or the cached box. */
  lemma {:induction false} FlyKeepsFixedFields(p: PlayerState, inputs: seq<bool>)
    ensures Fly(p, inputs).x == p.x
    ensures Fly(p, inputs).score == p.score
    ensures Fly(p, inputs).rect == p.rect
    decreases |inputs|
  {
    if inputs != [] {
      FlyKeepsFixedFields(Moved(p, inputs[0]), inputs[1..]);
    }
  }

  /** Falling freely for n frames: the velocity grows by GRAVITY each frame
      and the position follows the closed form y + n * v + GRAVITY * n * (n + 1) / 2. */
  lemma {:induction false} FallClosedForm(p: PlayerState, inputs: seq<bool>)
    requires forall i :: 0 <= i < |inputs| ==> !inputs[i]
    ensures Fly(p, inputs).velY == p.velY + |inputs| as real * GRAVITY
    ensures Fly(p, inputs).y
            == p.y + |inputs| as real * p.velY
               + GRAVITY * (|inputs| * (|inputs| + 1)) as real / 2.0
    decreases |inputs|
  {
    if inputs != [] {
      var q := Moved(p, false);
      var n := |inputs| - 1;
      assert !inputs[0];
      FallClosedForm(q, inputs[1..]);
      assert (n + 1) * (n + 2) == n * (n + 1) + 2 * (n + 1);
    }
  }

  /** Thrust overwrites rather than accumulates: after a frame with thrust
      followed by k frames without, the velocity is FLY_FORCE + k * GRAVITY,
      whatever happened before. */
  lemma ThrustThenFall(p: PlayerState, before: seq<bool>, after: seq<bool>)
    requires forall i :: 0 <= i < |after| ==> !after[i]
    ensures Fly(p, before + [true] + after).velY == FLY_FORCE + |after| as real * GRAVITY
  {
    FlyAppend(p, before + [true], after);
    FlyAppend(p, before, [true]);
    var q := Fly(p, before + [true]);
    assert q == Moved(Fly(p, before), true);
    FallClosedForm(q, after);
  }

  /** A player spawned at (50, 200) who falls for ten frames has velocity
      5 and stands at y = 227.5. */
  lemma TenFramesOfFalling()
    ensures Fly(Spawn(SPAWN_X, SPAWN_Y), seq(10, i => false)).velY == 5.0
    ensures Fly(Spawn(SPAWN_X, SPAWN_Y), seq(10, i => false)).y == 227.5
  {
    FallClosedForm(Spawn(SPAWN_X, SPAWN_Y), seq(10, i => false));
  }

  /** The player object. x is fixed after spawning; move changes y and the
      velocity; draw refreshes the cached box; the main loop adds to score. */
  class Player {
    var x: real
    var y: real
    var velY: real
    const width: real := PLAYER_SIZE
    const height: real := PLAYER_SIZE
    var imageRect: Rect
    var score: nat

    function State(): PlayerState
      reads this
    {
      PlayerState(x, y, velY, score, imageRect)
    }

    /** Player(x, y): at rest, with no score, the box at the spawn point. */
    constructor (x0: real, y0: real)
      ensures State() == Spawn(x0, y0)
    {
      x, y := x0, y0;
      velY := 0.0;
      imageRect := Rect(x0, y0, width, height);
      score := 0;
    }

    /** The geometric part of draw: the cached box moves to the current
      position. */
    method Draw()
      modifies this`imageRect
      ensures imageRect == PlayerRect(x, y)
      ensures State() == old(State()).(rect := PlayerRect(x, y))
    {
      imageRect := Rect(x, y, width, height);
    }

    /** move(flying): updates the velocity and y, and reports whether the
        player now touches the top or the bottom edge. */
    method Move(flying: bool) returns (hitTopOrBottom: bool)
      modifies this`velY, this`y
      ensures State() == Moved(old(State()), flying)
      ensures hitTopOrBottom <==> HitsEdge(y)
    {
      if flying {
        velY := FLY_FORCE;
      } else {
        velY := velY + GRAVITY;
      }
      y := y + velY;
      hitTopOrBottom := y <= 0.0 || y + height >= FIELD_HEIGHT;
    }
  }
}
