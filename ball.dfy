// The ball of the first version of the game (EP1/pong_incompleto/Ball.java):
// a position, a size, a base speed and a signed velocity. Its motion and its
// responses to walls and paddles are pure functions over the value `Body`;
// the class `Ball` holds the same state in fields and its methods are
// specified by those functions. The second version's balls (managed by
// BallManager, decorated by FxBall) reuse the same functions.
module Ball {
  import opened JavaNum

  /** `java.awt.Color`, by its components. */
  datatype Color = Rgb(red: int, green: int, blue: int)

  /** `Color.RED`, the marker colour of duplicate balls. */
  const RED: Color := Rgb(255, 0, 0)

  /** The geometry a wall, paddle or target exposes: centre, width and height. */
  datatype Rect = Rect(cx: real, cy: real, width: real, height: real)

  /** A wall of the court; its id is "Left", "Right", "Top" or "Bottom". */
  datatype Wall = Wall(id: string, bounds: Rect)

  /** A paddle; its id is "Player 1" or "Player 2". */
  datatype Player = Player(id: string, bounds: Rect)

  /** The state of one ball. */
  datatype Body = Body(cx: real, cy: real, width: real, height: real, color: Color,
                       speed: real, speedX: real, speedY: real)

  /** The velocity the constructor picks for the random draw `k` in 0..3. */
  function InitialVelocity(speed: real, k: int): (v: (real, real))
    requires 0 <= k < 4
    ensures Abs(v.0) == Abs(speed) && Abs(v.1) == Abs(speed)
  {
    if k == 0 then (Abs(speed), Abs(speed))
    else if k == 1 then (-Abs(speed), -Abs(speed))
    else if k == 2 then (-Abs(speed), Abs(speed))
    else (Abs(speed), -Abs(speed))
  }

  /** For a non-zero speed, the four draws give four different diagonals. */
  lemma InitialVelocityInjective(speed: real, j: int, k: int)
    requires speed != 0.0 && 0 <= j < 4 && 0 <= k < 4
    ensures InitialVelocity(speed, j) == InitialVelocity(speed, k) <==> j == k
  {
  }

  /** Every one of the four diagonals is the outcome of some draw. */
  lemma InitialVelocityCovers(speed: real, right: bool, down: bool)
    ensures exists k :: (0 <= k < 4 &&
      InitialVelocity(speed, k) == (if right then Abs(speed) else -Abs(speed),
                                    if down then Abs(speed) else -Abs(speed)))
  {
    var k := if right && down then 0 else if !right && !down then 1 else if !right then 2 else 3;
    assert InitialVelocity(speed, k).0 == if right then Abs(speed) else -Abs(speed);
  }

  /**
   * The ball built from an explicit unit direction (ux, uy), as the
   * second version's ball classes are: velocity = speed * direction.
   */
  function Launch(cx: real, cy: real, width: real, height: real, color: Color,
                  speed: real, ux: real, uy: real): (b: Body)
    ensures b.cx == cx && b.cy == cy && b.width == width && b.height == height
    ensures b.color == color && b.speed == speed
    ensures b.speedX * b.speedX + b.speedY * b.speedY == speed * speed * (ux * ux + uy * uy)
  {
    Body(cx, cy, width, height, color, speed, speed * ux, speed * uy)
  }

  /** One update: the centre moves by the velocity times `delta / 2` in `long` arithmetic. */
  function Advance(b: Body, delta: int): Body
  {
    Body(b.cx + b.speedX * (HalfOf(delta) as real), b.cy + b.speedY * (HalfOf(delta) as real),
         b.width, b.height, b.color, b.speed, b.speedX, b.speedY)
  }

  /** `Advance` unfolded as a record update, a proof step for the lemmas below. */
  lemma AdvanceByHalf(b: Body, delta: int)
    ensures Advance(b, delta) == b.(cx := b.cx + b.speedX * (HalfOf(delta) as real),
                                    cy := b.cy + b.speedY * (HalfOf(delta) as real))
  {
    var h := HalfOf(delta) as real;
    var a := Advance(b, delta);
    assert a.cx == b.cx + b.speedX * h && a.cy == b.cy + b.speedY * h;
    assert a.width == b.width && a.height == b.height && a.color == b.color;
    assert a.speed == b.speed && a.speedX == b.speedX && a.speedY == b.speedY;
  }

  /** `setSpeed`: the base speed is replaced and the velocity left alone. */
  function SetSpeed(b: Body, v: real): Body
  {
    b.(speed := v)
  }

  /** The response to a paddle: the x velocity is forced toward the opponent. */
  function OnPlayer(b: Body, playerId: string): Body
  {
    if playerId == "Player 1" then b.(speedX := Abs(b.speed))
    else if playerId == "Player 2" then b.(speedX := -Abs(b.speed))
    else b
  }

  /** The response to a wall: the velocity component across it is forced away from it. */
  function OnWall(b: Body, wallId: string): Body
  {
    if wallId == "Left" then b.(speedX := Abs(b.speed))
    else if wallId == "Right" then b.(speedX := -Abs(b.speed))
    else if wallId == "Top" then b.(speedY := Abs(b.speed))
    else if wallId == "Bottom" then b.(speedY := -Abs(b.speed))
    else b
  }

  /** The rectangle's four bounds, each cast to `int`: (minX, maxX, minY, maxY). */
  function IntBounds(r: Rect): (int, int, int, int)
  {
    (IntCast(r.cx - r.width / 2.0), IntCast(r.cx + r.width / 2.0),
     IntCast(r.cy - r.height / 2.0), IntCast(r.cy + r.height / 2.0))
  }

  /** The collision test: the centre lies strictly inside the int-cast bounds. */
  predicate Inside(b: Body, r: Rect)
  {
    var (minX, maxX, minY, maxY) := IntBounds(r);
    b.cx > minX as real && b.cx < maxX as real && b.cy > minY as real && b.cy < maxY as real
  }

  /** The geometric reference: the centre lies strictly inside the rectangle grown by `margin` on each side. */
  predicate InsideBy(b: Body, r: Rect, margin: real)
  {
    r.cx - r.width / 2.0 - margin < b.cx < r.cx + r.width / 2.0 + margin &&
    r.cy - r.height / 2.0 - margin < b.cy < r.cy + r.height / 2.0 + margin
  }

  predicate InIntRange(x: real) { INT_MIN as real - 1.0 < x < INT_MAX as real + 1.0 }

  predicate BoundsInIntRange(r: Rect)
  {
    InIntRange(r.cx - r.width / 2.0) && InIntRange(r.cx + r.width / 2.0) &&
    InIntRange(r.cy - r.height / 2.0) && InIntRange(r.cy + r.height / 2.0)
  }

  predicate Integral(x: real) { x == x.Floor as real }

  /**
   * Casting the bounds to `int` moves each by less than one pixel: the test
   * holds for a centre at least one pixel inside the rectangle, and only for
   * a centre less than one pixel outside it.
   */
  lemma InsideApproximatesRect(b: Body, r: Rect)
    requires BoundsInIntRange(r)
    ensures InsideBy(b, r, -1.0) ==> Inside(b, r)
    ensures Inside(b, r) ==> InsideBy(b, r, 1.0)
  {
  }

  /** With whole-number bounds the cast changes nothing: the test is the exact strict interior. */
  lemma InsideExactOnIntegralBounds(b: Body, r: Rect)
    requires BoundsInIntRange(r)
    requires Integral(r.cx - r.width / 2.0) && Integral(r.cx + r.width / 2.0)
    requires Integral(r.cy - r.height / 2.0) && Integral(r.cy + r.height / 2.0)
    ensures Inside(b, r) <==> InsideBy(b, r, 0.0)
  {
    IntCastOfIntegral(r.cx - r.width / 2.0);
    IntCastOfIntegral(r.cx + r.width / 2.0);
    IntCastOfIntegral(r.cy - r.height / 2.0);
    IntCastOfIntegral(r.cy + r.height / 2.0);
  }

  lemma IntCastOfIntegral(x: real)
    requires InIntRange(x) && Integral(x)
    ensures IntCast(x) as real == x
  {
    var k, n := x.Floor, IntCast(x);
    assert x == k as real;
    assert Abs(x - n as real) < 1.0;
    assert x - n as real == (k - n) as real;
    assert -1 < k - n < 1;
  }

  /** `checkCollision(Wall)`'s effect: the wall response if the centre is inside, otherwise nothing. */
  function CollideWall(b: Body, w: Wall): Body
  {
    if Inside(b, w.bounds) then OnWall(b, w.id) else b
  }

  /** `checkCollision(Player)`'s effect: the paddle response if the centre is inside, otherwise nothing. */
  function CollidePlayer(b: Body, p: Player): Body
  {
    if Inside(b, p.bounds) then OnPlayer(b, p.id) else b
  }

  /** Each velocity component has the magnitude of the base speed. */
  predicate Diagonal(b: Body)
  {
    Abs(b.speedX) == Abs(b.speed) && Abs(b.speedY) == Abs(b.speed)
  }

  /** Motion, collision responses and collision tests keep the velocity diagonal and the speed. */
  lemma DiagonalPreserved(b: Body, delta: int, wallId: string, playerId: string, w: Wall, p: Player)
    requires Diagonal(b)
    ensures Diagonal(Advance(b, delta)) && Advance(b, delta).speed == b.speed
    ensures Diagonal(OnWall(b, wallId)) && OnWall(b, wallId).speed == b.speed
    ensures Diagonal(OnPlayer(b, playerId)) && OnPlayer(b, playerId).speed == b.speed
    ensures Diagonal(CollideWall(b, w)) && Diagonal(CollidePlayer(b, p))
  {
  }

  /** Responses only change the velocity: position, size, colour and speed stay. */
  lemma ResponsesKeepPlace(b: Body, id: string)
    ensures OnWall(b, id).(speedX := b.speedX, speedY := b.speedY) == b
    ensures OnPlayer(b, id).(speedX := b.speedX) == b
  {
  }

  /** A wall forces a fixed velocity: the incoming velocity does not matter, so hitting twice is hitting once. */
  lemma OnWallCanonical(b: Body, wallId: string, vx: real, vy: real)
    ensures wallId == "Left" || wallId == "Right" ==> OnWall(b.(speedX := vx), wallId) == OnWall(b, wallId)
    ensures wallId == "Top" || wallId == "Bottom" ==> OnWall(b.(speedY := vy), wallId) == OnWall(b, wallId)
    ensures OnWall(OnWall(b, wallId), wallId) == OnWall(b, wallId)
    ensures wallId == "Left" ==> OnWall(b.(speedX := vx, speedY := vy), wallId).speedX == Abs(b.speed)
  {
  }

  /** A paddle forces a fixed x velocity; a second hit changes nothing. */
  lemma OnPlayerCanonical(b: Body, playerId: string, vx: real)
    ensures OnPlayer(OnPlayer(b, playerId), playerId) == OnPlayer(b, playerId)
    ensures playerId == "Player 1" || playerId == "Player 2" ==>
      OnPlayer(b.(speedX := vx), playerId) == OnPlayer(b, playerId)
  {
  }

  /** The collision test depends on the position only, so a second check with no motion in between repeats the first. */
  lemma CollideIdempotent(b: Body, w: Wall, p: Player)
    ensures Inside(CollideWall(b, w), w.bounds) == Inside(b, w.bounds)
    ensures CollideWall(CollideWall(b, w), w) == CollideWall(b, w)
    ensures Inside(CollidePlayer(b, p), p.bounds) == Inside(b, p.bounds)
    ensures CollidePlayer(CollidePlayer(b, p), p) == CollidePlayer(b, p)
  {
  }

  /** A one-millisecond update does not move the ball: `1 / 2` is 0 in `long` arithmetic. */
  lemma AdvanceOddRemainderLost(b: Body, k: int)
    requires k >= 0
    ensures Advance(b, 2 * k + 1) == Advance(b, 2 * k)
    ensures Advance(b, 1) == b && Advance(b, -1) == b
  {
    HalfOfDouble(k);
    var odd, even := 2 * k + 1, 2 * k;
    assert HalfOf(odd) == HalfOf(even);
    AdvanceByHalf(b, odd);
    AdvanceByHalf(b, even);
    assert HalfOf(1) == 0 && HalfOf(-1) == 0;
    AdvanceByHalf(b, 1);
    AdvanceByHalf(b, -1);
  }

  /** In `long` arithmetic `2k / 2` and `(2k + 1) / 2` are both `k` for `k >= 0`. */
  lemma HalfOfDouble(k: int)
    requires k >= 0
    ensures HalfOf(2 * k) == k && HalfOf(2 * k + 1) == k
  {
    assert (2 * k) / 2 == k;
    assert (2 * k + 1) / 2 == k;
  }

  /** Two updates with even deltas move the ball as one update with their sum. */
  lemma AdvanceEvenAdditive(b: Body, d1: int, d2: int)
    requires d1 % 2 == 0 && d2 % 2 == 0
    ensures Advance(Advance(b, d1), d2) == Advance(b, d1 + d2)
  {
    var h1, h2 := HalfOf(d1), HalfOf(d2);
    assert d1 == 2 * (d1 / 2) && d2 == 2 * (d2 / 2);
    assert d1 == 2 * h1 && d2 == 2 * h2;
    var d := d1 + d2;
    assert HalfOf(d) == h1 + h2;
    var r1, r2 := h1 as real, h2 as real;
    assert HalfOf(d) as real == r1 + r2;
    var a1 := Advance(b, d1);
    AdvanceByHalf(b, d1);
    AdvanceByHalf(a1, d2);
    AdvanceByHalf(b, d);
    assert b.speedX * (r1 + r2) == b.speedX * r1 + b.speedX * r2;
    assert b.speedY * (r1 + r2) == b.speedY * r1 + b.speedY * r2;
    var moved := b.(cx := b.cx + b.speedX * (r1 + r2), cy := b.cy + b.speedY * (r1 + r2));
    assert Advance(a1, d2) == moved;
    assert Advance(b, d) == moved;
  }

  /** Two one-millisecond updates do not add up to one two-millisecond update when the ball is moving. */
  lemma AdvanceNotAdditive(b: Body)
    requires b.speedX != 0.0
    ensures Advance(Advance(b, 1), 1) != Advance(b, 2)
  {
    assert Advance(b, 2).cx == b.cx + b.speedX;
  }

  /** A ball at (100, 100) moving right at 0.5 px/ms goes to (102.5, 100) in a 10 ms update. */
  lemma AdvanceExample()
    ensures Advance(Launch(100.0, 100.0, 10.0, 10.0, RED, 0.5, 1.0, 0.0), 10).cx == 102.5
    ensures Advance(Launch(100.0, 100.0, 10.0, 10.0, RED, 0.5, 1.0, 0.0), 10).cy == 100.0
  {
  }

  class Ball {
    var cx: real
    var cy: real
    var width: real
    var height: real
    var color: Color
    var speed: real
    var speedX: real
    var speedY: real

    function State(): Body
      reads this
    {
      Body(cx, cy, width, height, color, speed, speedX, speedY)
    }

    /** The object invariant: the velocity is one of the four diagonals of the speed. */
    ghost predicate Valid()
      reads this
    {
      Diagonal(State())
    }

    /** Stores the arguments and picks a diagonal from the random draw `randomNum` in 0..3. */
    constructor (cx: real, cy: real, width: real, height: real, color: Color, speed: real, randomNum: int)
      requires 0 <= randomNum < 4
      ensures Valid()
      ensures State() == Body(cx, cy, width, height, color, speed,
                              InitialVelocity(speed, randomNum).0, InitialVelocity(speed, randomNum).1)
    {
      this.cx := cx;
      this.cy := cy;
      this.width := width;
      this.height := height;
      this.color := color;
      this.speed := speed;
      if randomNum == 0 {
        speedX := Abs(speed);
        speedY := Abs(speed);
      } else if randomNum == 1 {
        speedX := -Abs(speed);
        speedY := -Abs(speed);
      } else if randomNum == 2 {
        speedX := -Abs(speed);
        speedY := Abs(speed);
      } else {
        speedX := Abs(speed);
        speedY := -Abs(speed);
      }
    }

    method Update(delta: int)
      requires Valid() && IsLong(delta)
      modifies this
      ensures Valid()
      ensures State() == Advance(old(State()), delta)
    {
      ghost var before := State();
      AdvanceByHalf(before, delta);
      var h := HalfOf(delta) as real;
      cx := cx + speedX * h;
      cy := cy + speedY * h;
      assert State() == before.(cx := cx, cy := cy);
    }

    method OnPlayerCollision(playerId: string)
      requires Valid()
      modifies this
      ensures Valid()
      ensures State() == OnPlayer(old(State()), playerId)
    {
      if playerId == "Player 1" {
        speedX := Abs(speed);
      } else if playerId == "Player 2" {
        speedX := -Abs(speed);
      }
    }

    method OnWallCollision(wallId: string)
      requires Valid()
      modifies this
      ensures Valid()
      ensures State() == OnWall(old(State()), wallId)
    {
      if wallId == "Left" {
        speedX := Abs(speed);
      } else if wallId == "Right" {
        speedX := -Abs(speed);
      } else if wallId == "Top" {
        speedY := Abs(speed);
      } else if wallId == "Bottom" {
        speedY := -Abs(speed);
      }
    }

    method CheckWallCollision(wall: Wall) returns (hit: bool)
      requires Valid()
      modifies this
      ensures Valid()
      ensures hit == Inside(old(State()), wall.bounds)
      ensures State() == CollideWall(old(State()), wall)
    {
      var minX := IntCast(wall.bounds.cx - wall.bounds.width / 2.0);
      var maxX := IntCast(wall.bounds.cx + wall.bounds.width / 2.0);
      var minY := IntCast(wall.bounds.cy - wall.bounds.height / 2.0);
      var maxY := IntCast(wall.bounds.cy + wall.bounds.height / 2.0);
      if cx > minX as real && cx < maxX as real && cy > minY as real && cy < maxY as real {
        OnWallCollision(wall.id);
        return true;
      }
      return false;
    }

    method CheckPlayerCollision(player: Player) returns (hit: bool)
      requires Valid()
      modifies this
      ensures Valid()
      ensures hit == Inside(old(State()), player.bounds)
      ensures State() == CollidePlayer(old(State()), player)
    {
      var maxY := IntCast(player.bounds.cy + player.bounds.height / 2.0);
      var minY := IntCast(player.bounds.cy - player.bounds.height / 2.0);
      var maxX := IntCast(player.bounds.cx + player.bounds.width / 2.0);
      var minX := IntCast(player.bounds.cx - player.bounds.width / 2.0);
      if cx > minX as real && cx < maxX as real && cy > minY as real && cy < maxY as real {
        OnPlayerCollision(player.id);
        return true;
      }
      return false;
    }

    method GetCx() returns (x: real)
      ensures x == cx
    {
      return cx;
    }

    method GetCy() returns (y: real)
      ensures y == cy
    {
      return cy;
    }

    method GetSpeed() returns (s: real)
      ensures s == speed
    {
      return speed;
    }
  }
}
