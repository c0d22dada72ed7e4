// The decorated ball of the second version (EP2/pong2/FxBall.java): a ball
// that keeps a trail of its last positions in two queues, one of x and one
// of y coordinates. Only the trail's maintenance is modelled; drawing the
// ball and the trail is rendering.
module FxBall {
  import opened JavaNum
  import opened Ball

  /** How many past positions the trail holds. */
  const TRAIL_LENGTH: nat := 20

  /** `n` copies of `x`. */
  function Repeat(x: real, n: nat): (s: seq<real>)
    ensures |s| == n && forall i :: 0 <= i < n ==> s[i] == x
  {
    seq(n, _ => x)
  }

  /**
   * One trail queue after a `draw` at coordinate `x`: on the first draw
   * (`started` false) the queue is first filled with 20 copies of `x`; then
   * the head is polled and `x` is added at the tail.
   */
  function NextTrail(q: seq<real>, started: bool, x: real): seq<real>
  {
    Poll(if started then q else q + Repeat(x, TRAIL_LENGTH)) + [x]
  }

  /** A trail queue as it can be between draws: empty before the first draw, 20 entries after. */
  predicate TrailShape(q: seq<real>, started: bool)
  {
    if started then |q| == TRAIL_LENGTH else q == []
  }

  /**
   * A draw keeps the queue at 20 entries and ends it with the current
   * coordinate; the first draw leaves 20 copies of it, later draws slide
   * the window by one.
   */
  lemma NextTrailShape(q: seq<real>, started: bool, x: real)
    requires TrailShape(q, started)
    ensures TrailShape(NextTrail(q, started, x), true)
    ensures NextTrail(q, started, x)[TRAIL_LENGTH - 1] == x
    ensures !started ==> NextTrail(q, started, x) == Repeat(x, TRAIL_LENGTH)
    ensures started ==> NextTrail(q, started, x) == q[1..] + [x]
  {
    if !started {
      assert NextTrail(q, started, x) == Repeat(x, TRAIL_LENGTH - 1) + [x];
    }
  }

  /** One trail queue after draws at the coordinates `xs`, in order, from a fresh ball. */
  function Drawn(xs: seq<real>): seq<real>
    requires xs != []
  {
    if |xs| == 1 then NextTrail([], false, xs[0])
    else NextTrail(Drawn(xs[..|xs| - 1]), true, xs[|xs| - 1])
  }

  /** Sliding a full window over `s` by one more element. */
  lemma SlideWindow(s: seq<real>, x: real)
    requires |s| >= TRAIL_LENGTH
    ensures s[|s| - TRAIL_LENGTH..][1..] + [x] == (s + [x])[|s| + 1 - TRAIL_LENGTH..]
  {
  }

  /**
   * The trail holds the last 20 coordinates drawn, padded at the front
   * with the first one while fewer than 20 draws have happened.
   */
  lemma {:induction false} DrawnIsLastTwenty(xs: seq<real>)
    requires xs != []
    ensures var padded := Repeat(xs[0], TRAIL_LENGTH - 1) + xs;
      Drawn(xs) == padded[|padded| - TRAIL_LENGTH..]
  {
    var padded := Repeat(xs[0], TRAIL_LENGTH - 1) + xs;
    if |xs| == 1 {
      NextTrailShape([], false, xs[0]);
      assert padded == Repeat(xs[0], TRAIL_LENGTH);
    } else {
      var init, x := xs[..|xs| - 1], xs[|xs| - 1];
      var before := Repeat(init[0], TRAIL_LENGTH - 1) + init;
      DrawnIsLastTwenty(init);
      assert Drawn(init) == before[|before| - TRAIL_LENGTH..];
      assert init[0] == xs[0];
      assert padded == before + [x];
      calc {
        Drawn(xs);
        NextTrail(Drawn(init), true, x);
        { NextTrailShape(Drawn(init), true, x); }
        Drawn(init)[1..] + [x];
        { SlideWindow(before, x); }
        padded[|padded| - TRAIL_LENGTH..];
      }
    }
  }

  class FxBall {
    /** The state inherited from the ball class. */
    var ball: Body
    /** Past x coordinates, oldest first. */
    var ballCx: seq<real>
    /** Past y coordinates, oldest first. */
    var ballCy: seq<real>
    /** Whether `Draw` has run before. */
    var inicio: bool

    ghost predicate Valid()
      reads this
    {
      TrailShape(ballCx, inicio) && TrailShape(ballCy, inicio)
    }

    constructor (cx: real, cy: real, width: real, height: real, color: Color,
                 speed: real, vx: real, vy: real)
      ensures Valid() && !inicio
      ensures ball == Launch(cx, cy, width, height, color, speed, vx, vy)
    {
      ball := Launch(cx, cy, width, height, color, speed, vx, vy);
      ballCx := [];
      ballCy := [];
      inicio := false;
    }

    /** The inherited `update`: the ball moves, the trail stays. */
    method Update(delta: int)
      requires Valid() && IsLong(delta)
      modifies this
      ensures Valid()
      ensures ball == Advance(old(ball), delta)
      ensures ballCx == old(ballCx) && ballCy == old(ballCy) && inicio == old(inicio)
    {
      ball := Advance(ball, delta);
    }

    /** The trail's maintenance in `draw`. */
    method Draw()
      requires Valid()
      modifies this
      ensures Valid() && inicio && ball == old(ball)
      ensures ballCx == NextTrail(old(ballCx), old(inicio), ball.cx)
      ensures ballCy == NextTrail(old(ballCy), old(inicio), ball.cy)
      ensures |ballCx| == |ballCy| == TRAIL_LENGTH
      ensures ballCx[TRAIL_LENGTH - 1] == ball.cx && ballCy[TRAIL_LENGTH - 1] == ball.cy
    {
      if !inicio {
        var i := 0;
        while i < TRAIL_LENGTH
          invariant 0 <= i <= TRAIL_LENGTH
          invariant ball == old(ball) && !inicio
          invariant ballCx == old(ballCx) + Repeat(ball.cx, i)
          invariant ballCy == old(ballCy) + Repeat(ball.cy, i)
        {
          ballCx := ballCx + [ball.cx];
          ballCy := ballCy + [ball.cy];
          i := i + 1;
        }
      }
      inicio := true;
      ballCx := Poll(ballCx);
      ballCy := Poll(ballCy);
      ballCx := ballCx + [ball.cx];
      ballCy := ballCy + [ball.cy];
      NextTrailShape(old(ballCx), old(inicio), ball.cx);
      NextTrailShape(old(ballCy), old(inicio), ball.cy);
    }

    /**
     * The positions the drawing loop visits, walking both queues together
     * until either ends.
     */
    method TrailPositions() returns (points: seq<(real, real)>)
      ensures |points| == if |ballCx| < |ballCy| then |ballCx| else |ballCy|
      ensures forall k :: 0 <= k < |points| ==> points[k] == (ballCx[k], ballCy[k])
    {
      points := [];
      var i := 0;
      while i < |ballCx| && i < |ballCy|
        invariant 0 <= i <= |ballCx| && i <= |ballCy|
        invariant |points| == i
        invariant forall k :: 0 <= k < i ==> points[k] == (ballCx[k], ballCy[k])
      {
        points := points + [(ballCx[i], ballCy[i])];
        i := i + 1;
      }
    }
  }
}
