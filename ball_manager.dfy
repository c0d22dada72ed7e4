// The ball manager of the second version of the game
// (EP2/pong2/BallManager.java): one primary ball and a first-in-first-out
// queue of duplicate balls spawned by duplicator targets, with the
// speed-boost and duplicate-expiry effects of targets. The manager owns
// every ball exclusively, so balls are held as `Body` values; the
// `Snapshot` functions below give each operation's effect on the whole
// state, and the class `BallManager` is specified by them.
module BallManager {
  import opened JavaNum
  import opened Ball

  /** The target classes the manager tells apart with `instanceof`. */
  datatype TargetKind = BoostTarget | DuplicatorTarget | OtherTarget

  datatype Target = Target(kind: TargetKind, bounds: Rect)

  /** The manager's state once the primary ball exists. */
  datatype Snapshot = Snapshot(theBall: Body, duplicateBalls: seq<Body>, defaultSpeed: real)

  /** `len` is what `Math.sqrt(x * x + y * y)` returns, for a non-zero vector. */
  predicate IsLength(x: real, y: real, len: real)
  {
    len > 0.0 && len * len == x * x + y * y
  }

  /** `normalize`: the vector divided by its length. */
  function Normalize(x: real, y: real, len: real): (v: (real, real))
    requires IsLength(x, y, len)
    ensures v.0 * v.0 + v.1 * v.1 == 1.0
    ensures v.0 * len == x && v.1 * len == y
  {
    var u, w := x / len, y / len;
    assert u * len == x && w * len == y;
    UnitAfterScaling(x, y, len, u, w);
    (u, w)
  }

  /** A vector that `len` scales to (x, y), with len * len == x * x + y * y, has length 1. */
  lemma UnitAfterScaling(x: real, y: real, len: real, u: real, w: real)
    requires IsLength(x, y, len) && u * len == x && w * len == y
    ensures u * u + w * w == 1.0
  {
    assert ((u * u + w * w) * len) * len == (u * len) * (u * len) + (w * len) * (w * len);
    assert ((u * u + w * w - 1.0) * len) * len == 0.0;
    assert (u * u + w * w - 1.0) * len == 0.0;
  }

  /** The direction a duplicator draws: |vx| in [0.85, 1.0), vy the non-negative root completing a unit vector. */
  predicate DuplicatorDirection(vx: real, vy: real)
  {
    0.85 <= Abs(vx) < 1.0 && vy >= 0.0 && vx * vx + vy * vy == 1.0
  }

  /** Applies a per-ball step to every duplicate, keeping the queue's order. */
  function Each(q: seq<Body>, step: Body -> Body): (r: seq<Body>)
  {
    seq(|q|, i requires 0 <= i < |q| => step(q[i]))
  }

  /** How many balls of `q` have their centre inside `r`. */
  function CountHits(q: seq<Body>, r: Rect): (n: nat)
    ensures n <= |q|
  {
    if q == [] then 0
    else CountHits(q[..|q| - 1], r) + (if Inside(q[|q| - 1], r) then 1 else 0)
  }

  /** The hit count is zero exactly when no ball is inside. */
  lemma {:induction false} CountHitsZero(q: seq<Body>, r: Rect)
    ensures CountHits(q, r) == 0 <==> forall i :: 0 <= i < |q| ==> !Inside(q[i], r)
  {
    if q != [] {
      var p := q[..|q| - 1];
      CountHitsZero(p, r);
      assert forall i :: 0 <= i < |p| ==> p[i] == q[i];
    }
  }

  /** The hit count is the length of the queue exactly when every ball is inside. */
  lemma {:induction false} CountHitsAll(q: seq<Body>, r: Rect)
    ensures CountHits(q, r) == |q| <==> forall i :: 0 <= i < |q| ==> Inside(q[i], r)
  {
    if q != [] {
      var p := q[..|q| - 1];
      CountHitsAll(p, r);
      assert forall i :: 0 <= i < |p| ==> p[i] == q[i];
    }
  }

  /** `update(delta)`: every ball moves. */
  function Ticked(m: Snapshot, delta: int): Snapshot
  {
    m.(theBall := Advance(m.theBall, delta),
       duplicateBalls := Each(m.duplicateBalls, b => Advance(b, delta)))
  }

  /** `checkCollision(Wall)`'s effect: every ball inside the wall takes the wall's response. */
  function AfterWall(m: Snapshot, w: Wall): Snapshot
  {
    m.(theBall := CollideWall(m.theBall, w),
       duplicateBalls := Each(m.duplicateBalls, b => CollideWall(b, w)))
  }

  /** `checkCollision(Wall)`'s result: the primary and the duplicates inside the wall. */
  function WallHits(m: Snapshot, w: Wall): nat
  {
    (if Inside(m.theBall, w.bounds) then 1 else 0) + CountHits(m.duplicateBalls, w.bounds)
  }

  /** `checkCollision(Player)`'s effect: every ball inside the paddle takes the paddle's response. */
  function AfterPaddle(m: Snapshot, p: Player): Snapshot
  {
    m.(theBall := CollidePlayer(m.theBall, p),
       duplicateBalls := Each(m.duplicateBalls, b => CollidePlayer(b, p)))
  }

  /** The ball a duplicator spawns: at the primary's place and size, red, at the default speed. */
  function Duplicate(m: Snapshot, vx: real, vy: real): Body
    requires IsLength(vx, vy, 1.0)
  {
    var u := Normalize(vx, vy, 1.0);
    Launch(m.theBall.cx, m.theBall.cy, m.theBall.width, m.theBall.height, RED, m.defaultSpeed, u.0, u.1)
  }

  /**
   * `checkCollision(Target)`'s effect: only the primary ball is tested; a
   * boost applies only at the default speed; a duplicator appends a ball.
   */
  function AfterTarget(m: Snapshot, t: Target, vx: real, vy: real, boostFactor: real): Snapshot
    requires t.kind == DuplicatorTarget ==> DuplicatorDirection(vx, vy)
  {
    if !Inside(m.theBall, t.bounds) then m
    else match t.kind
      case BoostTarget =>
        if m.theBall.speed == m.defaultSpeed
        then m.(theBall := SetSpeed(m.theBall, m.defaultSpeed * boostFactor))
        else m
      case DuplicatorTarget => m.(duplicateBalls := m.duplicateBalls + [Duplicate(m, vx, vy)])
      case OtherTarget => m
  }

  /** The boost timer's task: the primary ball is set back to the default speed. */
  function Restored(m: Snapshot): Snapshot
  {
    m.(theBall := SetSpeed(m.theBall, m.defaultSpeed))
  }

  /** The duplicator timer's task: the oldest duplicate leaves the queue. */
  function Expired(m: Snapshot): Snapshot
  {
    m.(duplicateBalls := Poll(m.duplicateBalls))
  }

  /** The primary ball is at the default speed or at the boosted speed, never above. */
  predicate SpeedBounded(m: Snapshot, boostFactor: real)
  {
    m.theBall.speed == m.defaultSpeed || m.theBall.speed == m.defaultSpeed * boostFactor
  }

  /** Every duplicate moves at the default speed. */
  predicate DuplicatesAtDefault(m: Snapshot)
  {
    forall i :: 0 <= i < |m.duplicateBalls| ==> m.duplicateBalls[i].speed == m.defaultSpeed
  }

  /** Update keeps the queue's length and order, and changes only positions. */
  lemma TickedKeepsQueue(m: Snapshot, delta: int)
    ensures |Ticked(m, delta).duplicateBalls| == |m.duplicateBalls|
    ensures forall i :: 0 <= i < |m.duplicateBalls| ==>
      Ticked(m, delta).duplicateBalls[i].(cx := m.duplicateBalls[i].cx, cy := m.duplicateBalls[i].cy)
        == m.duplicateBalls[i]
    ensures Ticked(m, delta).defaultSpeed == m.defaultSpeed
  {
  }

  /** The wall check counts between 0 and 1 + the queue length, 0 exactly when no ball touches the wall. */
  lemma WallHitsBounds(m: Snapshot, w: Wall)
    ensures WallHits(m, w) <= 1 + |m.duplicateBalls|
    ensures WallHits(m, w) == 0 <==>
      !Inside(m.theBall, w.bounds) &&
      forall i :: 0 <= i < |m.duplicateBalls| ==> !Inside(m.duplicateBalls[i], w.bounds)
  {
    CountHitsZero(m.duplicateBalls, w.bounds);
  }

  /** The wall and paddle checks never change the queue's length, nor any ball's position or speed. */
  lemma CollisionsKeepQueue(m: Snapshot, w: Wall, p: Player)
    ensures |AfterWall(m, w).duplicateBalls| == |m.duplicateBalls|
    ensures |AfterPaddle(m, p).duplicateBalls| == |m.duplicateBalls|
    ensures forall i :: 0 <= i < |m.duplicateBalls| ==>
      AfterWall(m, w).duplicateBalls[i].(speedX := m.duplicateBalls[i].speedX,
                                         speedY := m.duplicateBalls[i].speedY) == m.duplicateBalls[i]
    ensures forall i :: 0 <= i < |m.duplicateBalls| ==>
      AfterPaddle(m, p).duplicateBalls[i].(speedX := m.duplicateBalls[i].speedX) == m.duplicateBalls[i]
  {
  }

  /** Only the primary ball triggers targets: if it is outside, nothing changes, whatever the duplicates overlap. */
  lemma DuplicatesNeverTrigger(m: Snapshot, t: Target, vx: real, vy: real, boostFactor: real)
    requires t.kind == DuplicatorTarget ==> DuplicatorDirection(vx, vy)
    requires !Inside(m.theBall, t.bounds)
    ensures AfterTarget(m, t, vx, vy, boostFactor) == m
  {
  }

  /** A boost hit speeds up the primary only at the default speed, and a second hit adds nothing. */
  lemma BoostNeverStacks(m: Snapshot, t: Target, vx: real, vy: real, boostFactor: real)
    requires t.kind == BoostTarget
    ensures var r := AfterTarget(m, t, vx, vy, boostFactor);
      r.duplicateBalls == m.duplicateBalls && r.defaultSpeed == m.defaultSpeed &&
      (r.theBall.speed == m.theBall.speed || r.theBall.speed == m.defaultSpeed * boostFactor) &&
      (r.theBall.speed != m.theBall.speed <==>
        (Inside(m.theBall, t.bounds) && m.theBall.speed == m.defaultSpeed &&
         boostFactor != 1.0 && m.defaultSpeed != 0.0))
    ensures AfterTarget(AfterTarget(m, t, vx, vy, boostFactor), t, vx, vy, boostFactor)
      == AfterTarget(m, t, vx, vy, boostFactor)
  {
    var r := AfterTarget(m, t, vx, vy, boostFactor);
    if Inside(m.theBall, t.bounds) && m.theBall.speed == m.defaultSpeed {
      assert r.theBall.speed == m.defaultSpeed * boostFactor;
      if boostFactor != 1.0 && m.defaultSpeed != 0.0 {
        assert m.defaultSpeed * boostFactor != m.defaultSpeed * 1.0;
      }
    }
  }

  /** The restore task undoes a boost exactly, and restores the default speed after any sequence of hits. */
  lemma BoostThenRestore(m: Snapshot, t: Target, vx: real, vy: real, boostFactor: real)
    requires t.kind == BoostTarget
    requires m.theBall.speed == m.defaultSpeed
    ensures Restored(AfterTarget(m, t, vx, vy, boostFactor)) == m
    ensures Restored(m).theBall.speed == m.defaultSpeed
  {
  }

  /** Speed 1.0 and a boost factor of 2.0: 2.0 right after the hit, 1.0 once the restore task has run. */
  lemma BoostScenario(b: Body, q: seq<Body>, t: Target)
    requires b.speed == 1.0 && t.kind == BoostTarget && Inside(b, t.bounds)
    ensures AfterTarget(Snapshot(b, q, 1.0), t, 0.0, 0.0, 2.0).theBall.speed == 2.0
    ensures Restored(AfterTarget(Snapshot(b, q, 1.0), t, 0.0, 0.0, 2.0)).theBall.speed == 1.0
  {
  }

  /**
   * A boost changes the base speed only, not the velocity: until the next
   * bounce the boosted ball moves exactly as before. The first bounce off
   * the left wall sets only `speedX` to the boosted speed, so the velocity
   * is no longer diagonal, and the restore task leaves that component boosted.
   */
  lemma BoostKeepsMotion(m: Snapshot, t: Target, vx: real, vy: real, boostFactor: real, delta: int,
                         left: Wall)
    requires t.kind == BoostTarget
    ensures var r := AfterTarget(m, t, vx, vy, boostFactor).theBall;
      r.speedX == m.theBall.speedX && r.speedY == m.theBall.speedY &&
      Advance(r, delta).cx == Advance(m.theBall, delta).cx &&
      Advance(r, delta).cy == Advance(m.theBall, delta).cy
    ensures var r := AfterTarget(m, t, vx, vy, boostFactor);
      left.id == "Left" && Inside(m.theBall, t.bounds) && m.theBall.speed == m.defaultSpeed &&
      Diagonal(m.theBall) && m.defaultSpeed > 0.0 && boostFactor > 1.0 ==>
        OnWall(r.theBall, left.id).speedX == m.defaultSpeed * boostFactor &&
        !Diagonal(OnWall(r.theBall, left.id)) &&
        Restored(r.(theBall := OnWall(r.theBall, left.id))).theBall.speedX == m.defaultSpeed * boostFactor
  {
    var r := AfterTarget(m, t, vx, vy, boostFactor);
    if Inside(m.theBall, t.bounds) && m.theBall.speed == m.defaultSpeed {
      assert r.theBall == SetSpeed(m.theBall, m.defaultSpeed * boostFactor);
      if m.defaultSpeed > 0.0 && boostFactor > 1.0 {
        var d, g := m.defaultSpeed, boostFactor - 1.0;
        assert d * g > 0.0;
        assert d * boostFactor == d + d * g;
      }
    } else {
      assert r == m;
    }
  }

  /**
   * A duplicator hit appends exactly one ball at the tail: at the primary's
   * position and size, red, at the default speed, moving along the drawn
   * direction; the primary and the default speed are unchanged.
   */
  lemma DuplicatorAppends(m: Snapshot, t: Target, vx: real, vy: real, boostFactor: real)
    requires t.kind == DuplicatorTarget && DuplicatorDirection(vx, vy) && Inside(m.theBall, t.bounds)
    ensures var r := AfterTarget(m, t, vx, vy, boostFactor);
      |r.duplicateBalls| == |m.duplicateBalls| + 1 &&
      r.duplicateBalls[..|m.duplicateBalls|] == m.duplicateBalls &&
      r.theBall == m.theBall && r.defaultSpeed == m.defaultSpeed
    ensures var n := AfterTarget(m, t, vx, vy, boostFactor).duplicateBalls[|m.duplicateBalls|];
      n.cx == m.theBall.cx && n.cy == m.theBall.cy &&
      n.width == m.theBall.width && n.height == m.theBall.height &&
      n.color == RED && n.speed == m.defaultSpeed &&
      n.speedX == m.defaultSpeed * vx && n.speedY == m.defaultSpeed * vy &&
      n.speedX * n.speedX + n.speedY * n.speedY == m.defaultSpeed * m.defaultSpeed
  {
    var u := Normalize(vx, vy, 1.0);
    assert u.0 == vx && u.1 == vy;
  }

  /** The expiry task removes the oldest duplicate and keeps the rest in order; on an empty queue it does nothing. */
  lemma ExpiredRemovesOldest(m: Snapshot)
    ensures m.duplicateBalls == [] ==> Expired(m) == m
    ensures m.duplicateBalls != [] ==>
      [m.duplicateBalls[0]] + Expired(m).duplicateBalls == m.duplicateBalls &&
      Expired(m).theBall == m.theBall
  {
  }

  /**
   * Expiry ignores which hit armed the timer: a duplicate spawned after
   * the oldest one stays, and the oldest goes.
   */
  lemma ExpiryIgnoresArmer(m: Snapshot, t: Target, vx: real, vy: real, boostFactor: real)
    requires t.kind == DuplicatorTarget && DuplicatorDirection(vx, vy) && Inside(m.theBall, t.bounds)
    requires m.duplicateBalls != []
    ensures Expired(AfterTarget(m, t, vx, vy, boostFactor)).duplicateBalls
      == Expired(m).duplicateBalls + [Duplicate(m, vx, vy)]
  {
    PollAfterAdd(m.duplicateBalls, Duplicate(m, vx, vy));
  }

  /** Three duplicator hits spawn A, B, C in that order; two expiries then remove A and B and leave C. */
  lemma DuplicateFifoScenario(m: Snapshot, t: Target, d1: (real, real), d2: (real, real), d3: (real, real),
                              boostFactor: real)
    requires m.duplicateBalls == [] && t.kind == DuplicatorTarget && Inside(m.theBall, t.bounds)
    requires DuplicatorDirection(d1.0, d1.1) && DuplicatorDirection(d2.0, d2.1) && DuplicatorDirection(d3.0, d3.1)
    ensures var m1 := AfterTarget(m, t, d1.0, d1.1, boostFactor);
      var m2 := AfterTarget(m1, t, d2.0, d2.1, boostFactor);
      var m3 := AfterTarget(m2, t, d3.0, d3.1, boostFactor);
      m3.duplicateBalls == [Duplicate(m, d1.0, d1.1), Duplicate(m, d2.0, d2.1), Duplicate(m, d3.0, d3.1)] &&
      Expired(Expired(m3)).duplicateBalls == [Duplicate(m, d3.0, d3.1)]
  {
    var m1 := AfterTarget(m, t, d1.0, d1.1, boostFactor);
    var m2 := AfterTarget(m1, t, d2.0, d2.1, boostFactor);
    var m3 := AfterTarget(m2, t, d3.0, d3.1, boostFactor);
    assert m1.theBall == m.theBall && m1.defaultSpeed == m.defaultSpeed;
    assert m2.theBall == m.theBall && m2.defaultSpeed == m.defaultSpeed;
    PollTimesDropsOldest(m3.duplicateBalls, 2);
    assert PollTimes(m3.duplicateBalls, 2) == Poll(Poll(m3.duplicateBalls));
  }

  /** Motion and the wall and paddle checks keep both speed invariants. */
  lemma MotionKeepsSpeeds(m: Snapshot, boostFactor: real, delta: int, w: Wall, p: Player)
    requires SpeedBounded(m, boostFactor) && DuplicatesAtDefault(m)
    ensures SpeedBounded(Ticked(m, delta), boostFactor) && DuplicatesAtDefault(Ticked(m, delta))
    ensures SpeedBounded(AfterWall(m, w), boostFactor) && DuplicatesAtDefault(AfterWall(m, w))
    ensures SpeedBounded(AfterPaddle(m, p), boostFactor) && DuplicatesAtDefault(AfterPaddle(m, p))
  {
    var q := m.duplicateBalls;
    var moved, walled, paddled := Ticked(m, delta), AfterWall(m, w), AfterPaddle(m, p);
    assert moved.theBall.speed == walled.theBall.speed == paddled.theBall.speed == m.theBall.speed;
    forall i | 0 <= i < |q|
      ensures moved.duplicateBalls[i].speed == m.defaultSpeed
      ensures walled.duplicateBalls[i].speed == m.defaultSpeed
      ensures paddled.duplicateBalls[i].speed == m.defaultSpeed
    {
      assert moved.duplicateBalls[i] == Advance(q[i], delta);
      assert walled.duplicateBalls[i] == CollideWall(q[i], w);
      assert paddled.duplicateBalls[i] == CollidePlayer(q[i], p);
    }
  }

  /** A target hit keeps both speed invariants: boosts never stack and duplicates start at the default speed. */
  lemma TargetKeepsSpeeds(m: Snapshot, boostFactor: real, t: Target, vx: real, vy: real)
    requires SpeedBounded(m, boostFactor) && DuplicatesAtDefault(m)
    requires t.kind == DuplicatorTarget ==> DuplicatorDirection(vx, vy)
    ensures SpeedBounded(AfterTarget(m, t, vx, vy, boostFactor), boostFactor)
    ensures DuplicatesAtDefault(AfterTarget(m, t, vx, vy, boostFactor))
  {
    var r := AfterTarget(m, t, vx, vy, boostFactor);
    if t.kind == DuplicatorTarget && Inside(m.theBall, t.bounds) {
      assert r.duplicateBalls == m.duplicateBalls + [Duplicate(m, vx, vy)];
      assert Duplicate(m, vx, vy).speed == m.defaultSpeed;
    }
  }

  /** The timer tasks keep both speed invariants. */
  lemma TimersKeepSpeeds(m: Snapshot, boostFactor: real)
    requires SpeedBounded(m, boostFactor) && DuplicatesAtDefault(m)
    ensures SpeedBounded(Restored(m), boostFactor) && DuplicatesAtDefault(Restored(m))
    ensures SpeedBounded(Expired(m), boostFactor) && DuplicatesAtDefault(Expired(m))
  {
    var e := Expired(m).duplicateBalls;
    if m.duplicateBalls != [] {
      assert forall i :: 0 <= i < |e| ==> e[i] == m.duplicateBalls[i + 1];
    }
  }

  class BallManager {
    /** The primary ball; `null` until `InitMainBall`. */
    var theBall: Option<Body>
    /** The speed of the last ball created, the speed boosts start from and restores return to. */
    var defaultSpeed: real
    /** The duplicate balls, oldest first. */
    var duplicateBalls: seq<Body>
    /** `BoostTarget.BOOST_FACTOR`. */
    const boostFactor: real

    function Model(): Snapshot
      reads this
      requires theBall.Some?
    {
      Snapshot(theBall.value, duplicateBalls, defaultSpeed)
    }

    constructor (boostFactor: real)
      ensures theBall == None && duplicateBalls == [] && defaultSpeed == 0.0
      ensures this.boostFactor == boostFactor
    {
      this.boostFactor := boostFactor;
      theBall := None;
      duplicateBalls := [];
      defaultSpeed := 0.0;
    }

    /**
     * Builds a ball moving along the normalized (vx, vy) at `speed`, and
     * records `speed` as the default speed.
     */
    method CreateBallInstance(cx: real, cy: real, width: real, height: real, color: Color,
                              speed: real, vx: real, vy: real, len: real) returns (ball: Body)
      requires IsLength(vx, vy, len)
      modifies this`defaultSpeed
      ensures defaultSpeed == speed
      ensures ball == Launch(cx, cy, width, height, color, speed,
                             Normalize(vx, vy, len).0, Normalize(vx, vy, len).1)
      ensures ball.speedX * ball.speedX + ball.speedY * ball.speedY == speed * speed
      ensures ball.speedX * len == speed * vx && ball.speedY * len == speed * vy
    {
      var v := Normalize(vx, vy, len);
      ball := Launch(cx, cy, width, height, color, speed, v.0, v.1);
      assert ball.speedX * len == speed * (v.0 * len);
      assert ball.speedY * len == speed * (v.1 * len);
      defaultSpeed := speed;
    }

    method InitMainBall(cx: real, cy: real, width: real, height: real, color: Color,
                        speed: real, vx: real, vy: real, len: real)
      requires IsLength(vx, vy, len)
      modifies this
      ensures theBall == Some(Launch(cx, cy, width, height, color, speed,
                                     Normalize(vx, vy, len).0, Normalize(vx, vy, len).1))
      ensures defaultSpeed == speed && duplicateBalls == old(duplicateBalls)
      ensures SpeedBounded(Model(), boostFactor)
    {
      var ball := CreateBallInstance(cx, cy, width, height, color, speed, vx, vy, len);
      theBall := Some(ball);
    }

    method Update(delta: int)
      requires theBall.Some? && IsLong(delta)
      modifies this
      ensures theBall.Some? && Model() == Ticked(old(Model()), delta)
    {
      theBall := Some(Advance(theBall.value, delta));
      var i := 0;
      while i < |duplicateBalls|
        invariant 0 <= i <= |duplicateBalls| == |old(duplicateBalls)|
        invariant theBall == Some(Advance(old(theBall).value, delta)) && defaultSpeed == old(defaultSpeed)
        invariant forall j :: 0 <= j < i ==> duplicateBalls[j] == Advance(old(duplicateBalls)[j], delta)
        invariant forall j :: i <= j < |duplicateBalls| ==> duplicateBalls[j] == old(duplicateBalls)[j]
      {
        duplicateBalls := duplicateBalls[i := Advance(duplicateBalls[i], delta)];
        i := i + 1;
      }
    }

    method CheckWallCollision(wall: Wall) returns (hits: int)
      requires theBall.Some?
      modifies this
      ensures theBall.Some? && Model() == AfterWall(old(Model()), wall)
      ensures hits == WallHits(old(Model()), wall)
    {
      hits := 0;
      if Inside(theBall.value, wall.bounds) {
        hits := hits + 1;
      }
      theBall := Some(CollideWall(theBall.value, wall));
      ghost var first := hits;
      var i := 0;
      while i < |duplicateBalls|
        invariant 0 <= i <= |duplicateBalls| == |old(duplicateBalls)|
        invariant theBall == Some(CollideWall(old(theBall).value, wall)) && defaultSpeed == old(defaultSpeed)
        invariant forall j :: 0 <= j < i ==> duplicateBalls[j] == CollideWall(old(duplicateBalls)[j], wall)
        invariant forall j :: i <= j < |duplicateBalls| ==> duplicateBalls[j] == old(duplicateBalls)[j]
        invariant hits == first + CountHits(old(duplicateBalls)[..i], wall.bounds)
      {
        assert old(duplicateBalls)[..i + 1][..i] == old(duplicateBalls)[..i];
        if Inside(duplicateBalls[i], wall.bounds) {
          hits := hits + 1;
        }
        duplicateBalls := duplicateBalls[i := CollideWall(duplicateBalls[i], wall)];
        i := i + 1;
      }
      assert old(duplicateBalls)[..i] == old(duplicateBalls);
    }

    method CheckPlayerCollision(player: Player)
      requires theBall.Some?
      modifies this
      ensures theBall.Some? && Model() == AfterPaddle(old(Model()), player)
    {
      theBall := Some(CollidePlayer(theBall.value, player));
      var i := 0;
      while i < |duplicateBalls|
        invariant 0 <= i <= |duplicateBalls| == |old(duplicateBalls)|
        invariant theBall == Some(CollidePlayer(old(theBall).value, player)) && defaultSpeed == old(defaultSpeed)
        invariant forall j :: 0 <= j < i ==> duplicateBalls[j] == CollidePlayer(old(duplicateBalls)[j], player)
        invariant forall j :: i <= j < |duplicateBalls| ==> duplicateBalls[j] == old(duplicateBalls)[j]
      {
        duplicateBalls := duplicateBalls[i := CollidePlayer(duplicateBalls[i], player)];
        i := i + 1;
      }
    }

    /**
     * `(vx, vy)` is the duplicator's random draw; arming the timers is
     * modelled by `RestoreBoost` and `ExpireOldest` becoming due.
     */
    method CheckTargetCollision(target: Target, vx: real, vy: real)
      requires theBall.Some?
      requires target.kind == DuplicatorTarget ==> DuplicatorDirection(vx, vy)
      modifies this
      ensures theBall.Some? && Model() == AfterTarget(old(Model()), target, vx, vy, boostFactor)
    {
      var ball := theBall.value;
      if Inside(ball, target.bounds) {
        if target.kind == BoostTarget {
          if ball.speed == defaultSpeed {
            theBall := Some(SetSpeed(ball, defaultSpeed * boostFactor));
          }
        } else if target.kind == DuplicatorTarget {
          var newBall := CreateBallInstance(ball.cx, ball.cy, ball.width, ball.height, RED,
                                            defaultSpeed, vx, vy, 1.0);
          duplicateBalls := duplicateBalls + [newBall];
        }
      }
    }

    /** The boost timer's task. */
    method RestoreBoost()
      requires theBall.Some?
      modifies this
      ensures theBall.Some? && Model() == Restored(old(Model()))
    {
      theBall := Some(SetSpeed(theBall.value, defaultSpeed));
    }

    /** The duplicator timer's task: `poll` on the queue. */
    method ExpireOldest()
      modifies this
      ensures duplicateBalls == Poll(old(duplicateBalls))
      ensures theBall == old(theBall) && defaultSpeed == old(defaultSpeed)
    {
      if duplicateBalls != [] {
        duplicateBalls := duplicateBalls[1..];
      }
    }
  }
}
