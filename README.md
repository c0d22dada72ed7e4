# Pong ball state, in Dafny

A model of the ball-state logic of a two-player Pong game, with proofs about it.

- **Ball** (first version, `EP1/pong_incompleto/Ball.java`). A ball has a centre, a size, a base speed and a signed velocity. The constructor picks one of four diagonals from a random draw. `update` moves the centre by the velocity times `delta / 2`, with `long` division. A wall or paddle hit forces one velocity component to `±|speed|`. The collision tests compare the centre strictly against the obstacle's bounds after an `(int)` cast.
- **BallManager** (second version, `EP2/pong2/BallManager.java`). The manager owns one primary ball and a FIFO queue of duplicate balls. Update, wall checks and paddle checks go to every ball, and the wall check counts the hits. Only the primary ball is tested against targets. A boost target raises the speed only from the default speed. A duplicator target appends a new ball. Two timer tasks restore the speed and poll the oldest duplicate.
- **FxBall** (`EP2/pong2/FxBall.java`). This ball keeps two trail queues, one for past x coordinates and one for past y coordinates. The first `draw` fills each queue with 20 copies of the position. Every `draw` then polls one entry and adds one.
- **Score** (`EP1/pong_incompleto/Score.java`). A Java `int` counter that starts at 0 and is raised by `inc`.

Layout: `java_num.dfy` holds the Java semantics the code relies on: `long` division, the `(int)` cast, `int` wrap-around, `Queue.poll` and `null`. Each other file is one module named after its source file. Each operation that changes state is a class method. Its `ensures` ties the new state to a pure function of the old state, and the lemmas state the source's promises about those functions. Doubles are modelled as `real`.

Where the intended design and the code disagree, the model follows the code:
- A zero direction vector makes `normalize` divide by zero; there is no error value. The model requires a non-zero vector.
- The responses use `Math.abs(speed)`, not the signed speed.
- `delta / 2` is integer division, so a 1 ms update does not move a ball (`AdvanceOddRemainderLost`), and two 1 ms updates fall short of one 2 ms update (`AdvanceNotAdditive`).
- `normalize` is done by the manager before a ball is built, not by the ball.

## Model

| member | source | states |
|---|---|---|
| JavaNum.HalfOf | EP1/pong_incompleto/Ball.java:83-84 | `delta / 2` on a `long` rounds toward zero: the remainder is 0 or 1 for a non-negative delta and 0 or -1 for a negative one |
| JavaNum.IntCast | EP1/pong_incompleto/Ball.java:143-149 | the `(int)` cast of a bound lands in the `int` range, is no larger in magnitude, keeps the sign, is less than 1 away inside the range, and saturates at `INT_MAX`/`INT_MIN` outside it |
| JavaNum.IntIncrement | EP1/pong_incompleto/Score.java:45 | `score += 1` stays in the `int` range and is congruent to score + 1 modulo 2^32 |
| JavaNum.Poll | EP2/pong2/BallManager.java:315 | `poll` removes the head of a non-empty queue and keeps the rest in order; on an empty queue it changes nothing |
| JavaNum.PollTimesDropsOldest | EP2/pong2/BallManager.java:313-316 | n polls remove exactly the n oldest entries, or empty the queue if it is shorter |
| JavaNum.PollAfterAdd | EP2/pong2/BallManager.java:238 | on a non-empty queue, a poll after an add removes the old head, not the added entry |
| Ball.InitialVelocity | EP1/pong_incompleto/Ball.java:45-63 | each of the four draws gives velocity components of magnitude `|speed|` |
| Ball.InitialVelocityInjective | EP1/pong_incompleto/Ball.java:45-63 | for a non-zero speed, different draws give different diagonals |
| Ball.InitialVelocityCovers | EP1/pong_incompleto/Ball.java:45-63 | every sign combination of (±|speed|, ±|speed|) comes from some draw in 0..3 |
| Ball.Launch | EP2/pong2/BallManager.java:99 | a ball built from a direction stores position, size, colour and speed as given; its squared velocity is speed² times the direction's squared length |
| Ball.InsideApproximatesRect | EP1/pong_incompleto/Ball.java:142-152 | the int-cast strict test holds for a centre at least 1 inside the rectangle and fails for a centre 1 or more outside it |
| Ball.InsideExactOnIntegralBounds | EP1/pong_incompleto/Ball.java:142-152 | with whole-number bounds, the test holds exactly when the centre is strictly inside the rectangle |
| Ball.DiagonalPreserved | EP1/pong_incompleto/Ball.java:82-191 | update, wall response, paddle response and both collision checks keep `|speedX| = |speedY| = |speed|` and never change the speed |
| Ball.ResponsesKeepPlace | EP1/pong_incompleto/Ball.java:93-131 | the wall and paddle responses change only the velocity; the paddle response never touches `speedY` |
| Ball.OnWallCanonical | EP1/pong_incompleto/Ball.java:112-131 | the wall response ignores the incoming velocity component; applying it twice equals applying it once; "Left" gives `speedX = |speed|` |
| Ball.OnPlayerCanonical | EP1/pong_incompleto/Ball.java:93-104 | the paddle response is idempotent; for "Player 1" and "Player 2" it ignores the incoming `speedX` |
| Ball.CollideIdempotent | EP1/pong_incompleto/Ball.java:140-191 | a collision response leaves the collision test unchanged, so checking twice without moving equals checking once |
| Ball.AdvanceOddRemainderLost | EP1/pong_incompleto/Ball.java:82-85 | an update by 2k+1 ms equals one by 2k ms; a ±1 ms update leaves the ball where it is |
| Ball.AdvanceEvenAdditive | EP1/pong_incompleto/Ball.java:82-85 | two updates with even deltas equal one update by their sum |
| Ball.AdvanceNotAdditive | EP1/pong_incompleto/Ball.java:82-85 | for a moving ball, two 1 ms updates differ from one 2 ms update |
| Ball.AdvanceExample | EP1/pong_incompleto/Ball.java:82-85 | a ball at (100, 100) moving right at 0.5 reaches (102.5, 100) after a 10 ms update |
| Ball.Ball.constructor | EP1/pong_incompleto/Ball.java:33-64 | position, size, colour and speed are stored as given; the velocity is the diagonal for the draw; the diagonal invariant holds |
| Ball.Ball.Update | EP1/pong_incompleto/Ball.java:82-85 | the centre moves by `speedX * (delta/2)` and `speedY * (delta/2)`; velocity and speed stay; the invariant is kept |
| Ball.Ball.OnPlayerCollision | EP1/pong_incompleto/Ball.java:93-104 | "Player 1" sets `speedX = |speed|`, "Player 2" sets `speedX = -|speed|`, any other id changes nothing |
| Ball.Ball.OnWallCollision | EP1/pong_incompleto/Ball.java:112-131 | Left/Right set `speedX` to ±`|speed|`, Top/Bottom set `speedY` to ±`|speed|`, other ids change nothing |
| Ball.Ball.CheckWallCollision | EP1/pong_incompleto/Ball.java:140-161 | returns true exactly when the centre is strictly inside the int-cast wall bounds; applies the wall response only then |
| Ball.Ball.CheckPlayerCollision | EP1/pong_incompleto/Ball.java:170-191 | returns true exactly when the centre is strictly inside the int-cast paddle bounds; applies the paddle response only then |
| Ball.Ball.GetCx | EP1/pong_incompleto/Ball.java:198-201 | returns `cx` and changes nothing |
| Ball.Ball.GetCy | EP1/pong_incompleto/Ball.java:208-211 | returns `cy` and changes nothing |
| Ball.Ball.GetSpeed | EP1/pong_incompleto/Ball.java:219-222 | returns `speed` and changes nothing |
| BallManager.Normalize | EP2/pong2/BallManager.java:70-75 | for a non-zero vector the result has squared length 1 and, scaled by the length, gives back the input |
| BallManager.UnitAfterScaling | EP2/pong2/BallManager.java:72-74 | a vector that the length scales back to (x, y) has squared length 1 |
| BallManager.CountHits | EP2/pong2/BallManager.java:176-178 | the number of duplicates that hit the wall is at most the queue length |
| BallManager.CountHitsZero | EP2/pong2/BallManager.java:176-178 | no duplicate hit is counted exactly when no duplicate is inside the wall |
| BallManager.CountHitsAll | EP2/pong2/BallManager.java:176-178 | every duplicate is counted exactly when every duplicate is inside the wall |
| BallManager.WallHitsBounds | EP2/pong2/BallManager.java:169-181 | the wall check returns between 0 and 1 + the queue length, and 0 exactly when no ball, primary or duplicate, is inside |
| BallManager.TickedKeepsQueue | EP2/pong2/BallManager.java:150-159 | update keeps the queue length and order; each duplicate changes only its position |
| BallManager.CollisionsKeepQueue | EP2/pong2/BallManager.java:169-198 | the wall and paddle checks keep the queue length and order and change only velocities |
| BallManager.DuplicatesNeverTrigger | EP2/pong2/BallManager.java:209 | when the primary ball is not inside the target, nothing changes, whatever the duplicates overlap |
| BallManager.BoostNeverStacks | EP2/pong2/BallManager.java:213-223 | a boost hit changes only the primary's speed, to `defaultSpeed * BOOST_FACTOR`, and only when the primary is inside the target at the default speed; a second hit adds nothing |
| BallManager.BoostKeepsMotion | EP2/pong2/BallManager.java:213-223 | a boost leaves the primary's velocity as it was, so it moves exactly as before until it bounces; the first bounce off the left wall sets only the x velocity to the boosted speed, which breaks the diagonal, and the restore task leaves that component boosted |
| BallManager.BoostThenRestore | EP2/pong2/BallManager.java:216-223 | the restore task exactly undoes a boost applied at the default speed, and always returns the primary to the default speed |
| BallManager.BoostScenario | EP2/pong2/BallManager.java:216-219 | at speed 1.0 with factor 2.0 a boost hit gives 2.0, and the restore task gives 1.0 again |
| BallManager.DuplicatorAppends | EP2/pong2/BallManager.java:227-238 | a duplicator hit appends exactly one ball at the tail, at the primary's position and size, red, at the default speed along the drawn direction; the primary and the default speed are unchanged |
| BallManager.ExpiredRemovesOldest | EP2/pong2/BallManager.java:313-316 | the expiry task removes the head of the queue and keeps the rest; on an empty queue it does nothing |
| BallManager.ExpiryIgnoresArmer | EP2/pong2/BallManager.java:307-316 | an expiry after a later spawn removes the oldest duplicate, not the ball whose hit armed the timer |
| BallManager.DuplicateFifoScenario | EP2/pong2/BallManager.java:227-241 | spawning A, B, C and then running two expiries leaves only C |
| BallManager.MotionKeepsSpeeds | EP2/pong2/BallManager.java:150-198 | update and the wall and paddle checks keep the primary at the default or boosted speed and the duplicates at the default speed |
| BallManager.TargetKeepsSpeeds | EP2/pong2/BallManager.java:206-245 | target hits keep the primary at the default or boosted speed, never boosted twice, and add duplicates only at the default speed |
| BallManager.TimersKeepSpeeds | EP2/pong2/BallManager.java:284-324 | the restore and expiry tasks keep both speed invariants |
| BallManager.BallManager.constructor | EP2/pong2/BallManager.java:12-60 | a new manager has no primary ball, an empty queue and default speed 0 |
| BallManager.BallManager.CreateBallInstance | EP2/pong2/BallManager.java:92-109 | the ball moves along the normalized direction at `speed`, with squared velocity speed², and `defaultSpeed` becomes `speed` |
| BallManager.BallManager.InitMainBall | EP2/pong2/BallManager.java:124-127 | the primary ball is the created ball, at the default speed; the queue is unchanged |
| BallManager.BallManager.Update | EP2/pong2/BallManager.java:150-159 | the primary and every duplicate are advanced in place, in queue order |
| BallManager.BallManager.CheckWallCollision | EP2/pong2/BallManager.java:169-181 | every ball inside the wall takes the wall response; the count of such balls, primary included, is returned |
| BallManager.BallManager.CheckPlayerCollision | EP2/pong2/BallManager.java:189-198 | every ball inside the paddle takes the paddle response; the queue is otherwise untouched |
| BallManager.BallManager.CheckTargetCollision | EP2/pong2/BallManager.java:206-245 | the new state is the target effect on the primary: a guarded boost, or a duplicate appended |
| BallManager.BallManager.RestoreBoost | EP2/pong2/BallManager.java:291-293 | the primary ball's speed becomes `defaultSpeed` |
| BallManager.BallManager.ExpireOldest | EP2/pong2/BallManager.java:314-316 | the queue is polled; the primary ball and the default speed stay |
| FxBall.NextTrailShape | EP2/pong2/FxBall.java:50-65 | after a draw the queue has 20 entries ending with the current coordinate; the first draw leaves 20 copies of it; later draws drop the head and append it |
| FxBall.DrawnIsLastTwenty | EP2/pong2/FxBall.java:50-65 | after any sequence of draws the queue holds the last 20 coordinates drawn, padded at the front with the first |
| FxBall.FxBall.constructor | EP2/pong2/FxBall.java:37-39 | the ball is built as its superclass builds it; both trails are empty and `inicio` is false |
| FxBall.FxBall.Update | EP2/pong2/FxBall.java:4 | the inherited update moves the ball and leaves the trail alone |
| FxBall.FxBall.Draw | EP2/pong2/FxBall.java:45-65 | the trail queues take their next state; both have length 20 and end with the current cx and cy; `inicio` becomes true |
| FxBall.FxBall.TrailPositions | EP2/pong2/FxBall.java:67-84 | the paired walk over both queues visits each stored (x, y) pair once, in order, for as long as both queues last |
| Score.ScoreAfter | EP1/pong_incompleto/Score.java:43-46 | the score after any number of points is in the `int` range |
| Score.ScoreCountsPoints | EP1/pong_incompleto/Score.java:20-46 | after n points, n up to the largest `int`, the score is n, so it is never negative |
| Score.ScoreWrapsPastIntMax | EP1/pong_incompleto/Score.java:45 | one point past the largest `int`, the score wraps to the smallest |
| Score.Score.constructor | EP1/pong_incompleto/Score.java:20-24 | a new score is 0 and keeps the given player id |
| Score.Score.Inc | EP1/pong_incompleto/Score.java:43-46 | the score goes up by exactly 1, with wrap-around at the largest `int`; the player id is unchanged |
| Score.Score.GetScore | EP1/pong_incompleto/Score.java:54-57 | returns the score, which equals the number of points while that fits in an `int` |

## Left out

- Timer threads (`java.util.Timer`): delays and interleavings are concurrency. `RestoreBoost` and `ExpireOldest` are the two timer task bodies, callable between ticks. The model does not record which timers are armed, so it does not model `BOOST_DURATION` or `EXTRA_BALL_DURATION`.
- Reflection (`Class.forName`, `getConstructors()[0]`, the fallback `catch` blocks): these are runtime calls. The constructor takes no class name, and ball creation always takes the success path. On the fallback path the source does not set `defaultSpeed`; that path is not modelled.
- `java.util.Random`: the first version's draw `nextInt(4)` is the `randomNum` argument of the ball's constructor.
- `Math.random`: the duplicator's direction is the `(vx, vy)` argument, with `0.85 <= |vx| < 1`, `vy >= 0` and `vx² + vy² = 1`.
- `Math.sqrt`: its result is the `len` argument, with `len > 0` and `len² = x² + y²`.
- IEEE doubles: values are `real`. NaN from `normalize(0, 0)` and rounding in `getSpeed() == defaultSpeed` are not modelled. The `long` to `double` conversion of `delta / 2` is taken as exact.
- Drawing: `Ball.draw`, `BallManager.draw`, the rendering calls in `FxBall.draw` with its `refinador` trail heights, and `Score.draw`, which compares strings by reference.
- The commented-out iterator loop in `BallManager.checkCollision(Target)`, and the unused `iteratorBalls` field: dead code.
- `System.out.println` diagnostics.
- Aliasing: the manager owns its balls exclusively, so they are held as values. An outside reference to a managed ball is not modelled.
- Calling a manager method before `initMainBall` throws `NullPointerException` in the source. The model requires the primary ball to exist instead.
- BallManager.BallManager.CheckTargetCollision: the model does not promise that a boost makes the ball faster for `BOOST_DURATION`. With `setSpeed` assumed to change only the base speed, a boost leaves the velocity alone (`BoostKeepsMotion`). Each axis takes the boosted speed at its next bounce and keeps it until the first bounce on that axis after the restore. A boosted or bounced primary, and a duplicate (whose velocity is the drawn direction times the speed), need not keep `|speedX| = |speedY| = speed`.
- BallManager.BallManager.CheckWallCollision: the `int` counter `hits` is not wrapped. It would only overflow with more than 2^31 balls.
- The second version's `Ball.java`, `IBall.java`, `Wall.java`, `Player.java`, `Target.java`, `BoostTarget.java`, `DuplicatorTarget.java` and `GameLib.java` are not part of this model. The model assumes the following about them:
  - A ball built from a unit direction has velocity `speed * direction` (`Launch`).
  - `update` and the wall and paddle responses behave as in the first version's `Ball`.
  - `setSpeed` changes only the speed.
  - `checkCollision(Target)` is the same strict test against the `(int)`-cast bounds and has no side effect.
  - `BOOST_FACTOR` is a constructor argument of the manager.
