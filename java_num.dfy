// Java numeric and collection semantics that the game code relies on:
// 32- and 64-bit integer ranges, `long` division, the `(int)` cast of a
// double, `int` wrap-around on `+= 1`, `Queue.poll` and `null`.
module JavaNum {

  const INT_MIN: int := -0x8000_0000
  const INT_MAX: int := 0x7fff_ffff
  const LONG_MIN: int := -0x8000_0000_0000_0000
  const LONG_MAX: int := 0x7fff_ffff_ffff_ffff

  predicate IsInt(x: int) { INT_MIN <= x <= INT_MAX }
  predicate IsLong(x: int) { LONG_MIN <= x <= LONG_MAX }

  /** A reference that may be `null`. */
  datatype Option<T> = None | Some(value: T)

  /** `Math.abs` on a double. */
  function Abs(x: real): (r: real)
    ensures r >= 0.0 && (r == x || r == -x)
  {
    if x < 0.0 then -x else x
  }

  /** `d / 2` on a `long`: Java rounds the quotient toward zero. */
  function HalfOf(d: int): (h: int)
    ensures d >= 0 ==> 0 <= d - 2 * h <= 1
    ensures d < 0 ==> -1 <= d - 2 * h <= 0
  {
    if d >= 0 then d / 2 else -((-d) / 2)
  }

  /** The integer part of `x`, rounded toward zero. */
  function Trunc(x: real): (n: int)
    ensures x >= 0.0 ==> 0.0 <= n as real <= x < n as real + 1.0
    ensures x < 0.0 ==> n as real - 1.0 < x <= n as real <= 0.0
  {
    if x >= 0.0 then x.Floor else -((-x).Floor)
  }

  /**
   * The `(int)` cast of a double (section 5.1.3 of the Java Language
   * Specification): rounds toward zero and saturates at the `int` range.
   * NaN is not a real number and is not modelled.
   */
  function IntCast(x: real): (n: int)
    ensures IsInt(n)
    ensures Abs(n as real) <= Abs(x)
    ensures (x >= 0.0 ==> n >= 0) && (x <= 0.0 ==> n <= 0)
    ensures INT_MIN as real - 1.0 < x < INT_MAX as real + 1.0 ==> Abs(x - n as real) < 1.0
    ensures x >= INT_MAX as real ==> n == INT_MAX
    ensures x <= INT_MIN as real ==> n == INT_MIN
  {
    if x >= INT_MAX as real then INT_MAX
    else if x <= INT_MIN as real then INT_MIN
    else Trunc(x)
  }

  /** `x += 1` on a Java `int`: the sum taken modulo 2^32 in the `int` range. */
  function IntIncrement(x: int): (r: int)
    requires IsInt(x)
    ensures IsInt(r)
    ensures (r - (x + 1)) % 0x1_0000_0000 == 0
  {
    if x == INT_MAX then INT_MIN else x + 1
  }

  /** What `Queue.poll` leaves in the queue: the head removed, or nothing on an empty queue. */
  function Poll<T>(q: seq<T>): (r: seq<T>)
    ensures q == [] ==> r == []
    ensures q != [] ==> [q[0]] + r == q
  {
    if q == [] then [] else q[1..]
  }

  /** `n` calls to `poll` in a row. */
  function PollTimes<T>(q: seq<T>, n: nat): seq<T>
  {
    if n == 0 then q else PollTimes(Poll(q), n - 1)
  }

  /** Repeated polls remove the oldest entries first, and keep the rest in order. */
  lemma {:induction false} PollTimesDropsOldest<T>(q: seq<T>, n: nat)
    ensures n <= |q| ==> PollTimes(q, n) == q[n..]
    ensures n > |q| ==> PollTimes(q, n) == []
  {
    if n == 0 {
    } else if q == [] {
      PollTimesDropsOldest(q, n - 1);
      assert PollTimes(q, n) == PollTimes(q, n - 1);
    } else {
      var rest := q[1..];
      assert Poll(q) == rest && |rest| == |q| - 1;
      PollTimesDropsOldest(rest, n - 1);
      assert PollTimes(q, n) == PollTimes(rest, n - 1);
      if n <= |q| {
        assert rest[n - 1..] == q[n..];
      }
    }
  }

  /** An element added at the tail is not what the next poll removes, unless the queue was empty. */
  lemma PollAfterAdd<T>(q: seq<T>, x: T)
    requires q != []
    ensures Poll(q + [x]) == Poll(q) + [x]
  {
    assert (q + [x])[1..] == q[1..] + [x];
  }
}
