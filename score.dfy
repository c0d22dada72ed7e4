// A player's score (EP1/pong_incompleto/Score.java): a Java `int` counter
// that starts at 0 and goes up by one per point.
module Score {
  import opened JavaNum

  /** The score after `n` points from a fresh counter, with Java `int` wrap-around. */
  function ScoreAfter(n: nat): (s: int)
    ensures IsInt(s)
  {
    if n == 0 then 0 else IntIncrement(ScoreAfter(n - 1))
  }

  /** Up to the largest `int`, the score counts the points exactly, so it is never negative. */
  lemma {:induction false} ScoreCountsPoints(n: nat)
    requires n <= INT_MAX
    ensures ScoreAfter(n) == n
  {
    if n > 0 {
      ScoreCountsPoints(n - 1);
    }
  }

  /** One point past the largest `int`, the counter wraps to the smallest. */
  lemma ScoreWrapsPastIntMax()
    ensures ScoreAfter(INT_MAX + 1) == INT_MIN
  {
    ScoreCountsPoints(INT_MAX);
  }

  class Score {
    var playerId: string
    var score: int
    /** The number of `Inc` calls so far. */
    ghost var points: nat

    ghost predicate Valid()
      reads this
    {
      score == ScoreAfter(points)
    }

    constructor (playerId: string)
      ensures Valid()
      ensures this.playerId == playerId && score == 0 && points == 0
    {
      this.playerId := playerId;
      score := 0;
      points := 0;
    }

    method Inc()
      requires Valid()
      modifies this
      ensures Valid()
      ensures points == old(points) + 1 && playerId == old(playerId)
      ensures score == IntIncrement(old(score))
      ensures old(score) < INT_MAX ==> score == old(score) + 1
    {
      score := IntIncrement(score);
      points := points + 1;
    }

    method GetScore() returns (s: int)
      requires Valid()
      ensures s == score
      ensures points <= INT_MAX ==> s == points
    {
      if points <= INT_MAX {
        ScoreCountsPoints(points);
      }
      return score;
    }
  }
}
