/** The Rasch (one-parameter logistic) success probability of run.php's
    `raschProbability`: exp(theta - b) / (1 + exp(theta - b)). */
module RaschProbability {
  import opened ExpModel

  /** Probability that a person of ability `theta` answers an item of
      difficulty `b` correctly. It lies strictly inside (0, 1). */
  function Probability(E: real -> real, theta: real, b: real): (p: real)
    requires Positive(E)
    ensures 0.0 < p < 1.0
  {
    var e := E(theta - b);
    assert e > 0.0;
    e / (1.0 + e)
  }

  /** The code's form equals the textbook logistic form 1 / (1 + exp(-(theta - b))). */
  lemma ProbabilityIsLogistic(E: real -> real, theta: real, b: real)
    requires IsExp(E)
    ensures Probability(E, theta, b) == 1.0 / (1.0 + E(b - theta))
  {
    var e, f := E(theta - b), E(b - theta);
    assert e * f == 1.0 && e > 0.0 && f > 0.0;
    RatioOfInverse(e, f);
  }

  /** Swapping ability and difficulty gives the complementary probability. */
  lemma ProbabilityComplement(E: real -> real, t: real, b: real)
    requires IsExp(E)
    ensures Probability(E, t, b) + Probability(E, b, t) == 1.0
  {
    var e, f := E(t - b), E(b - t);
    assert e * f == 1.0 && e > 0.0 && f > 0.0;
    RatioOfInverse(e, f);
    assert Probability(E, b, t) == f / (1.0 + f);
    assert f / (1.0 + f) == (1.0 + f - 1.0) / (1.0 + f);
  }

  /** Strictly increasing in the ability. */
  lemma ProbabilityIncreasingInAbility(E: real -> real, t1: real, t2: real, b: real)
    requires IsExp(E)
    requires t1 < t2
    ensures Probability(E, t1, b) < Probability(E, t2, b)
  {
    assert t1 - b < t2 - b;
    RatioIncreasing(E(t1 - b), E(t2 - b));
  }

  /** Strictly decreasing in the difficulty. */
  lemma ProbabilityDecreasingInDifficulty(E: real -> real, t: real, b1: real, b2: real)
    requires IsExp(E)
    requires b1 < b2
    ensures Probability(E, t, b2) < Probability(E, t, b1)
  {
    assert t - b2 < t - b1;
    RatioIncreasing(E(t - b2), E(t - b1));
  }

  /** Only the gap theta - b matters: a common shift changes nothing. */
  lemma ProbabilityShift(E: real -> real, t: real, b: real, c: real)
    requires Positive(E)
    ensures Probability(E, t + c, b + c) == Probability(E, t, b)
  {
    assert (t + c) - (b + c) == t - b;
  }

  lemma RatioOfInverse(e: real, f: real)
    requires e > 0.0 && f > 0.0 && e * f == 1.0
    ensures e / (1.0 + e) == 1.0 / (1.0 + f)
  {
    assert e * (1.0 + f) == e + 1.0;
    assert e / (1.0 + e) == e * (1.0 + f) / ((1.0 + e) * (1.0 + f));
  }

  lemma RatioIncreasing(x: real, y: real)
    requires 0.0 < x < y
    ensures x / (1.0 + x) < y / (1.0 + y)
  {
    ReciprocalDecreasing(1.0 + x, 1.0 + y);
    assert x / (1.0 + x) == 1.0 - 1.0 / (1.0 + x);
    assert y / (1.0 + y) == 1.0 - 1.0 / (1.0 + y);
  }
}
