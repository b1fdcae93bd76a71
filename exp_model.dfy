/** The exponential function, taken abstractly.
    Dafny's reals have no `exp`, so every member that needs it receives it as a
    parameter `E` and requires the properties of `exp` it relies on: `IsExp(E)`
    for all three, or just `Positive(E)` where positivity is enough. */
module ExpModel {

  /** `E` is positive, strictly increasing, and `E(-x) * E(x) == 1`. */
  ghost predicate IsExp(E: real -> real) {
    Positive(E) && Increasing(E) && InverseOfNegation(E)
  }

  ghost predicate Positive(E: real -> real) {
    forall x :: E(x) > 0.0
  }

  ghost predicate Increasing(E: real -> real) {
    forall x, y :: x < y ==> E(x) < E(y)
  }

  ghost predicate InverseOfNegation(E: real -> real) {
    forall x, y :: x + y == 0.0 ==> E(x) * E(y) == 1.0
  }

  /** exp(0) is 1: the only positive number that is its own inverse. */
  lemma ExpZero(E: real -> real)
    requires IsExp(E)
    ensures E(0.0) == 1.0
  {
    SelfInverseIsOne(E(0.0));
  }

  lemma SelfInverseIsOne(e: real)
    requires e > 0.0 && e * e == 1.0
    ensures e == 1.0
  {
  }

  /** A piecewise-rational stand-in for exp: 1 + x on the right of 0 and
      1 / (1 - x) on the left. It is used only to show that `IsExp` can hold,
      so that nothing in the model rests on contradictory assumptions. */
  function Surrogate(x: real): real {
    if x >= 0.0 then 1.0 + x else 1.0 / (1.0 - x)
  }

  lemma SurrogateIsExp()
    ensures IsExp(Surrogate)
  {
    SurrogateAllPositive();
    SurrogateAllIncreasing();
    SurrogateAllInverse();
  }

  lemma SurrogateAllPositive()
    ensures Positive(Surrogate)
  {
    forall x ensures Surrogate(x) > 0.0 {
      SurrogatePositive(x);
    }
  }

  lemma SurrogateAllIncreasing()
    ensures Increasing(Surrogate)
  {
    forall x, y | x < y ensures Surrogate(x) < Surrogate(y) {
      SurrogateIncreasing(x, y);
    }
  }

  lemma SurrogateAllInverse()
    ensures InverseOfNegation(Surrogate)
  {
    forall x, y | x + y == 0.0 ensures Surrogate(x) * Surrogate(y) == 1.0 {
      SurrogateInverse(x, y);
    }
  }

  lemma SurrogatePositive(x: real)
    ensures Surrogate(x) > 0.0
  {
  }

  lemma SurrogateIncreasing(x: real, y: real)
    requires x < y
    ensures Surrogate(x) < Surrogate(y)
  {
    if y < 0.0 {
      ReciprocalDecreasing(1.0 - y, 1.0 - x);
    } else if x < 0.0 {
      ReciprocalDecreasing(1.0, 1.0 - x);
    }
  }

  lemma SurrogateInverse(x: real, y: real)
    requires x + y == 0.0
    ensures Surrogate(x) * Surrogate(y) == 1.0
  {
  }

  lemma ReciprocalDecreasing(u: real, v: real)
    requires 0.0 < u < v
    ensures 1.0 / v < 1.0 / u
  {
  }
}
