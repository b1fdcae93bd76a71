/** What the estimation step guarantees, proved about the specification
    functions of module Estimator (and so about the methods that are proved
    to compute them). */
module EstimatorProperties {
  import opened ExpModel
  import opened RaschProbability
  import opened Estimator

  /** A person who answered every one of `m > 0` items correctly has a
      strictly positive gradient. */
  lemma {:induction false} AbilityGradientAllCorrect(E: real -> real, row: seq<int>, theta: real, b: seq<real>, m: nat)
    requires Positive(E)
    requires 0 < m <= |row| && m <= |b|
    requires forall j :: 0 <= j < m ==> row[j] == 1
    ensures AbilityGradient(E, row, theta, b, m) > 0.0
  {
    if m > 1 {
      AbilityGradientAllCorrect(E, row, theta, b, m - 1);
    }
  }

  /** A person who answered every one of `m > 0` items incorrectly has a
      strictly negative gradient. */
  lemma {:induction false} AbilityGradientAllIncorrect(E: real -> real, row: seq<int>, theta: real, b: seq<real>, m: nat)
    requires Positive(E)
    requires 0 < m <= |row| && m <= |b|
    requires forall j :: 0 <= j < m ==> row[j] == 0
    ensures AbilityGradient(E, row, theta, b, m) < 0.0
  {
    if m > 1 {
      AbilityGradientAllIncorrect(E, row, theta, b, m - 1);
    }
  }

  /** With 0/1 answers, the gradient of `m` items lies strictly between -m and m
      (and is 0 when there are no items). */
  lemma {:induction false} AbilityGradientBounded(E: real -> real, row: seq<int>, theta: real, b: seq<real>, m: nat)
    requires Positive(E)
    requires m <= |row| && m <= |b|
    requires forall j :: 0 <= j < m ==> row[j] == 0 || row[j] == 1
    ensures m == 0 ==> AbilityGradient(E, row, theta, b, m) == 0.0
    ensures m > 0 ==> -(m as real) < AbilityGradient(E, row, theta, b, m) < m as real
  {
    if m > 0 {
      AbilityGradientBounded(E, row, theta, b, m - 1);
    }
  }

  /** An item that every one of `n > 0` persons answered correctly has a
      strictly negative gradient. */
  lemma {:induction false} DifficultyGradientAllCorrect(E: real -> real, responses: seq<seq<int>>, theta: seq<real>,
                                                       bj: real, j: nat, n: nat)
    requires Positive(E)
    requires 0 < n <= |theta| && Covers(responses, n, j + 1)
    requires forall i :: 0 <= i < n ==> responses[i][j] == 1
    ensures DifficultyGradient(E, responses, theta, bj, j, n) < 0.0
  {
    if n > 1 {
      DifficultyGradientAllCorrect(E, responses, theta, bj, j, n - 1);
    }
  }

  /** An item that every one of `n > 0` persons answered incorrectly has a
      strictly positive gradient. */
  lemma {:induction false} DifficultyGradientAllIncorrect(E: real -> real, responses: seq<seq<int>>, theta: seq<real>,
                                                         bj: real, j: nat, n: nat)
    requires Positive(E)
    requires 0 < n <= |theta| && Covers(responses, n, j + 1)
    requires forall i :: 0 <= i < n ==> responses[i][j] == 0
    ensures DifficultyGradient(E, responses, theta, bj, j, n) > 0.0
  {
    if n > 1 {
      DifficultyGradientAllIncorrect(E, responses, theta, bj, j, n - 1);
    }
  }

  /** With a positive learning rate and at least one item, the ability phase
      strictly raises the ability of a person whose row is all 1s and strictly
      lowers that of a person whose row is all 0s. */
  lemma AbilityStepSign(E: real -> real, theta: seq<real>, responses: seq<seq<int>>, b: seq<real>,
                        learningRate: real, nbPersons: nat, nbResponses: nat, i: nat)
    requires Positive(E)
    requires nbPersons <= |theta| && nbResponses <= |b| && Covers(responses, nbPersons, nbResponses)
    requires learningRate > 0.0 && 0 < nbResponses && i < nbPersons
    ensures (forall j :: 0 <= j < nbResponses ==> responses[i][j] == 1) ==>
              AbilityPhase(E, theta, responses, b, learningRate, nbPersons, nbResponses)[i] > theta[i]
    ensures (forall j :: 0 <= j < nbResponses ==> responses[i][j] == 0) ==>
              AbilityPhase(E, theta, responses, b, learningRate, nbPersons, nbResponses)[i] < theta[i]
  {
    var g := AbilityGradient(E, responses[i], theta[i], b, nbResponses);
    if forall j :: 0 <= j < nbResponses ==> responses[i][j] == 1 {
      AbilityGradientAllCorrect(E, responses[i], theta[i], b, nbResponses);
      assert learningRate * g > 0.0;
    }
    if forall j :: 0 <= j < nbResponses ==> responses[i][j] == 0 {
      AbilityGradientAllIncorrect(E, responses[i], theta[i], b, nbResponses);
      assert learningRate * g < 0.0;
    }
  }

  /** With a positive learning rate and at least one person, the difficulty
      phase strictly lowers the difficulty of an item everybody answered
      correctly and strictly raises that of an item nobody answered correctly. */
  lemma DifficultyStepSign(E: real -> real, b: seq<real>, responses: seq<seq<int>>, theta: seq<real>,
                           learningRate: real, nbPersons: nat, nbResponses: nat, j: nat)
    requires Positive(E)
    requires nbPersons <= |theta| && nbResponses <= |b| && Covers(responses, nbPersons, nbResponses)
    requires learningRate > 0.0 && 0 < nbPersons && j < nbResponses
    ensures (forall i :: 0 <= i < nbPersons ==> responses[i][j] == 1) ==>
              DifficultyPhase(E, b, responses, theta, learningRate, nbPersons, nbResponses)[j] < b[j]
    ensures (forall i :: 0 <= i < nbPersons ==> responses[i][j] == 0) ==>
              DifficultyPhase(E, b, responses, theta, learningRate, nbPersons, nbResponses)[j] > b[j]
  {
    var g := DifficultyGradient(E, responses, theta, b[j], j, nbPersons);
    if forall i :: 0 <= i < nbPersons ==> responses[i][j] == 1 {
      DifficultyGradientAllCorrect(E, responses, theta, b[j], j, nbPersons);
      assert learningRate * g < 0.0;
    }
    if forall i :: 0 <= i < nbPersons ==> responses[i][j] == 0 {
      DifficultyGradientAllIncorrect(E, responses, theta, b[j], j, nbPersons);
      assert learningRate * g > 0.0;
    }
  }

  /** A person's new ability depends on no other person's old ability. */
  lemma AbilityUpdateIsLocal(E: real -> real, theta1: seq<real>, theta2: seq<real>, responses: seq<seq<int>>,
                             b: seq<real>, learningRate: real, nbPersons: nat, nbResponses: nat, i: nat)
    requires Positive(E)
    requires |theta1| == |theta2| && nbPersons <= |theta1| && nbResponses <= |b|
    requires Covers(responses, nbPersons, nbResponses)
    requires i < |theta1| && theta1[i] == theta2[i]
    ensures AbilityPhase(E, theta1, responses, b, learningRate, nbPersons, nbResponses)[i]
         == AbilityPhase(E, theta2, responses, b, learningRate, nbPersons, nbResponses)[i]
  {
  }

  /** An item's new difficulty depends on no other item's old difficulty. */
  lemma DifficultyUpdateIsLocal(E: real -> real, b1: seq<real>, b2: seq<real>, responses: seq<seq<int>>,
                                theta: seq<real>, learningRate: real, nbPersons: nat, nbResponses: nat, j: nat)
    requires Positive(E)
    requires |b1| == |b2| && nbResponses <= |b1| && nbPersons <= |theta|
    requires Covers(responses, nbPersons, nbResponses)
    requires j < |b1| && b1[j] == b2[j]
    ensures DifficultyPhase(E, b1, responses, theta, learningRate, nbPersons, nbResponses)[j]
         == DifficultyPhase(E, b2, responses, theta, learningRate, nbPersons, nbResponses)[j]
  {
  }

  /** The difficulty phase really reads the abilities the ability phase has
      just written: on one person who answered one item correctly, starting
      from zeros, a round does not give the difficulty that a simultaneous
      update from the shared starting snapshot would give. */
  lemma RoundIsNotSimultaneous(E: real -> real, learningRate: real)
    requires IsExp(E)
    requires learningRate > 0.0
    ensures Round(E, [0.0], [0.0], [[1]], learningRate, 1, 1).1
         != DifficultyPhase(E, [0.0], [[1]], [0.0], learningRate, 1, 1)
  {
    ExpZero(E);
    var half := Probability(E, 0.0, 0.0);
    assert half == 0.5;
    var theta' := AbilityPhase(E, [0.0], [[1]], [0.0], learningRate, 1, 1);
    assert theta'[0] == learningRate * (1.0 - half);
    ProbabilityIncreasingInAbility(E, 0.0, theta'[0], 0.0);
    var sequential := DifficultyPhase(E, [0.0], [[1]], theta', learningRate, 1, 1);
    var simultaneous := DifficultyPhase(E, [0.0], [[1]], [0.0], learningRate, 1, 1);
    assert Round(E, [0.0], [0.0], [[1]], learningRate, 1, 1).1 == sequential;
    assert DifficultyGradient(E, [[1]], theta', 0.0, 0, 1) == Probability(E, theta'[0], 0.0) - 1.0;
    assert sequential[0] == learningRate * (Probability(E, theta'[0], 0.0) - 1.0);
    assert simultaneous[0] == learningRate * (half - 1.0);
    assert sequential[0] > simultaneous[0];
  }

  /** Every entry of `s` moved by `c`. */
  function Shifted(s: seq<real>, c: real): seq<real> {
    seq(|s|, i requires 0 <= i < |s| => s[i] + c)
  }

  lemma {:induction false} AbilityGradientShift(E: real -> real, row: seq<int>, theta: real, b: seq<real>, m: nat, c: real)
    requires Positive(E)
    requires m <= |row| && m <= |b|
    ensures AbilityGradient(E, row, theta + c, Shifted(b, c), m) == AbilityGradient(E, row, theta, b, m)
  {
    if m > 0 {
      AbilityGradientShift(E, row, theta, b, m - 1, c);
      ProbabilityShift(E, theta, b[m - 1], c);
    }
  }

  lemma {:induction false} DifficultyGradientShift(E: real -> real, responses: seq<seq<int>>, theta: seq<real>,
                                                  bj: real, j: nat, n: nat, c: real)
    requires Positive(E)
    requires n <= |theta| && Covers(responses, n, j + 1)
    ensures DifficultyGradient(E, responses, Shifted(theta, c), bj + c, j, n)
         == DifficultyGradient(E, responses, theta, bj, j, n)
  {
    if n > 0 {
      DifficultyGradientShift(E, responses, theta, bj, j, n - 1, c);
      ProbabilityShift(E, theta[n - 1], bj, c);
    }
  }

  lemma AbilityEntryShift(E: real -> real, theta: seq<real>, responses: seq<seq<int>>, b: seq<real>,
                          learningRate: real, nbPersons: nat, nbResponses: nat, c: real, i: nat)
    requires Positive(E)
    requires nbPersons <= |theta| && nbResponses <= |b| && Covers(responses, nbPersons, nbResponses)
    requires i < |theta|
    ensures NewAbility(E, Shifted(theta, c), responses, Shifted(b, c), learningRate, nbPersons, nbResponses, i)
         == NewAbility(E, theta, responses, b, learningRate, nbPersons, nbResponses, i) + c
  {
    assert Shifted(theta, c)[i] == theta[i] + c;
    if i < nbPersons {
      AbilityGradientShift(E, responses[i], theta[i], b, nbResponses, c);
    }
  }

  /** The ability phase commutes with a common shift. */
  lemma AbilityPhaseShift(E: real -> real, theta: seq<real>, responses: seq<seq<int>>, b: seq<real>,
                          learningRate: real, nbPersons: nat, nbResponses: nat, c: real)
    requires Positive(E)
    requires nbPersons <= |theta| && nbResponses <= |b| && Covers(responses, nbPersons, nbResponses)
    ensures AbilityPhase(E, Shifted(theta, c), responses, Shifted(b, c), learningRate, nbPersons, nbResponses)
         == Shifted(AbilityPhase(E, theta, responses, b, learningRate, nbPersons, nbResponses), c)
  {
    var before := AbilityPhase(E, theta, responses, b, learningRate, nbPersons, nbResponses);
    var after := AbilityPhase(E, Shifted(theta, c), responses, Shifted(b, c), learningRate, nbPersons, nbResponses);
    forall i | 0 <= i < |theta|
      ensures after[i] == Shifted(before, c)[i]
    {
      AbilityEntryShift(E, theta, responses, b, learningRate, nbPersons, nbResponses, c, i);
    }
  }

  lemma DifficultyEntryShift(E: real -> real, b: seq<real>, responses: seq<seq<int>>, theta: seq<real>,
                             learningRate: real, nbPersons: nat, nbResponses: nat, c: real, j: nat)
    requires Positive(E)
    requires nbPersons <= |theta| && nbResponses <= |b| && Covers(responses, nbPersons, nbResponses)
    requires j < |b|
    ensures NewDifficulty(E, Shifted(b, c), responses, Shifted(theta, c), learningRate, nbPersons, nbResponses, j)
         == NewDifficulty(E, b, responses, theta, learningRate, nbPersons, nbResponses, j) + c
  {
    assert Shifted(b, c)[j] == b[j] + c;
    if j < nbResponses {
      DifficultyGradientShift(E, responses, theta, b[j], j, nbPersons, c);
    }
  }

  /** The difficulty phase commutes with a common shift. */
  lemma DifficultyPhaseShift(E: real -> real, b: seq<real>, responses: seq<seq<int>>, theta: seq<real>,
                             learningRate: real, nbPersons: nat, nbResponses: nat, c: real)
    requires Positive(E)
    requires nbPersons <= |theta| && nbResponses <= |b| && Covers(responses, nbPersons, nbResponses)
    ensures DifficultyPhase(E, Shifted(b, c), responses, Shifted(theta, c), learningRate, nbPersons, nbResponses)
         == Shifted(DifficultyPhase(E, b, responses, theta, learningRate, nbPersons, nbResponses), c)
  {
    var before := DifficultyPhase(E, b, responses, theta, learningRate, nbPersons, nbResponses);
    var after := DifficultyPhase(E, Shifted(b, c), responses, Shifted(theta, c), learningRate, nbPersons, nbResponses);
    forall j | 0 <= j < |b|
      ensures after[j] == Shifted(before, c)[j]
    {
      DifficultyEntryShift(E, b, responses, theta, learningRate, nbPersons, nbResponses, c, j);
    }
  }

  /** One round commutes with a common shift of abilities and difficulties. */
  lemma RoundShift(E: real -> real, theta: seq<real>, b: seq<real>, responses: seq<seq<int>>,
                   learningRate: real, nbPersons: nat, nbResponses: nat, c: real)
    requires Positive(E)
    requires nbPersons <= |theta| && nbResponses <= |b| && Covers(responses, nbPersons, nbResponses)
    ensures var r := Round(E, theta, b, responses, learningRate, nbPersons, nbResponses);
            Round(E, Shifted(theta, c), Shifted(b, c), responses, learningRate, nbPersons, nbResponses)
              == (Shifted(r.0, c), Shifted(r.1, c))
  {
    AbilityPhaseShift(E, theta, responses, b, learningRate, nbPersons, nbResponses, c);
    var theta' := AbilityPhase(E, theta, responses, b, learningRate, nbPersons, nbResponses);
    DifficultyPhaseShift(E, b, responses, theta', learningRate, nbPersons, nbResponses, c);
  }

  /** The model is identified only up to a common shift: running `k` rounds
      from shifted vectors gives the shifted result. */
  lemma {:induction false} RoundsShift(E: real -> real, theta: seq<real>, b: seq<real>, responses: seq<seq<int>>,
                                       learningRate: real, nbPersons: nat, nbResponses: nat, k: nat, c: real)
    requires Positive(E)
    requires nbPersons <= |theta| && nbResponses <= |b| && Covers(responses, nbPersons, nbResponses)
    ensures var r := Rounds(E, theta, b, responses, learningRate, nbPersons, nbResponses, k);
            Rounds(E, Shifted(theta, c), Shifted(b, c), responses, learningRate, nbPersons, nbResponses, k)
              == (Shifted(r.0, c), Shifted(r.1, c))
  {
    if k > 0 {
      RoundsShift(E, theta, b, responses, learningRate, nbPersons, nbResponses, k - 1, c);
      var prev := Rounds(E, theta, b, responses, learningRate, nbPersons, nbResponses, k - 1);
      RoundShift(E, prev.0, prev.1, responses, learningRate, nbPersons, nbResponses, c);
    }
  }
}
