/** Parameter estimation of run.php: the ability phase `updateThetas`, the
    difficulty phase `updateDifficulties` and the fixed-count loop that runs
    them one after the other.

    Each phase is specified by a function on sequences (`AbilityPhase`,
    `DifficultyPhase`) built from a left-to-right gradient sum; the methods
    update their array in place and are proved to produce exactly that
    function of the old contents. */
module Estimator {
  import opened ExpModel
  import opened RaschProbability

  /** The first `nbPersons` rows exist and each holds at least `nbResponses`
      entries: every `responses[i][j]` the loops read is defined. */
  predicate Covers(responses: seq<seq<int>>, nbPersons: nat, nbResponses: nat) {
    nbPersons <= |responses| && forall i :: 0 <= i < nbPersons ==> nbResponses <= |responses[i]|
  }

  /** Σ_{j < m} (row[j] - p(theta, b[j])), accumulated left to right. */
  function AbilityGradient(E: real -> real, row: seq<int>, theta: real, b: seq<real>, m: nat): real
    requires Positive(E)
    requires m <= |row| && m <= |b|
  {
    if m == 0 then 0.0
    else AbilityGradient(E, row, theta, b, m - 1) + (row[m - 1] as real - Probability(E, theta, b[m - 1]))
  }

  /** Σ_{i < n} (p(theta[i], bj) - responses[i][j]), accumulated left to right. */
  function DifficultyGradient(E: real -> real, responses: seq<seq<int>>, theta: seq<real>, bj: real, j: nat, n: nat): real
    requires Positive(E)
    requires n <= |theta| && Covers(responses, n, j + 1)
  {
    if n == 0 then 0.0
    else DifficultyGradient(E, responses, theta, bj, j, n - 1) + (Probability(E, theta[n - 1], bj) - responses[n - 1][j] as real)
  }

  /** Person `i`'s ability after the ability phase: one gradient step for
      the first `nbPersons` persons, unchanged for the others. */
  function NewAbility(E: real -> real, theta: seq<real>, responses: seq<seq<int>>, b: seq<real>,
                      learningRate: real, nbPersons: nat, nbResponses: nat, i: nat): real
    requires Positive(E)
    requires nbPersons <= |theta| && nbResponses <= |b| && Covers(responses, nbPersons, nbResponses)
    requires i < |theta|
  {
    if i < nbPersons then theta[i] + learningRate * AbilityGradient(E, responses[i], theta[i], b, nbResponses)
    else theta[i]
  }

  /** The ability vector after one ability phase against the fixed difficulties `b`. */
  function AbilityPhase(E: real -> real, theta: seq<real>, responses: seq<seq<int>>, b: seq<real>,
                        learningRate: real, nbPersons: nat, nbResponses: nat): seq<real>
    requires Positive(E)
    requires nbPersons <= |theta| && nbResponses <= |b| && Covers(responses, nbPersons, nbResponses)
  {
    seq(|theta|, i requires 0 <= i < |theta| =>
      NewAbility(E, theta, responses, b, learningRate, nbPersons, nbResponses, i))
  }

  /** Item `j`'s difficulty after the difficulty phase: one gradient step for
      the first `nbResponses` items, unchanged for the others. */
  function NewDifficulty(E: real -> real, b: seq<real>, responses: seq<seq<int>>, theta: seq<real>,
                         learningRate: real, nbPersons: nat, nbResponses: nat, j: nat): real
    requires Positive(E)
    requires nbPersons <= |theta| && nbResponses <= |b| && Covers(responses, nbPersons, nbResponses)
    requires j < |b|
  {
    if j < nbResponses then b[j] + learningRate * DifficultyGradient(E, responses, theta, b[j], j, nbPersons)
    else b[j]
  }

  /** The difficulty vector after one difficulty phase against the abilities `theta`. */
  function DifficultyPhase(E: real -> real, b: seq<real>, responses: seq<seq<int>>, theta: seq<real>,
                           learningRate: real, nbPersons: nat, nbResponses: nat): seq<real>
    requires Positive(E)
    requires nbPersons <= |theta| && nbResponses <= |b| && Covers(responses, nbPersons, nbResponses)
  {
    seq(|b|, j requires 0 <= j < |b| =>
      NewDifficulty(E, b, responses, theta, learningRate, nbPersons, nbResponses, j))
  }

  /** One iteration of the outer loop: the ability phase against the current
      difficulties, then the difficulty phase against the NEW abilities. */
  function Round(E: real -> real, theta: seq<real>, b: seq<real>, responses: seq<seq<int>>,
                 learningRate: real, nbPersons: nat, nbResponses: nat): (seq<real>, seq<real>)
    requires Positive(E)
    requires nbPersons <= |theta| && nbResponses <= |b| && Covers(responses, nbPersons, nbResponses)
  {
    var theta' := AbilityPhase(E, theta, responses, b, learningRate, nbPersons, nbResponses);
    (theta', DifficultyPhase(E, b, responses, theta', learningRate, nbPersons, nbResponses))
  }

  /** `k` rounds in sequence; both vectors keep their lengths throughout. */
  function Rounds(E: real -> real, theta: seq<real>, b: seq<real>, responses: seq<seq<int>>,
                  learningRate: real, nbPersons: nat, nbResponses: nat, k: nat): (r: (seq<real>, seq<real>))
    requires Positive(E)
    requires nbPersons <= |theta| && nbResponses <= |b| && Covers(responses, nbPersons, nbResponses)
    ensures |r.0| == |theta| && |r.1| == |b|
  {
    if k == 0 then (theta, b)
    else
      var prev := Rounds(E, theta, b, responses, learningRate, nbPersons, nbResponses, k - 1);
      Round(E, prev.0, prev.1, responses, learningRate, nbPersons, nbResponses)
  }

  /** The inner loop of `updateThetas`: accumulates one person's gradient
      over the first `m` items, left to right. */
  method SumAbilityGradient(E: real -> real, row: seq<int>, theta: real, b: seq<real>, m: nat) returns (grad: real)
    requires Positive(E)
    requires m <= |row| && m <= |b|
    ensures grad == AbilityGradient(E, row, theta, b, m)
  {
    grad := 0.0;
    for j := 0 to m
      invariant grad == AbilityGradient(E, row, theta, b, j)
    {
      var p := Probability(E, theta, b[j]);
      grad := grad + (row[j] as real - p);
    }
  }

  /** The inner loop of `updateDifficulties`: accumulates item `j`'s gradient
      over the first `n` persons, left to right. */
  method SumDifficultyGradient(E: real -> real, responses: seq<seq<int>>, theta: seq<real>, bj: real, j: nat, n: nat)
    returns (grad: real)
    requires Positive(E)
    requires n <= |theta| && Covers(responses, n, j + 1)
    ensures grad == DifficultyGradient(E, responses, theta, bj, j, n)
  {
    grad := 0.0;
    for i := 0 to n
      invariant grad == DifficultyGradient(E, responses, theta, bj, j, i)
    {
      var p := Probability(E, theta[i], bj);
      grad := grad + (p - responses[i][j] as real);
    }
  }

  /** run.php's `updateThetas`: gradient ascent, in place, on each of the
      first `nbPersons` abilities. `b` is passed by value, as in PHP. */
  method UpdateThetas(E: real -> real, theta: array<real>, responses: seq<seq<int>>, b: seq<real>,
                      learningRate: real, nbPersons: nat, nbResponses: nat)
    requires Positive(E)
    requires nbPersons <= theta.Length && nbResponses <= |b| && Covers(responses, nbPersons, nbResponses)
    modifies theta
    ensures theta[..] == AbilityPhase(E, old(theta[..]), responses, b, learningRate, nbPersons, nbResponses)
  {
    ghost var before := theta[..];
    ghost var after := AbilityPhase(E, before, responses, b, learningRate, nbPersons, nbResponses);
    for i := 0 to nbPersons
      invariant forall k :: 0 <= k < i ==> theta[k] == after[k]
      invariant forall k :: i <= k < theta.Length ==> theta[k] == before[k]
    {
      var thetaI := theta[i];
      var grad := SumAbilityGradient(E, responses[i], thetaI, b, nbResponses);
      assert after[i] == NewAbility(E, before, responses, b, learningRate, nbPersons, nbResponses, i)
                       == thetaI + learningRate * grad;
      theta[i] := thetaI + learningRate * grad;
    }
    assert forall k :: 0 <= k < theta.Length ==> theta[..][k] == after[k];
  }

  /** run.php's `updateDifficulties`: a gradient step, in place, on each of
      the first `nbResponses` difficulties. `theta` is passed by value. */
  method UpdateDifficulties(E: real -> real, b: array<real>, responses: seq<seq<int>>, theta: seq<real>,
                            learningRate: real, nbPersons: nat, nbResponses: nat)
    requires Positive(E)
    requires nbPersons <= |theta| && nbResponses <= b.Length && Covers(responses, nbPersons, nbResponses)
    modifies b
    ensures b[..] == DifficultyPhase(E, old(b[..]), responses, theta, learningRate, nbPersons, nbResponses)
  {
    ghost var before := b[..];
    ghost var after := DifficultyPhase(E, before, responses, theta, learningRate, nbPersons, nbResponses);
    for j := 0 to nbResponses
      invariant forall k :: 0 <= k < j ==> b[k] == after[k]
      invariant forall k :: j <= k < b.Length ==> b[k] == before[k]
    {
      var bJ := b[j];
      var grad := SumDifficultyGradient(E, responses, theta, bJ, j, nbPersons);
      assert after[j] == NewDifficulty(E, before, responses, theta, learningRate, nbPersons, nbResponses, j)
                       == bJ + learningRate * grad;
      b[j] := bJ + learningRate * grad;
    }
    assert forall k :: 0 <= k < b.Length ==> b[..][k] == after[k];
  }

  /** The outer loop of run.php: `iterations` rounds (none when it is not
      positive), each the ability phase followed by the difficulty phase,
      which reads the abilities the first phase has just written. */
  method Estimate(E: real -> real, theta: array<real>, b: array<real>, responses: seq<seq<int>>,
                  iterations: int, learningRate: real, nbPersons: nat, nbResponses: nat)
    requires Positive(E)
    requires theta != b
    requires nbPersons <= theta.Length && nbResponses <= b.Length && Covers(responses, nbPersons, nbResponses)
    modifies theta, b
    ensures (theta[..], b[..]) == Rounds(E, old(theta[..]), old(b[..]), responses, learningRate,
                                         nbPersons, nbResponses, if iterations < 0 then 0 else iterations)
  {
    ghost var theta0, b0 := theta[..], b[..];
    var iter := 0;
    while iter < iterations
      invariant 0 <= iter <= if iterations < 0 then 0 else iterations
      invariant (theta[..], b[..]) == Rounds(E, theta0, b0, responses, learningRate, nbPersons, nbResponses, iter)
    {
      UpdateThetas(E, theta, responses, b[..], learningRate, nbPersons, nbResponses);
      UpdateDifficulties(E, b, responses, theta[..], learningRate, nbPersons, nbResponses);
      iter := iter + 1;
    }
  }
}
