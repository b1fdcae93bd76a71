# Rasch estimation and nearest-difficulty recommendation, in Dafny

This project models the core of `run.php` from php-rasch. That file estimates the
parameters of a one-parameter logistic (Rasch) item-response model from a 0/1
person-by-item response matrix. Each person *i* has an ability θᵢ and each item *j* a
difficulty bⱼ. The probability of a correct answer is `exp(θ − b) / (1 + exp(θ − b))`.
A fixed number of rounds is run. Each round first takes a gradient step on every
ability against the current difficulties (`updateThetas`). It then takes a gradient
step on every difficulty against the abilities just computed (`updateDifficulties`).
Finally, `recommendItemForUser` picks, for one ability, the item whose difficulty is
closest to it. On a tie it keeps the first such item.

Modules (one file each):

- `ExpModel` (`exp_model.dfy`): the exponential is a parameter `E: real -> real`.
  `IsExp(E)` states the three facts the model uses: `E` is positive, strictly
  increasing, and `E(x) * E(y) == 1` whenever `x + y == 0`. `Surrogate` is a
  piecewise-rational function, and `SurrogateIsExp` proves it satisfies `IsExp`.
  So the assumption can be met, and nothing rests on contradictory hypotheses.
  The probability, the estimator and the gradient lemmas need only the first fact,
  `Positive(E)`. The other facts are required only by the lemmas that use them.
- `RaschProbability` (`rasch_probability.dfy`): `raschProbability` and its properties.
- `Estimator` (`estimator.dfy`): the gradients as left-to-right sums
  (`AbilityGradient`, `DifficultyGradient`). The phases as functions on sequences
  (`AbilityPhase`, `DifficultyPhase`, built entry by entry from `NewAbility` and
  `NewDifficulty`), one round (`Round`) and `k` rounds (`Rounds`). Also the imperative
  code: `UpdateThetas` and `UpdateDifficulties` update an `array<real>` in place, and
  `Estimate` is the outer loop. The inner accumulation loop of each phase is its own
  method (`SumAbilityGradient`, `SumDifficultyGradient`), called from the outer loop. Each method is proved to leave exactly the corresponding function of the old
  contents. The vector passed by reference in PHP (`&$theta`, `&$b`) is an array the
  method modifies. The vector passed by value is a `seq`.
- `EstimatorProperties` (`estimator_properties.dfy`): what a phase, a round and `k`
  rounds guarantee.
- `Recommender` (`recommender.dfy`): the argmin scan. PHP's `INF` start value is the
  `Bound.Infinite` constructor.

The model follows run.php as written:

- The probability is computed exactly as line 53 writes it. There is no clamping and
  no sign-dependent stable form.
- The recommender returns its initial index 0 on an empty item list. It does not fail.
- No input is validated. Responses are arbitrary integers. The learning rate is any
  real. A non-positive iteration count runs zero rounds, as the `for` loop does. The
  0/1 restriction appears only in the lemmas that need it.

## Model

| member | source | states |
|---|---|---|
| `RaschProbability.Probability` | run.php:51-54 | the success probability lies strictly between 0 and 1 |
| `RaschProbability.ProbabilityIsLogistic` | run.php:53 | exp(θ−b)/(1+exp(θ−b)) equals the logistic form 1/(1+exp(b−θ)) |
| `RaschProbability.ProbabilityComplement` | run.php:53 | p(t, b) + p(b, t) = 1 |
| `RaschProbability.ProbabilityIncreasingInAbility` | run.php:51-54 | p is strictly increasing in the ability |
| `RaschProbability.ProbabilityDecreasingInDifficulty` | run.php:51-54 | p is strictly decreasing in the difficulty |
| `RaschProbability.ProbabilityShift` | run.php:53 | p depends only on θ − b: a common shift leaves it unchanged |
| `Estimator.SumAbilityGradient` | run.php:22-26 | the inner loop's accumulator ends equal to Σⱼ (responses[i][j] − p(θᵢ, b[j])) over the first m items, summed left to right |
| `Estimator.SumDifficultyGradient` | run.php:36-40 | the inner loop's accumulator ends equal to Σᵢ (p(θᵢ, bⱼ) − responses[i][j]) over the first n persons, summed left to right |
| `Estimator.UpdateThetas` | run.php:20-29 | in place, each of the first nbPersons abilities becomes old θᵢ + lr · Σⱼ (responses[i][j] − p(old θᵢ, b[j])), summed left to right over the first nbResponses items; the other entries and the length are unchanged; `b` is a value and is not touched |
| `Estimator.UpdateDifficulties` | run.php:34-43 | in place, each of the first nbResponses difficulties becomes old bⱼ + lr · Σᵢ (p(θᵢ, old bⱼ) − responses[i][j]), summed left to right over the first nbPersons persons, using the θ passed in; the other entries and the length are unchanged |
| `Estimator.Estimate` | run.php:64-71 | after the loop, (θ, b) equals `Rounds` applied max(0, iterations) times to the initial vectors; each round is the ability phase followed by the difficulty phase on the post-phase-1 θ |
| `Estimator.Rounds` | run.php:64-71 | after any number of rounds, \|θ\| and \|b\| keep their initial lengths |
| `EstimatorProperties.AbilityGradientAllCorrect` | run.php:22-26 | a non-empty all-1 row gives a strictly positive ability gradient |
| `EstimatorProperties.AbilityGradientAllIncorrect` | run.php:22-26 | a non-empty all-0 row gives a strictly negative ability gradient |
| `EstimatorProperties.AbilityGradientBounded` | run.php:22-26 | with 0/1 answers, the gradient over m > 0 items lies strictly in (−m, m), and it is 0 for m = 0 |
| `EstimatorProperties.DifficultyGradientAllCorrect` | run.php:36-40 | with at least one person, an item every person got right has a strictly negative difficulty gradient |
| `EstimatorProperties.DifficultyGradientAllIncorrect` | run.php:36-40 | with at least one person, an item nobody got right has a strictly positive difficulty gradient |
| `EstimatorProperties.AbilityStepSign` | run.php:20-29 | with lr > 0 and at least one item, an all-1 person's ability strictly rises, and an all-0 person's strictly falls |
| `EstimatorProperties.DifficultyStepSign` | run.php:34-43 | with lr > 0 and at least one person, an all-correct item's difficulty strictly falls, and an all-incorrect item's strictly rises |
| `EstimatorProperties.AbilityUpdateIsLocal` | run.php:20-29 | a person's new ability depends only on that person's old ability, not on any other entry of θ |
| `EstimatorProperties.DifficultyUpdateIsLocal` | run.php:34-43 | an item's new difficulty depends only on that item's old difficulty |
| `EstimatorProperties.RoundIsNotSimultaneous` | run.php:64-71 | on the one-person, one-item matrix [[1]] from zero vectors, for every exp-like E and lr > 0, the difficulty phase reading the fresh θ gives a different result from an update from the shared old snapshot; this is a witness that the order matters, not a claim about every input |
| `EstimatorProperties.AbilityGradientShift` | run.php:22-26 | the ability gradient is unchanged when θᵢ and every b[j] are shifted by the same constant |
| `EstimatorProperties.DifficultyGradientShift` | run.php:36-40 | the difficulty gradient is unchanged when bⱼ and every θᵢ are shifted by the same constant |
| `EstimatorProperties.AbilityPhaseShift` | run.php:20-29 | shifting θ and b by c shifts the ability phase's result by c |
| `EstimatorProperties.DifficultyPhaseShift` | run.php:34-43 | shifting θ and b by c shifts the difficulty phase's result by c |
| `EstimatorProperties.RoundShift` | run.php:64-71 | one round commutes with a common shift of θ and b |
| `EstimatorProperties.RoundsShift` | run.php:64-71 | k rounds from shifted vectors give the shifted result, so the estimates are determined only up to a common shift |
| `Recommender.RecommendItemForUser` | run.php:87-104 | for non-empty items, the result is an index in range whose distance \|θ − items[r]\| is minimal, and every earlier index is strictly farther; for empty items it is 0 |
| `Recommender.FirstNearestUnique` | run.php:92-101 | at most one index satisfies the scan's postcondition, so that postcondition determines the result |
| `Recommender.ExactMatchWins` | run.php:95-99 | if items[k] = θ and no earlier item equals θ, the result is k |
| `Recommender.TieGoesToEarlierItem` | run.php:97 | for θ = 0.5 over [0.0, 1.0], the result is 0 |

## Left out

- Floating point: the model is over exact reals. It leaves out IEEE-754 rounding and the order-dependent last bits of the gradient sums. It also leaves out the overflow of `exp` on line 53 for a large θ − b, which makes the quotient INF/INF = NaN.
- `exp` itself: it is abstract (`ExpModel.IsExp`). Only positivity, strict monotonicity and exp(−x)·exp(x) = 1 are used.
- The sample matrix and constants (run.php:5-15, 57-59): `Estimate` takes the responses, the iteration count and the learning rate as parameters. The numeric outcome of 500 rounds on that matrix, such as the final order of the abilities, depends on convergence, and no convergence is claimed.
- Console output and `round` for display (run.php:73-81, 106-110), and the Composer autoload (run.php:3).
- PHP array semantics: vectors and `items` are 0-indexed sequences or arrays, as `array_fill` builds them. A read past the end, which PHP turns into a warning and `null`, is excluded by the `Covers` and length preconditions.
- Aliasing: `Estimate` requires the two arrays to be distinct objects. PHP arrays are values, so the source's θ and b never share storage.
