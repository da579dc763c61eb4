# pychain's Metropolis sampler, modelled in Dafny

pychain is a random-walk Metropolis–Hastings MCMC sampler in Python. It draws an initial
parameter vector uniformly in a box `[mins, maxs]`. It then repeats a fixed number of steps.
Each step draws a Gaussian candidate around the current point, redrawing until the candidate
lies in the box. It scores the candidate with a chi-square and accepts it with the Metropolis
rule `exp(-(Newchi2 - Oldchi2) / 2) >= u`. The proposal covariance narrows from
`10 * alpha * diag(SD^2)` to `alpha * diag(SD^2)` once a candidate costs less than `2 * len(Y)`.
The sampler keeps the current and best chi-square, counts accepted points and the
multiplicity (steps since the last acceptance), and returns an acceptance ratio.

This project models the class `MCMC` of `src/mcmc.py` and the second copy of its loop in
`Anim.MainChain` of `animation/anim.py`:

- `domain.dfy` (`Domain`): parameter vectors, box membership, the uniform initial point.
- `covariance.dfy` (`Covariance`): the wide and narrow covariances and the one-way switch.
- `acceptance.dfy` (`Acceptance`): the Metropolis test, with `exp` given as a parameter.
- `oracle.dfy` (`Oracle`): the random stream, as two oracle functions indexed by call number.
- `proposal.dfy` (`Proposal`): the redraw-until-in-box proposal as a specification function.
- `chain.dfy` (`Chain`): one loop iteration and a whole run as a pure state machine. It covers
  the loop invariant, the lemmas about runs, and the ratio computations.
- `sampler.dfy` (`Sampler`): the class `MCMC` with its fields, constructor, `NextStep` and
  `MainChain`. The imperative methods are proved equal to the specification functions.
- `anim.dfy` (`Animation`): `Anim.MainChain`, run on the `MCMC` state it inherits.

The two loops differ in two things:

- In `src/mcmc.py` the proposal centre never moves. Line 92 assigns `Oldstep`, but line 75
  reads `OldStep`. `Oldchi2` is still updated, so the current cost moves while the centre
  stays at the first step. The model keeps the misspelt variable as `strayStep`.
  `Chain.ConsistentFacts` proves that `oldStep` stays the start while `strayStep` holds the
  last accepted step.
- `animation/anim.py` moves the centre (line 150) and tracks `BestStep` (line 127). It then
  reads `BestStep` at line 162 even when it was never bound.

One `Chain.Step` with a `Variant` (`Original` or `Animated`) describes both loops.

Inputs in place of code the model cannot see:

- Randomness is `Oracle.Rng`. `normal(mean, cov, p)` is the multivariate normal draw of the
  `p`-th call of the stream. `uniform(p, i)` is component `i` of the `p`-th uniform call.
  The chain threads the stream position `pos`, and the position where `MainChain` starts is
  a parameter.
- The chi-square is a parameter `cost: Vector -> real`: a subclass's deterministic
  `chisquare`. `len(Y)` is a parameter `observations`; the base class defines no `Y`, so the
  model is the loop as a subclass that defines `Y` runs it.
- `exp` is a parameter. `Acceptance.ExpLike` states what the lemmas assume of it: it is at
  least 1 on non-negative arguments, and it is non-decreasing.
- Numbers are Dafny `real`, not floats.

The acceptance ratio follows the code, not its evident intent. Both loops return
`acceptedpoints / i`, where `i` is the last loop index `NumberOfSteps - 1`.
`NumberOfSteps <= 0` leaves `i` unbound (`LoopIndexUnbound`), and `NumberOfSteps == 1`
divides by zero (`DivisionByZero`).

## Model

| member | source | states |
|---|---|---|
| `Sampler.MCMC.Create` | src/mcmc.py:13-33 | returns no object exactly when `NumberOfParams` differs from one of `len(Mins)`, `len(Maxs)`, `len(SDs)`; otherwise a fresh object holding the given configuration with `CovMat == 10*alpha*diag(SD^2)` |
| `Sampler.MCMC.constructor` | src/mcmc.py:23-33 | stores the configuration and installs the wide covariance `10*alpha*diag(SD^2)`; the object invariant holds (dimensions agree and the covariance is in a regime) |
| `Domain.FirstStepInBox` | src/mcmc.py:37-40 | with `mins[i] <= maxs[i]` and uniform draws in [0,1), every component of `mins + u*(maxs - mins)` lies in `[mins[i], maxs[i]]`; a dimension with `mins[i] == maxs[i]` is pinned to that value |
| `Chain.InitInBox` | src/mcmc.py:62 | the initial point the chain starts from is admissible when the bounds are ordered and the uniform draws lie in [0,1) |
| `Sampler.MCMC.NextStep` | src/mcmc.py:44-48 | the redraw loop returns exactly `Proposal.Propose`: the first in-box draw among the stream's next calls, centred at the given point with the current `CovMat` |
| `Proposal.ProposeFinds` | src/mcmc.py:45-48 | a found candidate is in the box, is the last draw consumed, and every earlier draw of the same proposal was outside the box and discarded |
| `Proposal.ProposeComplete` | src/mcmc.py:45-48 | conversely, the first in-box draw is the one returned (with the next stream position) |
| `Proposal.ProposeMoreFuel` | src/mcmc.py:46-47 | the draw bound only limits the search: more draws never change a found candidate |
| `Proposal.ProposeEmptyBox` | src/mcmc.py:44-48 | with some `mins[k] > maxs[k]` no draw is in the box, so the proposal is exhausted for every draw bound: the original redraw loop never ends |
| `Acceptance.AcceptsNoWorse` | src/mcmc.py:52-57 | with `u < 1` and an `exp` that is at least 1 on non-negative arguments, `Newchi2 <= Oldchi2` is always accepted (equivalently, a rejected candidate has `Newchi2 > Oldchi2`) |
| `Acceptance.AcceptanceMonotone` | src/mcmc.py:53-54 | an accepted candidate stays accepted with a smaller chi-square or a smaller uniform draw |
| `Covariance.AdaptIsOneWay` | src/mcmc.py:78-79 | the covariance after a step is narrow iff it was narrow or `Newchi2 < 2*len(Y)`; it stays within the two regimes, a repeated write is idempotent, and a cost at or above the threshold changes nothing |
| `Covariance.WideIsTenTimesNarrow` | src/mcmc.py:33 | every entry of the initial covariance is ten times the entry of the narrowed one |
| `Chain.StepNarrows` | animation/anim.py:118-122 | the covariance narrows on every step whose candidate beats the threshold, whether or not that candidate is accepted, and is otherwise unchanged |
| `Chain.InitConsistent` | src/mcmc.py:62-71 | the state before the loop: best cost equals the start cost, which is the cost of the start; zero counters; the loop invariant holds |
| `Chain.StepConsistent` | src/mcmc.py:73-96 | one step keeps the invariant and counts one step; it accepts exactly when `MetropolisHastings(Oldchi2, cost(NewStep), u)` holds for the candidate `NewStep` proposed at the current centre; a rejection changes only the multiplicity (+1), the step count, the covariance and the stream position; an acceptance logs `(cost(NewStep), multiplicity, NewStep)`, adds 1 to `acceptedpoints`, resets the multiplicity to 0, makes `cost(NewStep)` the current cost, moves the centre to `NewStep` in `animation/anim.py` (lines 150-151) and binds the misspelt `Oldstep` to it in `src/mcmc.py` (line 92); the best cost never rises; a narrow covariance stays narrow |
| `Chain.RunConsistent` | src/mcmc.py:73-96 | `n` steps keep the invariant and count `n` steps, the best cost never rises, at most `n` samples are logged and the log only grows, and a narrow covariance stays narrow |
| `Chain.RunFromInit` | src/mcmc.py:61-96 | a run of `n` steps from the initial state accepts at most `n` candidates; its best cost is at most the start cost and the current cost; in `src/mcmc.py` the proposal centre is still the first step |
| `Chain.ConsistentFacts` | src/mcmc.py:82-93 | from the invariant: `acceptedpoints <= steps`, `Bestchi2 <= Oldchi2`, `Bestchi2 <= ` the start cost; in `src/mcmc.py` `OldStep` is the first step while the misspelt `Oldstep` holds the last accepted step; in `animation/anim.py` a bound `BestStep` is admissible and costs exactly `Bestchi2` |
| `Chain.MinCostBounds` | src/mcmc.py:82-84 | the running best cost is at most the start cost and every accepted cost, and equals one of them |
| `Chain.TotalAtLeastLength` | src/mcmc.py:73-91 | when every logged multiplicity is at least 1, the log (one entry per accepted point) is no longer than the sum of the logged multiplicities; the bound by the steps taken is `Chain.ConsistentFacts` |
| `Chain.BestOfSpec` | animation/anim.py:124-128 | `BestStep` stays unbound iff no accepted cost is below the start cost; once bound it is an accepted step whose cost is the best cost, strictly below the start cost |
| `Chain.StepAcceptsNoWorse` | animation/anim.py:118-132 | a candidate no worse than the current cost is accepted by the step: `acceptedpoints` gains 1, `multiplicity` becomes 0 and `Oldchi2` becomes its cost |
| `Sampler.MCMC.MainChain` | src/mcmc.py:61-102 | the loop computes exactly `Chain.Run` of the `Original` variant from the initial state; returns `AcceptanceRatio(acceptedpoints, NumberOfSteps)` with the final `Bestchi2`, leaves `CovMat` as the run's final covariance, or reports a stalled proposal |
| `Animation.MainChain` | animation/anim.py:93-170 | the loop computes exactly `Chain.Run` of the `Animated` variant; returns `AnimatedReport` of the final state with its `Bestchi2` and leaves `CovMat` as the run's final covariance |
| `Chain.AcceptanceRatio` | src/mcmc.py:98-102 | succeeds exactly when `NumberOfSteps >= 2`, with `ratio * (NumberOfSteps - 1) == acceptedpoints`; fails with an unbound index at `NumberOfSteps <= 0` and with a division by zero at 1 |
| `Chain.AllAcceptedRatioAboveOne` | src/mcmc.py:102 | a run of `n >= 2` steps that accepts all of them reports a ratio above 1 |
| `Chain.IntendedRatio` | animation/anim.py:156-170 | the corrected ratio `accepted / steps` is defined iff a step was taken, satisfies `ratio * steps == accepted`, and lies in [0, 1] when `accepted <= steps` |
| `Chain.AnimatedReport` | animation/anim.py:156-170 | the result of `Anim.MainChain` succeeds iff `NumberOfSteps >= 2` and `BestStep` is bound, and then equals the as-written ratio; with `NumberOfSteps >= 2` and `BestStep` unbound it is the unbound-name failure of line 162 |
| `Chain.BestStepUnboundIff` | animation/anim.py:126-164 | at the end of an animated run `BestStep` is unbound exactly when no accepted candidate cost less than the start |
| `Chain.SummarizeSound` | animation/anim.py:94-128 | with the best point seeded by the start, the summary's best point costs exactly the best cost, which is no more than the start cost, and its ratio is defined once a step was taken and lies in [0, 1] |

## Findings

| source | as written | input that shows it | evidently intended | confidence | as-written member | corrected member |
|---|---|---|---|---|---|---|
| src/mcmc.py:102 | the acceptance ratio is `acceptedpoints / i`, where `i = NumberOfSteps - 1` | `NumberOfSteps = 2`, both candidates accepted: ratio 2 (animation/anim.py:170 has the same division) | accepted steps over steps taken, which is at most 1 | not executed | `Chain.AllAcceptedRatioAboveOne` (about `Chain.AcceptanceRatio`) | `Chain.IntendedRatio`, used by `Chain.Summarize` and proved within [0, 1] in `Chain.SummarizeSound` |
| animation/anim.py:162 | `BestStep` is read after the loop but is bound only when an accepted candidate beats the initial cost | a run in which every candidate is rejected | seed the best point with the initial point, as `Bestchi2` is seeded with its cost | not executed | `Chain.BestStepUnboundIff` (with `Chain.AnimatedReport` and `Animation.MainChain`) | `Chain.BestPoint`, used by `Chain.Summarize`; `Chain.SummarizeSound` proves its cost is the best cost |

`Sampler.MCMC.MainChain` and `Animation.MainChain` keep the code's behaviour: the divisor
`NumberOfSteps - 1` and the unbound `BestStep` error. The corrected definitions serve the
chain summary `Chain.Summarize`.

## Left out

- Plotting and pausing with matplotlib, and the `xlist`/`ylist` lists that only feed the plot. They do not change the chain's variables, but they run inside the acceptance branch and index the step's first two components: src/mcmc.py:94 fails on the first accepted step when `NumberOfParams < 2`, and animation/anim.py:137-143 (the fit function's `Params[1]`, `OldStep[1]` and a two-slot format) fails unless `NumberOfParams == 2`, which is what `Anim.__init__` sets (animation/anim.py:28-30). The model covers only runs in which these calls succeed: `NumberOfParams >= 2` for `Sampler.MCMC.MainChain` and `NumberOfParams == 2` for `Animation.MainChain`; for other dimensions the original raises where the model returns a ratio.
- The file output and its `'%1.6f \t'` formatting. The model keeps the accepted samples in the state's `log` (cost, multiplicity, vector): the records the file would hold.
- `print` and `sys.exit`. The printed best chi-square is returned as an out-parameter instead. The constructor's exit is modelled as `Create` returning no object.
- The numpy generator and `np.random.seed`: the random stream is `Oracle.Rng`. How far numpy's state advances per call is not modelled; one position per call stands for it.
- The base class's `chisquare`, which returns a random chi-square draw: the cost is a parameter. Both example models and `Anim` override it with a deterministic function.
- Floating point and a concrete `exp`. Values are reals, and `exp` is a parameter constrained by `Acceptance.ExpLike` where a lemma needs it.
- Termination of the redraw loop in `NextStep`. When every side of the box has positive length the loop ends with probability one. When a side has length zero (`mins[i] == maxs[i]`) and the draw in that component has positive variance (`SD[i] != 0` and `alpha != 0`), it lands on the side with probability zero; with zero variance the draw keeps the centre's component, which is the pinned value, so that side admits every draw. When some `mins[i] > maxs[i]`, which neither `__init__` nor `Valid()` rejects, no draw is admissible and the loop never ends (`Proposal.ProposeEmptyBox`). The model bounds each proposal by `fuel` draws and reports `ProposalStalled` when the bound is reached; the original would keep drawing.
- Sampler.MCMC.NextStep: compares the candidate with the bounds only for vectors of the same length; numpy's broadcasting of shapes that differ is not modelled.
- `Acceptance.MetropolisHastings` carries no contract of its own. Rejecting exactly when the likelihood ratio is below `u` is its definition, and the lemmas state its consequences.
- The `Anim` and example constructors, which only fix a configuration and generate synthetic data. The example models' fit functions are float array arithmetic. The `TargetAcceptedPoints` argument that `examples/quadraticfit.py` passes is not accepted by the constructor.
- `setup.py`: packaging metadata.
- The attribute `Y` and the deterministic `chisquare`. The base class `MCMC` defines neither `Y` nor a deterministic cost, so `MainChain` on a bare `MCMC` (as src/mcmc.py:111-113 runs it) raises an attribute error at line 78 on the first iteration. The model is `MainChain` as run by a subclass that defines `Y` (its length is `observations`) and `chisquare` (the parameter `cost`).
- The default values of `__init__`'s arguments (src/mcmc.py:13-15) and its `randomseed` argument: every argument of `Sampler.MCMC.Create` is explicit, and the seed is part of the oracle `Oracle.Rng`.
