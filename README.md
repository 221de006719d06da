# Entanglement distillation: a Dafny model of the Monte-Carlo round loop

This project models the core of a Monte-Carlo simulation of entanglement distillation.
The round loop is a selection-only stand-in for a distillation protocol: BXOR keeps or drops a pair and never changes the weights of the sample it keeps.
`F_prime` in test.py is the recurrence of the BBPSSW protocol (Bennett et al., Phys. Rev. Lett. 76, 722 (1996)), and the loop does not follow it: a population whose samples all have fidelity F reports average F in every round (`UniformFidelityPersists`), while `F_prime(F) > F` for 1/2 < F < 1 (`FPrimeImproves`).
The model is written over Dafny `real`s and proved in Dafny 4.11.

- **Bell-diagonal states** (`EntangledState`).
  - A state is a class holding a four-slot weight array over [singlet psi-, triplet1 psi+, triplet2 phi+, triplet3 phi-] and an epsilon.
  - The initializer checks three things in order: the length of the list, then epsilon, then the sum of the weights against a closed window.
  - Errors are a `Result` over the two exception kinds, `NormalizationError` (with its cause) and `ToleranceError`.
  - On success the state stores the caller's array itself, not a copy.
  - Fidelity is the current singlet weight.
- **Operations** (`Operations`).
  - `werner_norm(F, i)` builds Werner weights and follows Python's negative-index rule.
  - `uni_y_rot` swaps slots 0/2 and 1/3 of the state's own array in place.
  - `bxor` is a pure function of the two states and its random draw. It returns the source object, or nothing.
- **The round loop** (`Simulation`).
  - `Trial` is the specification over weight values. It is defined through the sequence of stages the loop passes through (`Stages`).
  - `Simulate` is the loop itself, over state objects, with `RotateAll`, `Distill`, `RotateAndRecord` and `Round` as its parts.
  - `Simulate` is proved to end in the population and the per-round reports `Trial` gives.
  - It also gives the state of every initial sample: the final samples are initial objects holding their initial weights, and every sample dropped on the way is left rotated once.
  - Lemmas about `Trial` cover the following:
    - termination below the threshold;
    - halving of the population every round;
    - survivors keeping their initial weights;
    - the report statistics (minimum <= average <= maximum).
- **The analytic recurrence** (`Recurrence`), `F_prime`.
  - Its denominator is positive for every real F.
  - Its fixed points are exactly 1/4, 1/2 and 1.
  - It raises the fidelity exactly when F < 1/4 or 1/2 < F < 1.
  - It maps [0, 1] into [0, 1].
- **The shared default list** (`DefaultArgument`): the initializer's default weight list, as the code has it (see Findings).

Points about the code that the model keeps as they are:

- **The epsilon bound.** The docstring (entangled_state.py:33) and the error message (entangled_state.py:40) say epsilon < 0.1. The check at entangled_state.py:39 rejects only epsilon > 0.1, so epsilon = 0.1 is accepted.
- **Weight signs.** Only the sum of the weights is checked (entangled_state.py:45-47). Individual weights are never checked for sign or range.
- **Pairing order.** Samples are paired in list order, (2k, 2k+1), by the zip at simulation.py:21.
- **What BXOR returns.** BXOR returns the source object itself, with its weights unchanged (operations.py:20-21).
- **Renormalization.** No step of the loop changes a weight other than by the swap in `uni_y_rot`.

Python 3 semantics are assumed throughout. In particular, `1/9`, `2/3` and `5/9` in `F_prime` are true divisions.

## Model

| member | source | states |
|---|---|---|
| EntangledState.Validate | entangled_state.py:37-47 | definition: the length check, then the epsilon check, then the closed sum window, in the source's order; its outcomes are characterised by LengthCheckedFirst, ToleranceErrorExactly and AcceptedIff |
| EntangledState.LengthCheckedFirst | entangled_state.py:37-40 | a list whose length is not 4 gives the length NormalizationError whatever epsilon is, and only such a list does |
| EntangledState.ToleranceErrorExactly | entangled_state.py:39-40 | ToleranceError exactly when the length is 4 and epsilon > 0.1 (so 0.1 itself is accepted) |
| EntangledState.AcceptedIff | entangled_state.py:45-47 | a four-weight list with epsilon <= 0.1 is accepted iff 1 - epsilon <= sum <= 1 + epsilon, both bounds inclusive; any other outcome is the tolerance NormalizationError |
| EntangledState.NegativeEpsilonRejects | entangled_state.py:45-47 | with a negative epsilon the window is empty and every four-weight list is rejected |
| EntangledState.ValidationExamples | entangled_state.py:36-47 | five weights with epsilon 0.3 give NormalizationError; epsilon 0.1 passes; epsilon 0.15 gives ToleranceError; a sum of 1.2 is rejected; [1.5, -0.5, 0, 0] passes |
| EntangledState.FidelityExamples | entangled_state.py:20-25 | the singlet has fidelity 1 and pure triplet1 has fidelity 0 |
| EntangledState.DiagonalState.Init | entangled_state.py:42-43 | the initializer stores the given array and epsilon, and the stored weights pass validation |
| EntangledState.DiagonalState.Create | entangled_state.py:36-47 | succeeds iff validation passes; a failure carries exactly the error validation reports; on success the new state holds the caller's array itself, its epsilon, and fidelity equal to slot 0 |
| EntangledState.DiagonalState.Fidelity | entangled_state.py:20-25 | definition: the current singlet weight (slot 0); see "Left out" for the density-matrix form |
| EntangledState.DiagonalState.Default | entangled_state.py:36 | a default state is a fresh singlet on a fresh array with epsilon 0.01 and fidelity 1 (the corrected default) |
| RealSeq.Sum | entangled_state.py:45 | definition: Python's left-to-right `sum` over a list; Sum4 and SumBounds state its properties |
| RealSeq.Sum4 | entangled_state.py:45 | the sum of a four-weight list is the sum of its four slots |
| RealSeq.Min | simulation.py:36 | the minimum is an element and is below every element |
| RealSeq.Max | simulation.py:37 | the maximum is an element and is above every element |
| RealSeq.SumBounds | simulation.py:38 | a sum of n values in [lo, hi] lies in [n lo, n hi] |
| RealSeq.Mean | simulation.py:38 | definition: the sum divided by the length of a non-empty list; MeanBetweenMinMax bounds it |
| RealSeq.MeanBetweenMinMax | simulation.py:36-38 | the average lies between the minimum and the maximum |
| Operations.Slot | operations.py:7 | a list index in [-4, 4) names slot i or i + 4, which is below 4 |
| Operations.WernerNorm | operations.py:3-8 | the named slot holds F, every other slot holds (1 - F)/3, and the weights sum to exactly 1 |
| Operations.WernerNormValidates | operations.py:5-7 | Werner weights pass validation for every F and every epsilon in [0, 0.1] |
| Operations.YRotated | operations.py:13-14 | definition: the weights with slots 0 and 2 and slots 1 and 3 swapped; YRotatedInvolution and YRotatedPermutes state its properties |
| Operations.YRotatedInvolution | operations.py:10-14 | rotating twice restores the weights |
| Operations.YRotatedPermutes | operations.py:13-14 | the rotation keeps the multiset of weights, their sum and the validation outcome |
| Operations.YRotatedWerner | operations.py:10-14 | rotating the mostly-psi- Werner state gives the mostly-phi+ one, and back |
| Operations.YRotatedPsiPlus | operations.py:10-14 | pure psi+ rotates to pure phi- |
| Operations.UniYRot | operations.py:10-14 | the state's own array becomes the rotated weights, nothing else changes, and validity of the weights is kept |
| Operations.Keeps | operations.py:18-20 | definition: the draw is below the product of the two triplet2 weights; KeepsNeverWithoutTriplet2 and KeepsCertain state its edge cases |
| Operations.Bxor | operations.py:16-21 | the result is present iff the draw is below the product of the two triplet2 weights, and is then the source object itself |
| Operations.KeepsNeverWithoutTriplet2 | operations.py:18-20 | a pair where either triplet2 weight is 0 never survives a draw >= 0 |
| Operations.KeepsCertain | operations.py:18-20 | a pair of pure triplet2 states survives every draw below 1 |
| Simulation.Rotated | simulation.py:17-18 | every weight vector of the population rotated once, in order |
| Simulation.Fidelities | simulation.py:28-30 | one fidelity per sample, in population order, each the sample's singlet weight |
| Simulation.PairSurvivors | simulation.py:20-24 | the kept sources among the first k pairs: at most k indices, all even, increasing, below 2k |
| Simulation.PairSurvivorsMembers | simulation.py:21-24 | source 2m is kept iff pair m is among the first k and BXOR keeps it with draw m |
| Simulation.Survivors | simulation.py:17-24 | a round keeps at most half the population, in order, only sources of complete pairs (an odd last sample is in no pair) |
| Simulation.SurvivorsByFidelity | simulation.py:17-24 | after the first rotation, pair m survives iff m < n/2 and its draw is below the product of the two samples' fidelities |
| Simulation.ReportOf | simulation.py:34-35 | a report counts the survivors and has statistics exactly when there are survivors |
| Simulation.ReportStats | simulation.py:35-38 | the reported minimum and maximum are survivor fidelities bounding all of them, and minimum <= average <= maximum |
| Simulation.NextStage | simulation.py:17-30 | one round leaves at most half the samples and uses one draw per pair |
| Simulation.Stages | simulation.py:16 | the stages of the loop start at the initial population |
| Simulation.StagesChain | simulation.py:16-27 | a stage is followed by another iff it is above the threshold, and the next is at most half its size |
| Simulation.StagesNext | simulation.py:16-30 | every stage but the last is followed by one round of it |
| Simulation.StagesShrink | simulation.py:16-27 | populations never grow from one stage to a later one |
| Simulation.StagesFromInitial | simulation.py:17-29 | every stage's weight vectors are initial ones (survivors are rotated twice) |
| Simulation.TrialEnds | simulation.py:16 | the loop ends at or below the threshold with no more samples than it started with, and runs no round iff it starts at or below the threshold |
| Simulation.TrialFirstAndLastReports | simulation.py:20-34 | the first round at least halves the population, and the last report counts the final population |
| Simulation.TrialFinalFromInitial | simulation.py:17-29 | every final weight vector is one of the initial ones |
| Simulation.TrialReportCount | simulation.py:26-34 | report k counts stage k + 1, which is at most half of stage k and above the threshold unless last |
| Simulation.TrialReportsHalve | simulation.py:20-27 | every report's count is at most half of any earlier report's |
| Simulation.TrialReportsAboveThreshold | simulation.py:16-34 | every round but the last leaves more than the threshold |
| Simulation.UniformStage | simulation.py:17-30 | when every initial sample has fidelity F, every sample of every later stage has fidelity F |
| Simulation.UniformFidelityPersists | simulation.py:16-38 | when every initial sample has fidelity F, every report with statistics has minimum, maximum and average exactly F: the loop only selects |
| Simulation.RotateAll | simulation.py:17-18 | every sample's array holds its rotated weights |
| Simulation.Distill | simulation.py:20-24 | the next population is exactly the kept sources, in pair order, and nothing is changed |
| Simulation.RotateAndRecord | simulation.py:26-30 | every survivor is rotated once, and the fidelities are one per survivor, in order, after the rotation |
| Simulation.Round | simulation.py:17-30 | the survivors are the kept sources of the round, among the samples, with the weights they started with, and the fidelities are theirs; every other sample (targets, rejected sources, an odd last sample) is left rotated once |
| Simulation.RestoreSurvivors | simulation.py:26-30 | after the first rotation, rotating the survivors back restores their weights from before the round, records their fidelities, and leaves every other sample rotated once |
| Simulation.RoundSettles | simulation.py:17-30 | at the end of a round the survivors are among the samples and every sample that is not a survivor holds its once-rotated weights |
| Simulation.LiveSettled | simulation.py:16-30 | the samples still in the loop are initial objects; the initial samples still in the loop hold their initial weights and all others hold them rotated once |
| Simulation.MarkedStep | simulation.py:16-30 | after one more round, the initial samples among its survivors hold their initial weights and every other initial sample holds them rotated once |
| Simulation.IndexedRound | simulation.py:17-30 | one round on the samples still in the loop: the survivors are initial samples in their initial order, with their initial weights and their fidelities, and every dropped initial sample is rotated once |
| Simulation.TrialStep | simulation.py:16-32 | a stage above the threshold reached by the loop is followed by its round, and the next report is on that round's survivors |
| Simulation.TrialDone | simulation.py:16 | a stage at or below the threshold reached by the loop is the trial's end |
| Simulation.Simulate | simulation.py:11-38 | the loop ends with the population and reports of Trial, iter equal to the number of rounds, and the last round's fidelities; the final samples are initial objects, exactly the initial list when no round runs, with their initial weights, and every other initial sample is left rotated once |
| Recurrence.Numerator | test.py:50 | definition: F^2 + (1/9)(1 - F)^2; ExpandedForms and NumeratorPositive state its properties |
| Recurrence.Denominator | test.py:50 | definition: F^2 + (2/3)F(1 - F) + (5/9)(1 - F)^2; ExpandedForms and DenominatorPositive state its properties |
| Recurrence.FPrime | test.py:48-50 | definition: the quotient, defined for every real F because the denominator is positive; FPrimeFixedPoints, FPrimeImproves and FPrimeBounds state its properties |
| Recurrence.ExpandedForms | test.py:50 | 9 times the numerator is 10F^2 - 2F + 1, and 9 times the denominator is 8F^2 - 4F + 5 |
| Recurrence.DenominatorPositive | test.py:50 | the denominator is positive for every real F |
| Recurrence.NumeratorPositive | test.py:50 | the numerator is positive for every real F |
| Recurrence.GainFactored | test.py:48-50 | 9(N - F D) = -8(F - 1)(F - 1/2)(F - 1/4) |
| Recurrence.CubicSign | test.py:48-50 | the sign of (F - 1)(F - 1/2)(F - 1/4) on each interval |
| Recurrence.FPrimeFixedPoints | test.py:48-50 | F_prime(F) = F iff F is 1/4, 1/2 or 1 |
| Recurrence.FPrimeImproves | test.py:48-50 | F_prime(F) > F iff F < 1/4 or 1/2 < F < 1, and F_prime(F) < F iff 1/4 < F < 1/2 or F > 1 |
| Recurrence.QuadraticSign | test.py:50 | (F + 2)(F - 1) is not positive exactly when -2 <= F <= 1 |
| Recurrence.FPrimeBounds | test.py:48-50 | F_prime is positive, and at most 1 iff -2 <= F <= 1, so [0, 1] maps into [0, 1] |
| Recurrence.FPrimeValues | test.py:48-50 | F_prime(1) = 1, F_prime(1/4) = 1/4, F_prime(1/2) = 1/2 |
| DefaultArgument.InitializerDefaults.constructor | entangled_state.py:36 | the default list is one singlet array allocated once |
| DefaultArgument.CreateWithSharedDefault | entangled_state.py:36-47 | a default construction succeeds iff the shared default list passes validation, and then gives a fresh state with epsilon 0.01 that stores the one shared default array, with fidelity its slot 0 |
| DefaultArgument.SharedDefaultWitness | entangled_state.py:36-43 | as written: a default state has fidelity 1, but after it is rotated the next default state has fidelity 0 |
| DefaultArgument.FreshDefaultWitness | entangled_state.py:36 | corrected: after a default state is rotated, the next default state still has fidelity 1 |

## Left out

- Density matrices and the matrix-based fidelity (entangled_state.py:15-25, 49-60) are floating-point linear algebra. Fidelity is the singlet weight.
- EntangledState.DiagonalState.Fidelity: returns the current singlet weight. The code reads a density frozen at construction, which `uni_y_rot` does not update. The two agree wherever the loop records fidelities, because survivors have been rotated twice by then.
- IEEE floating point: all weights, draws and epsilons are exact reals, so sums of 1 and fixed points hold exactly.
- Randomness: each `random.random()` call is an entry of a caller-supplied draw sequence, consumed one per pair in pair order. Seeding is not modelled.
- Simulation.Simulate: requires at least as many draws as initial samples. A trial never uses more draws than that.
- Simulation.Simulate: requires that no two initial samples share a weight array. With shared arrays, one list would be rotated more than once per pass, and the model does not cover that aliasing.
- Simulation.Simulate: the initial samples are a parameter. The factory `generate_sim_samples` that simulation.py imports is not part of this model.
- Simulation.Simulate: the constants `num_sample` and `threshold` (simulation.py:4-5) are parameters.
- Simulation.Simulate: the threshold is a `nat`. With a negative threshold the loop at simulation.py:16 never exits, because an empty population still exceeds it, and the model does not cover that non-terminating run.
- Simulation.Simulate: the console output at simulation.py:33-40 is replaced by one `Report` per round, holding the count and the statistics. The final `print_states` is left out.
- Operations.WernerNorm: requires an index in [-4, 4). Outside that range Python raises IndexError, which is not modelled as a result.
- qubit_pair.py, test_qubit_pair.py, channel_simulation.py, run_sim.py, util.py and entanglement_sandbox.py are not part of this model. They hold numpy state-vector code, the noise channel, plotting and drivers.
- The density-matrix helpers in test.py (lines 1-46, 53-64) are not part of this model. Only `F_prime` is.

## Findings

| source | as written | input that shows it | evidently intended | confidence | as-written member | corrected member |
|---|---|---|---|---|---|---|
| entangled_state.py:36 | the default `normalization` list is evaluated once and shared by every default construction; the state stores it by reference, so `uni_y_rot` on one default state rewrites the default | `a = DiagonalState(); uni_y_rot(a); b = DiagonalState()` gives b the phi+ weights [0, 0, 1, 0], so b's fidelity is 0 | every default state is a fresh singlet with fidelity 1 | high; not executed | DefaultArgument.SharedDefaultWitness | EntangledState.DiagonalState.Default |
