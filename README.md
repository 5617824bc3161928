# Adaptive simulated annealing and the morph vector types, in Dafny

This project models three parts of the morphologica library.

- `morph::Anneal<T>` (class `Annealing.Anneal`, file `anneal.dfy`). It runs Ingber's
  adaptive simulated annealing as a state machine that the caller drives. The caller
  reads `state`, computes the objective of `x_cand` (or of every sample in `x_set`),
  stores it, and calls `Step` again.
  - The uniform numbers the source draws from its generators are inputs. `u` feeds the
    acceptance test. A stream `draws` of D-element draws feeds the rejection loop of
    `generate_parameter`.
  - The floating-point primitives (`std::exp`, `std::log`, `std::pow`, a division that
    may meet a zero divisor, the NaN/infinity test, `numeric_limits`) are the abstract
    record `FloatModel.FloatOps`. So the control logic is verified exactly, and the
    numeric formulas are kept as formulas over uninterpreted functions.
  - The formulas and decisions themselves are pure functions in `AnnealRules`
    (`anneal_rules.dfy`), together with the lemmas about them. Examples are the
    generating step, the cooling schedule, the acceptance probability, the reanneal
    decision, the partial-derivative estimate, the temperature rescale and the
    truncating cast of the new step count.
- `morph::vVector` (class `VVectors.VVector`, `vvector.dfy`): a resizable vector whose
  contents are the field `elems: seq<real>`. The compound assignments reassign `elems`.
  The value operators build a fresh sequence in a loop and return it.
- `morph::Vector<Flt, N>` (class `Vectors.Vector`, `vector.dfy`): N components in an
  `array<real>`. The compound assignments update the array in place.

Every vector operation is specified against a function in `RealSeq` (`real_seq.dfy`),
so value and in-place forms agree by construction. The algebraic properties are
proved there as lemmas. The coordinate text of `str()` and `asString()` is
`Format.Coordinates` (`format.dfy`).

`Anneal.Valid()` is the class invariant that every public state-changing method keeps.
- D is the number of initial parameters and is positive.
- `x`, `x_cand`, `x_best` and every point in `param_hist` lie inside the ranges, or are
  still the initial parameters.
- The two histories have equal length, and the counters are ordered
  (accepted ≤ generated; worse-accepted ≤ worse and ≤ accepted).
- The internal vectors are empty before `init()` and have D elements after it.
- While the state is `NeedToComputeSet`, `x_set` holds `partials_samples` samples
  inside the ranges that differ from `x` in every element.

`BestIsLowest()` says that no recorded objective lies below `f_x_best`. Every step
preserves it.

Where the code differs from what its comments or the usual description of the
algorithm suggest, the model follows the code.
- The best point moves only when an accepted objective is strictly below `f_x_best`.
  The comparison is `<` whatever `downhill` says (morph/Anneal.h:326-327). The
  acceptance probability does not depend on `downhill` either: a candidate whose
  objective is not above f_x is always accepted
  (`AnnealRules.NonIncreasingCandidateAccepted`). So when ascending, every worse
  candidate is accepted and better ones are accepted only by chance.
- `reset_stats()` leaves `f_x_best_repeats` alone (morph/Anneal.h:423-430), although
  the comment on that member says it is reset.
- The new step count of a reanneal is truncated by `static_cast<unsigned int>`
  (morph/Anneal.h:387). Values outside the range that cast can represent are the
  outcome `KNotRepresentable`.
- The `runtime_error` of `complete_reanneal()` (morph/Anneal.h:370-372) is the outcome
  `PartialsNotFinite`. The model also gives that outcome when `partials_samples == 0`,
  treating the quotient of the empty sum by zero as not finite, as an IEEE division in
  the element type would be. After it the state stays `NeedToComputeSet`, as it does
  when the exception leaves `step()`.

## Model

| member | source | states |
|---|---|---|
| Annealing.Anneal.constructor | morph/Anneal.h:170-192 | D is the number of initial parameters. The ranges are copied pair by pair into range_min and range_max. rdelta = max − min and rmeans = (max + min) / 2. x, x_cand and x_best are the initial parameters. The eight algorithm parameters take their defaults, the counters are zero, k = 1, and the state is NeedToInit. Valid and BestIsLowest hold. |
| Annealing.Anneal.Configure | morph/Anneal.h:61-79 | Before init the caller may set the eight public algorithm parameters; afterwards they are exactly the given values and the invariant still holds. |
| Annealing.Anneal.SetCandidateObjective | morph/Anneal.h:86 | The caller's write of the public member f_x_cand: it holds the given objective and the invariant is kept. |
| Annealing.Anneal.SetSampleObjective | morph/Anneal.h:100 | The caller's write of one slot of f_x_set: only that slot changes and the invariant is kept. |
| Annealing.Anneal.Init | morph/Anneal.h:195-238 | f_x, f_x_cand and f_x_best equal the sentinel (the largest value when descending, the lowest when ascending). temp_0, temp, s, s_max and partials are D ones. m = −log(temperature_ratio_scale) and n = log(temperature_anneal_scale) in every element. temp_f = temp_0 · exp(−m). c = m · exp(−n / D). c_cost = c · cost_parameter_scale_ratio, and both acceptance temperatures start at c_cost. The state is NeedToCompute and the invariant holds. |
| Annealing.Anneal.ResetObjectivesAndVectors | morph/Anneal.h:198-219 | The objectives start at the sentinel, and the vectors are resized to D ones with m and n filled, as the two parts below state. |
| Annealing.Anneal.ResetObjectives | morph/Anneal.h:198-203 | f_x_best is max or lowest according to downhill; f_x and f_x_cand copy it. |
| Annealing.Anneal.ResizeVectors | morph/Anneal.h:206-219 | Resizing the empty vectors to D fills them with ones. m and n are filled with −log and log of the two temperature scales. |
| Annealing.Anneal.DeriveSchedule | morph/Anneal.h:222-237 | The expected final temperatures, the control parameters c, the acceptance temperatures, and the state NeedToCompute, each as a function of m, n and the scale ratio. |
| Annealing.Anneal.StopCheck | morph/Anneal.h:403-409 | The stop test holds exactly when f_x_best_repeats has reached f_x_best_repeat_max; with a limit of 0 it holds at once. |
| Annealing.Anneal.AcceptedVsGenerated | morph/Anneal.h:412-419 | The ratio r satisfies r · (improved + worse) = accepted, it is never negative, and it is at most 1 when accepted counts do not exceed generated ones. |
| Annealing.Anneal.CoolingSchedule | morph/Anneal.h:291-297 | The parameter temperatures are temp_0 cooled by k, and the acceptance temperatures are temp_cost_0 cooled by num_accepted (CooledTemperatures); both keep D elements. When exp is positive, positive starting temperatures stay positive after cooling. |
| Annealing.Anneal.Tally | morph/Anneal.h:303-328 | Exactly one of num_improved and num_worse rises; num_accepted rises on acceptance and num_worse_accepted only for an accepted worse candidate. The counters stay ordered. |
| Annealing.Anneal.MoveToCandidate | morph/Anneal.h:319-329 | x and f_x become the candidate, and both histories grow by it. The best point moves, and f_x_best_repeats returns to 0, only for an objective strictly below f_x_best. An equal objective counts a repeat. A higher one leaves the best point alone. Admission of all points and BestIsLowest are kept. |
| Annealing.Anneal.AcceptanceCheck | morph/Anneal.h:301-335 | Counts the candidate as improved or worse according to downhill. Accepts it exactly when the acceptance probability exceeds u, and then moves to it, records it and updates the best point as above. A rejected candidate changes nothing but the one counter. f_x_best never rises. |
| Annealing.Anneal.GenerateParameter | morph/Anneal.h:268-285 | A candidate found by the rejection loop is the candidate of the last draw used. It lies inside [range_min, range_max], and with force_change it differs from x_start in every element. Every earlier draw in the stream produced an inadmissible candidate. When the stream runs out, every one of its draws was rejected. |
| Annealing.Anneal.GenerateNext | morph/Anneal.h:288 | x_cand becomes the first admissible candidate generated from x, inside the ranges. It is unchanged when the stream runs out. |
| Annealing.Anneal.ReannealTest | morph/Anneal.h:339-357 | due holds exactly when not both k_r < reanneal_after_steps and the accepted-vs-generated ratio ≥ acc_gen_reanneal_ratio. When it is not due, x_set and f_x_set are untouched. When it is due, x_set holds partials_samples samples inside the ranges that change every parameter, and f_x_set is resized to partials_samples. |
| Annealing.Anneal.ResetStats | morph/Anneal.h:423-430 | The four acceptance counters and k_r are zero. f_x_best_repeats is not in its frame, so it is kept. |
| Annealing.Anneal.SumPartials | morph/Anneal.h:364-367 | partials is the sum of the difference quotients (f_x_set[i] − f_x) / (x_set[i] − x) over the samples (PartialsSum). |
| Annealing.Anneal.EstimatePartials | morph/Anneal.h:364-372 | partials is the mean difference quotient (Partials), and the estimate is finite exactly when there is at least one sample and no partial is NaN or infinite. |
| Annealing.Anneal.Rescale | morph/Anneal.h:379-397 | s = −rdelta · partials. When the proposed temperatures temp · max(s) / s are all positive, temp and k move to them and to the truncated step count, failing only when that count is not representable. Otherwise k and temp are kept (RescaleOutcome). |
| Annealing.Anneal.Adjust | morph/Anneal.h:373-399 | With a zero partial, only the statistics are reset. Otherwise the rescale above runs, and the statistics are reset when it succeeds. A failure changes neither the statistics nor k nor temp. |
| Annealing.Anneal.CompleteReanneal | morph/Anneal.h:361-400 | Fails with PartialsNotFinite exactly when a partial is NaN or infinite or there are no samples; any failure keeps k, k_r, temp and the four counters. Otherwise the partials are the mean difference quotients. With a zero partial, k, temp and s are kept and the statistics reset. Otherwise s is the sensitivities. When the rescaled temperatures are all positive, k and temp move to them and to the truncated step count, or the outcome is KNotRepresentable when that count cannot be cast; when they are not, k and temp are kept. On success the four counters and k_r are zero (Reannealed). |
| Annealing.Anneal.CoolAndAccept | morph/Anneal.h:252-253 | After cooling_schedule() and acceptance_check(): the temperatures are cooled by the old k and num_accepted, at least one candidate has been generated, f_x_best has not risen, BestIsLowest is kept, and the history has grown by at most the new x. The accept or reject decision uses the cooled temp_cost (AcceptOutcome). On accept, x and f_x become the candidate, both histories record it, num_accepted rises by one, and num_worse_accepted rises unless it improved. The best point moves only when the candidate is strictly below f_x_best; an equal objective counts a repeat. On reject, none of these change. |
| Annealing.Anneal.ProposeNext | morph/Anneal.h:254-261 | With a candidate found, k and k_r each rise by one and x_cand lies inside the ranges. The state is NeedToComputeSet exactly when a reanneal is due, with the sample set ready, and NeedToCompute otherwise. When the draws run out the state is unchanged. |
| Annealing.Anneal.CountAndTest | morph/Anneal.h:255-261 | k and k_r each rise by one; the state then follows the reanneal decision as above. |
| Annealing.Anneal.CountStep | morph/Anneal.h:255-256 | k and k_r each rise by exactly one. |
| Annealing.Anneal.Resume | morph/Anneal.h:243-247 | steps rises by one and no point, objective or history moves. Without a pending reanneal the state, the step counts, the temperatures and the statistics are kept as well. With one, the partials are the mean difference quotients of the sample set, the reanneal's outcome on k, temp and the statistics is that of CompleteReanneal (Reannealed), and the state becomes NeedToStep on success and stays NeedToComputeSet on failure. |
| Annealing.Anneal.FinishPending | morph/Anneal.h:244-247 | The reanneal branch of step(): in NeedToComputeSet it passes on CompleteReanneal's outcome and partials and ends in NeedToStep on success. Without a pending reanneal nothing changes. |
| Annealing.Anneal.CompletePending | morph/Anneal.h:244-247 | complete_reanneal() followed by the state change: the outcome of CompleteReanneal, the partials as the mean difference quotients, and NeedToStep exactly on success. |
| Annealing.Anneal.StopOrAdvance | morph/Anneal.h:248-261 | Once f_x_best_repeats ≥ f_x_best_repeat_max, the state becomes ReadyToStop and nothing else changes. Otherwise one candidate is counted, the temperatures are cooled by the old k and num_accepted, and, with a candidate found, k and k_r rise by one, x_cand lies in the ranges, and the state is NeedToComputeSet exactly when a reanneal is due and NeedToCompute otherwise. The old candidate is accepted or rejected by acceptance_check()'s rule, with the outcome on x, f_x, the best point, f_x_best_repeats, the histories and the acceptance counts as for CoolAndAccept. The invariant holds, f_x_best does not rise, and the history grows by at most x. |
| Annealing.Anneal.Advance | morph/Anneal.h:252-261 | The non-stopping path of step(): exactly one candidate counted, temp and temp_cost cooled by the old k and num_accepted, and, with a candidate found, k and k_r one higher, x_cand in the ranges and the state NeedToComputeSet exactly when a reanneal is due, NeedToCompute otherwise. The old candidate is accepted or rejected with acceptance_check()'s outcome on x, f_x, the best point, f_x_best_repeats, the histories and the acceptance counts (Advanced). |
| Annealing.Anneal.Step | morph/Anneal.h:241-262 | steps rises by one; Valid and BestIsLowest are kept; f_x_best never rises; the history grows by at most the new x. A pending reanneal computes the partials as the mean difference quotients of the old sample set, and has CompleteReanneal's outcome on k and temp (kMid, tempMid). A failed reanneal leaves the state NeedToComputeSet, and keeps the points, histories, step counts, temperatures and statistics; partials (and s when k cannot be represented) hold the new estimates. On a stop, the state is ReadyToStop and only the reanneal's effects remain. Otherwise k = kMid + 1, temp is temp_0 cooled by kMid, temp_cost is temp_cost_0 cooled by the old num_accepted (0 after a reanneal), x_cand lies in the ranges, k_r and the candidate count are one past their old values (or both 1 after a reanneal), and the state is NeedToComputeSet exactly when reanneal_test's condition holds and NeedToCompute otherwise. The old candidate is accepted or rejected with acceptance_check()'s outcome on x, f_x, the best point, f_x_best_repeats, the histories, num_accepted and num_worse_accepted, with both counts starting from 0 after a reanneal. |
| Annealing.Anneal.StepFromCompute | morph/Anneal.h:241-262 | step() with no reanneal pending: steps rises by one, Valid and BestIsLowest are kept, f_x_best never rises, and the state change is SteppedFromCompute. That is either a stop that keeps the points, history, step counts, temperatures and statistics, or a pass with k and k_r one higher, temp and temp_cost cooled by the old k and num_accepted, acceptance_check()'s outcome, x_cand in the ranges and the reanneal test deciding the state. |
| Annealing.Anneal.StepFromComputeSet | morph/Anneal.h:241-262 | step() with a reanneal pending: the partials are the mean difference quotients of the sample set and the reanneal has CompleteReanneal's outcome on k and temp (kMid, tempMid). A failure leaves the state NeedToComputeSet with the points, histories and statistics kept. A stop after success leaves the reset statistics. A pass after success cools temp by kMid and temp_cost by 0, then applies acceptance_check()'s outcome from zero acceptance counts (SteppedFromComputeSet). |
| AnnealRules.StepFollowsDraw | morph/Anneal.h:275-277 | For a positive temperature, element i of the generating step is ≥ 0 when u[i] > 1/2, ≤ 0 when u[i] < 1/2, and 0 at u[i] = 1/2. |
| AnnealRules.Sentinel | morph/Anneal.h:198 | The starting objective (max when descending, lowest when ascending) improves on no value between lowest and max. |
| AnnealRules.GeneratingStep | morph/Anneal.h:277 | Ingber's step sgn(u − 1/2) · T · ((1 + 1/T)^\|2u − 1\| − 1), one element per temperature, and 0 wherever u[i] = 1/2. |
| AnnealRules.Candidate | morph/Anneal.h:278 | The candidate has D elements, and its displacement from x_start is the generating step of the draw. |
| AnnealRules.CooledTemperatures | morph/Anneal.h:294-296 | temp_0[i] · exp(−c[i] · count^(1/D)), one element per temperature; CoolingKeepsPositive proves positivity. |
| AnnealRules.AcceptanceProbability | morph/Anneal.h:313 | exp(−(f_cand − f_x) / (epsilon + mean(temp_cost))), which is positive when exp is. |
| AnnealRules.DifferenceQuotient | morph/Anneal.h:366 | One sample's estimate: element j is (f_sample − f_x) / (sample[j] − x[j]). |
| AnnealRules.Partials | morph/Anneal.h:364-368 | Each partial times partials_samples is the accumulated sum of difference quotients; PartialIsMeanQuotient makes it their mean. |
| AnnealRules.Sensitivities | morph/Anneal.h:379 | s = −rdelta · partials: for positive rdelta, s[i] is zero exactly when partials[i] is, and positive exactly when partials[i] is negative. |
| AnnealRules.RescaledTemperatures | morph/Anneal.h:381 | temp · max(s) / s: with exact division and no zero sensitivity, the dimension of largest sensitivity keeps its temperature. |
| AnnealRules.ReannealedStepCount | morph/Anneal.h:387 | The mean of (log(temp_0 / temp_re) / c)^D through the truncating unsigned cast, so a count is below 2^32. |
| AnnealRules.CoolingKeepsPositive | morph/Anneal.h:294-296 | Cooling positive temperatures keeps them positive. |
| AnnealRules.NonIncreasingCandidateAccepted | morph/Anneal.h:313-315 | A candidate whose objective is not higher than f_x has probability at least 1, so it is accepted for every draw below 1. |
| AnnealRules.SumPositive | morph/Anneal.h:313 | A non-empty vector of positive temperatures has a positive sum, so the denominator epsilon + mean(temp_cost) is positive. |
| AnnealRules.AcceptedRatio | morph/Anneal.h:414 | The ratio times the number generated equals the number accepted; it is non-negative, and at most 1 when accepted ≤ generated. |
| AnnealRules.PartialsSumAlong | morph/Anneal.h:364-367 | Element j of the accumulated partials is the sum of the quotients (f_x_set[i] − f_x) / (x_set[i][j] − x[j]) over the samples. |
| AnnealRules.PartialIsMeanQuotient | morph/Anneal.h:364-368 | Each partial is the mean of the difference quotients along its dimension. |
| AnnealRules.RescalePositiveIffSameSign | morph/Anneal.h:379-385 | For positive temperatures and no zero sensitivity, the rescaled temperatures are all positive exactly when the sensitivities all share one sign. |
| AnnealRules.RescaledElementPositive | morph/Anneal.h:381 | When the sensitivities share a sign, each rescaled temperature is positive. |
| AnnealRules.UnsignedCast | morph/Anneal.h:387 | The cast is defined exactly for values above −1 and below 2^32. It truncates toward zero, so a non-negative value lands within 1 of its result and a value in (−1, 0) gives 0. |
| RealSeq.Max | morph/Anneal.h:381 | The result bounds every element and is one of them. |
| RealSeq.Resized | morph/Anneal.h:349-350 | The result has the new length, keeps the old prefix and fills the new tail. |
| RealSeq.ResizedEmpty | morph/Anneal.h:206-212 | Resizing an empty vector yields n copies of the fill value. |
| RealSeq.DifferenceUndoesSum | morph/Vector.h:288-323 | (a + b) − b == a. |
| RealSeq.NegationInvolutive | morph/vVector.h:256-260 | −(−v) == v. |
| RealSeq.DividedUndoesScaled | morph/vVector.h:360-397 | (v · s) / s == v for non-zero s. |
| RealSeq.DotProductSymmetric | morph/Vector.h:229-237 | The scalar product of equal-length vectors is symmetric. |
| RealSeq.DotProductIgnoresTail | morph/vVector.h:332-337 | Only the first size() elements of the second operand take part in dot. |
| RealSeq.DotProductSelfNonNegative | morph/Vector.h:229-237 | v · v ≥ 0. |
| RealSeq.CrossProductSelfZero | morph/Vector.h:210-216 | a × a is the zero vector. |
| RealSeq.CrossProductOrthogonal | morph/Vector.h:210-216 | a · (a × b) == 0. |
| RealSeq.CrossProductAntiCommutative | morph/vVector.h:279-288 | a × b == −(b × a). |
| Format.CoordinatesOfEmpty | morph/vVector.h:159-173 | The empty vector's text is "()". |
| Format.JoinSeparators | morph/vVector.h:159-173 | When no number's text contains a comma, the joined text of a non-empty vector contains exactly one comma fewer than there are elements. |
| VVectors.VVector.Zero | morph/vVector.h:192-194 | The length is kept and every element is 0. |
| VVectors.VVector.SetFrom | morph/vVector.h:99-101 | The front of this vector becomes vec and the rest is kept; the length does not change. |
| VVectors.VVector.SetFromArray | morph/vVector.h:107-110 | After resizing to the array's length, this vector equals the array. |
| VVectors.VVector.SetFromOneLonger | morph/vVector.h:118-151 | When v is exactly one longer, this vector becomes v without its last element; otherwise it is unchanged. |
| VVectors.VVector.Str | morph/vVector.h:159-173 | "(" + the elements joined by "," + ")". |
| VVectors.VVector.Negate | morph/vVector.h:256-260 | A same-length vector with every element negated. |
| VVectors.VVector.Cross | morph/vVector.h:279-288 | The cross product when both operands have three elements, the empty vector otherwise. |
| VVectors.VVector.CrossAssign | morph/vVector.h:297-305 | This vector becomes the cross product when both have three elements; otherwise it is unchanged. |
| VVectors.VVector.Dot | morph/vVector.h:332-337 | The sum of this[i] · v[i] over this vector's length. |
| VVectors.VVector.Hadamard | morph/vVector.h:345-351 | A vector of v's length whose first size() elements are the elementwise products and whose tail is zero. |
| VVectors.VVector.Multiply | morph/vVector.h:360-365 | Every element times s, same length. |
| VVectors.VVector.MultiplyAssign | morph/vVector.h:374-377 | In place, the same values as scalar *. |
| VVectors.VVector.Divide | morph/vVector.h:383-388 | Every element divided by non-zero s, same length. |
| VVectors.VVector.DivideAssign | morph/vVector.h:394-397 | In place, the same values as scalar /. |
| VVectors.VVector.Add | morph/vVector.h:403-409 | A vector of this length with element i = this[i] + v[i]. |
| VVectors.VVector.AddAssign | morph/vVector.h:415-419 | In place, the same values as vector +. |
| VVectors.VVector.Subtract | morph/vVector.h:425-431 | A vector of this length with element i = this[i] − v[i]. |
| VVectors.VVector.SubtractAssign | morph/vVector.h:437-441 | In place, the same values as vector −. |
| VVectors.VVector.AddScalar | morph/vVector.h:447-452 | Every element plus s, same length. |
| VVectors.VVector.AddScalarAssign | morph/vVector.h:458-461 | In place, the same values as scalar +. |
| VVectors.VVector.SubtractScalarAssign | morph/vVector.h:478-481 | In place, every element minus s. |
| Vectors.Vector.AsString | morph/Vector.h:96-111 | "(" + the components joined by "," + ")". |
| Vectors.Vector.Negate | morph/Vector.h:191-199 | Every component negated. |
| Vectors.Vector.Cross | morph/Vector.h:210-216 | For N == 3, the cross product. |
| Vectors.Vector.CrossAssign | morph/Vector.h:218-226 | The components become the cross product of their old values with v2. The temporary makes this equal to the value form. |
| Vectors.Vector.Dot | morph/Vector.h:229-237 | The sum of the pairwise products. |
| Vectors.Vector.Multiply | morph/Vector.h:242-252 | Every component times s. |
| Vectors.Vector.MultiplyAssign | morph/Vector.h:255-260 | In place, the same values as scalar *. |
| Vectors.Vector.Divide | morph/Vector.h:266-276 | Every component divided by non-zero s. |
| Vectors.Vector.DivideAssign | morph/Vector.h:278-283 | In place, the same values as scalar /. |
| Vectors.Vector.Add | morph/Vector.h:288-296 | Componentwise sum. |
| Vectors.Vector.AddAssign | morph/Vector.h:297-303 | In place, the same values as vector +. |
| Vectors.Vector.Subtract | morph/Vector.h:308-316 | Componentwise difference. |
| Vectors.Vector.SubtractAssign | morph/Vector.h:317-323 | In place, the same values as vector −. |
| Vectors.Vector.AddScalar | morph/Vector.h:329-339 | Every component plus s. |
| Vectors.Vector.AddScalarAssign | morph/Vector.h:341-346 | In place, the same values as scalar +. |
| Vectors.Vector.SubtractScalar | morph/Vector.h:352-362 | Every component minus s. |
| Vectors.Vector.SubtractScalarAssign | morph/Vector.h:364-369 | In place, the same values as scalar −. |

## Left out

- Annealing.Anneal.constructor: requires as many ranges as initial parameters, and at least one parameter. The source writes range_min[i] for every range without a size check.
- Annealing.Anneal.Configure: models the caller's writes of the public parameters only before init(). A change after init() would leave m, n and c derived from the old values.
- Annealing.Anneal.Init: callable only from NeedToInit. A second init() of a running annealer is not modelled.
- Annealing.Anneal.Step: requires init() to have run (state other than NeedToInit). The source's step() before init() would index empty vectors.
- Annealing.Anneal.Step: in the stop and failed-reanneal cases the contract lists which fields are kept rather than every field.
- Annealing.Anneal.AcceptedVsGenerated: requires at least one generated candidate. In the source the call in reanneal_test() always follows acceptance_check() in the same step.
- Counters, k, k_r and steps are unbounded naturals. The 32-bit wrap-around of unsigned int is not modelled.
- Annealing.Anneal.GenerateParameter: works through a finite stream of draws. When the stream runs out the step ends with DrawsExhausted, where the source would go on drawing.
- Annealing.Anneal.Step: must not be called again after DrawsExhausted. The object is then left mid-step: cooling and acceptance_check() are done, k has not advanced and x_cand is stale, so a later Step would repeat the acceptance on the same candidate, which the source never does.
- IEEE arithmetic: exp, log, pow, division by a possible zero, NaN and infinity are the uninterpreted FloatOps. Rounding, underflow and overflow are not modelled. The lemmas assume only the properties in FloatOps.Sound.
- k_f (morph/Anneal.h:223) is a debugging aid that nothing reads. It is not modelled.
- Debug printing (`if constexpr (debug)`), `operator<<` and output are left out.
- The random number generators (RandUniform, randomize, rng_u.get()) are replaced by the draws passed to Step.
- Scalar subtraction on a vVector is modelled as a correct elementwise v − s. As written, vVector's scalar operator− (morph/vVector.h:467-472) transforms into an empty result vector, which is undefined behaviour. generate_parameter uses it three times (`(u*T{2}) - T{1}`, `u-T{0.5}` and `… - T{1}` at morph/Anneal.h:275-277), and AnnealRules.GeneratingStep and AnnealRules.Candidate assume the elementwise meaning there. The vVector operator itself has no member of its own; Vector's scalar − is Vectors.Vector.SubtractScalar.
- Division is modelled as division in the element type T, and every scalar as a value of T, as morph/Vector.h:265-283 does by casting the scalar to Flt. The vVector.h operators deduce the scalar type from the divisor, so the divisions of Anneal.h by unsigned ints (`-this->n/this->D` at morph/Anneal.h:231, `partials /= partials_samples` at morph/Anneal.h:368) would be unsigned integer divisions by that text, with truncated or undefined results. The model assumes Anneal.h's vVector divides in T.
- VVectors.VVector.Multiply, MultiplyAssign, Divide, DivideAssign, AddScalar, AddScalarAssign, SubtractScalarAssign: these model only a scalar of the element type (`s: real`). A scalar of another type, converted element by element as vVector.h does, is not modelled.
- VVectors.VVector.Divide, DivideAssign, Vectors.Vector.Divide, Vectors.Vector.DivideAssign: these require a non-zero divisor, because a division by zero has no real value: in a floating-point T it gives an infinity or NaN, and in an integer T it is undefined.
- VVectors.VVector.SetFrom, Dot, Hadamard, Add, AddAssign, Subtract, SubtractAssign: these require the other vector to be at least as long as the loop's range. The source reads or writes past the end otherwise.
- Vector arguments are passed as value sequences, so aliasing between `this` and the argument is not modelled.
- vVector's set_from(scalar), as used by init() for m and n (morph/Anneal.h:216, 219), is RealSeq.Filled. vVector's operator=, randomize, renormalize, length, checkunit and operator! (sqrt or random based), and Vector's counterparts, are not modelled.
- Anneal.h calls vVector members that are not in vVector.h: exp, log, pow, abs, signum, has_zero, has_nan_or_inf, mean, max, elementwise products and quotients, and the comparisons <=, >= and >. These are the pure functions of RealSeq and AnnealRules, elementwise where Anneal.h needs them to be.
- morph/GratingVisual.h and examples/neuralnet/nn4.cpp are not part of this model (rendering and an example program).
