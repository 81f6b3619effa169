# Discrete stochastic SIR simulator — Dafny model

This project models `epi_forecast_stat_mech/sir_sim.py`, the generator of
synthetic epidemic data: a discrete-time SIR (susceptible, infected,
recovered) recursion that produces one full epidemic curve; a rejection
loop that discards stochastic fadeouts; the cut of an "observed to date"
window from the full curve; and the batch that runs `num_simulations`
replicates of `num_epidemics` epidemic slots and assembles one trajectory
record per pair.

Every random draw and every floating-point formula is lifted out as an
input, leaving exact integer and sequence logic:

- the two binomial draws of each SIR step are a sequence of `Draw`s,
  constrained only by the binomial support (`0..S` new infections,
  `0..I` recoveries);
- each simulator call of the rejection loop is an oracle `attempt(a)`,
  the curve of the `a`-th call; in the batch, `attempt(j, k)` is the
  stream of calls of replicate `j`, slot `k`;
- the beta generator's output `(beta, v, alpha)` and the per-slot
  `percent_infected` draws arrive in a `Config`; `percent_infected` is a
  `real`, so `total * percent_infected` is exact.

Modules, following the source's components:

- `Results` — `Option` and `Result`.
- `Series` — `np.sum`, `np.cumsum`, the "non-predictive" cumulative sum
  `cumsum([0] + s)[:-1]` and `np.arange`.
- `SirCurve` — `generate_ground_truth_SIR_curve`: compartments, one step,
  the loop until no one is infected, population conservation.
- `Observation` — `generate_observed_SIR_curves`: the fadeout rejection
  loop (at most 5000 calls, threshold 10) and the observation-window
  cutoff with its floor of 2 days.
- `Covariates` — the weight vector and linear predictor of
  `generate_betas_many_cov2` and the two-level betas of
  `generate_betas_effect_mod`.
- `Simulations` — `generate_SIR_simulations`: metadata per slot, the
  replicate-major loop, sequential ids, the trajectory record.

The cutoff takes the maximum of an index set that can be empty, and then
`np.max` raises. The model returns `Failure(NoDayBelowTarget)` there. On a
simulator curve, whose first day is the single seed case, this happens
exactly when `total * percent_infected <= 1`. That is reachable within the
source's own ranges: the simulator can return the curve `[1, 9, 0]` for a
population of 10, its total of 10 passes the rejection loop, and
`percent_infected` 0.05 then makes the cutoff fail
(`Observation.SmallTargetFails`). The comment at sir_sim.py:170 says the
current time "must be at least 2", but the inner `np.max` at line 172
raises before the floor of 2 is applied. The model follows the code, and
`Simulations.GenerateSimulations` propagates the failure of the first
position whose cutoff fails.

The docstring of `disease_trajectory` gives `v` the shape
`(num_epidemics, num_covariates)`, but the code takes `v[:, k]` as epidemic
`k`'s covariates; the model follows the code (`Covariates.Column`).

## Model

| member | source | states |
|---|---|---|
| `Series.CumsumMeaning` | epi_forecast_stat_mech/sir_sim.py:171 | the inclusive cumulative sum at day i is the total of days 0..i; it is non-decreasing and ends at the series total |
| `Series.NonPredictiveCumsumMeaning` | epi_forecast_stat_mech/sir_sim.py:229-231 | `cumsum([0] + s)[:-1]` has the length of s, starts at 0, holds at day i the total of the days strictly before i, is non-decreasing, and plus day i's count gives the inclusive cumulative sum |
| `Series.TimeIndex` | epi_forecast_stat_mech/sir_sim.py:227-228 | `np.arange(n)` has length n and holds i at position i |
| `SirCurve.Simulate` | epi_forecast_stat_mech/sir_sim.py:107-132 | the loop consumes one draw per step and records each step's new infections; it stops with no one infected, after at least one step when someone was infected; the head count is conserved by every step; with in-support draws non-negative compartments stay non-negative; the susceptible pool shrinks by exactly the recorded infections |
| `SirCurve.GroundTruthCurve` | epi_forecast_stat_mech/sir_sim.py:101-134 | the curve starts with the seed count 1, has length at least 2, holds after the seed day one entry per step, draw i's infections at day i + 1; at the end no one is infected, the recovered count equals the curve's total, and the total is at most the population; the loop halted the first time no one was infected, so the curve is one longer than the number of steps taken |
| `SirCurve.SupportedStepsConserve` | epi_forecast_stat_mech/sir_sim.py:116-132 | if every step's draws lie in the binomial support, then after every step S, I and R are non-negative and sum to the population |
| `SirCurve.SimulateHaltsAfter` | epi_forecast_stat_mech/sir_sim.py:107-132 | the simulator succeeds after n steps if and only if someone was infected and the draws were in support before each of the n steps, and no one is infected after them |
| `SirCurve.ConservedAlongCurve` | epi_forecast_stat_mech/sir_sim.py:101-132 | for every curve the simulator returns, S + I + R equals the population, with all three non-negative, after every step |
| `Observation.RetryFrom` | epi_forecast_stat_mech/sir_sim.py:161-164 | the loop entered with `count` calls made makes at least one more and at most 5000 in all, keeps the last curve generated, stops only when that curve totals at least 10 or the budget is used up, and every curve it passed over totalled less than 10 |
| `Observation.RejectFadeouts` | epi_forecast_stat_mech/sir_sim.py:157-164 | the whole rejection loop calls the simulator between 1 and 5000 times, returns the last curve generated, which totals at least 10 unless all 5000 calls were made, and all earlier curves were fadeouts |
| `Observation.RejectFadeoutsKeepsFirstOutbreak` | epi_forecast_stat_mech/sir_sim.py:161-164 | if some call among the first 5000 returns a curve of total at least 10, the loop keeps exactly the first such call's curve after that many calls |
| `Observation.LastIndexBelow` | epi_forecast_stat_mech/sir_sim.py:172 | `np.max(np.where(c < target))`: the index found is below the target and every later index is not; no index is found exactly when no entry is below the target |
| `Observation.CurrentTime` | epi_forecast_stat_mech/sir_sim.py:167-172 | the current time is at least 2; it fails exactly when no day's inclusive cumulative count is below `total * percent_infected`; every day after it has reached the target, and above the floor it is itself a day whose cumulative count is below the target, so it is the last such day raised to 2 |
| `Observation.Take` | epi_forecast_stat_mech/sir_sim.py:176 | the slice `s[:n]` is a prefix of s whose length is n clamped to the length of s |
| `Observation.ObservationWindow` | epi_forecast_stat_mech/sir_sim.py:167-176 | the observed window fails exactly when the current time does; otherwise it is a prefix of the curve with at least 2 days (or the whole curve); every day after the one ending it has reached the target, and above the floor that day is still below it |
| `Observation.GenerateObserved` | epi_forecast_stat_mech/sir_sim.py:136-178 | the ground truth returned is the curve the rejection loop kept, the observed series is exactly that curve's cutoff window, and the call fails exactly when the cutoff of that curve fails |
| `Observation.ObservedBelowTarget` | epi_forecast_stat_mech/sir_sim.py:167-176 | whenever the day that ends the window is below the target (every window above the floor, and a window at the floor when day 2 is below it), the observed days total strictly less than the target |
| `Observation.SirCurveWindow` | epi_forecast_stat_mech/sir_sim.py:171-176 | on a simulator curve the cutoff fails if and only if the target is at most 1, and otherwise the window has between 2 days and the whole curve |
| `Observation.WindowLeavesFinalDays` | epi_forecast_stat_mech/sir_sim.py:167-176 | with `percent_infected` in [0, 1], a window above the floor leaves at least the final two days of the curve unobserved |
| `Observation.SmallTargetFails` | epi_forecast_stat_mech/sir_sim.py:101-172 | the simulator returns [1, 9, 0] for a population of 10 on suitable draws, its total of 10 passes the rejection loop, and with `percent_infected` 0.05 the cutoff fails |
| `Covariates.ManyCovariateWeights` | epi_forecast_stat_mech/sir_sim.py:308-311 | one weight per covariate: weight r is 1 exactly for the first `num_pred` covariates and 0 exactly for the others |
| `Covariates.ManyCovariatePredictor` | epi_forecast_stat_mech/sir_sim.py:309-314 | under those weights `matmul(alpha, v)` for one epidemic is the sum of its predictive covariates alone |
| `Covariates.NonPredictiveCovariatesIgnored` | epi_forecast_stat_mech/sir_sim.py:306-314 | epidemics whose predictive covariates agree get the same linear predictor, whatever their non-predictive covariates |
| `Covariates.EffectModBetas` | epi_forecast_stat_mech/sir_sim.py:286-289 | one beta per epidemic, computed as 1.5 times 2 raised to the product of the indicators `hd == 1` and `ws == 0`; it is 3.0 (1.5 doubled) exactly when the epidemic is high-density and not masked, and 1.5 exactly otherwise |
| `Simulations.MakeTrajectory` | epi_forecast_stat_mech/sir_sim.py:224-248 | the record carries the observed and ground-truth series, their time indices numbering days from 0, their cumulative sums over strictly earlier days, the ground truth's total, and an estimate that times the observed fraction is the observed total |
| `Simulations.GenerateSimulations` | epi_forecast_stat_mech/sir_sim.py:201-252 | the result is either a batch of exactly `S * E` trajectories, each the one expected at its position, or the error of the first failing position after all earlier positions succeeded |
| `Simulations.BatchPositions` | epi_forecast_stat_mech/sir_sim.py:220-250 | the trajectory at position p has id p, replicate `p / E` and slot `p % E` |
| `Simulations.BatchIds` | epi_forecast_stat_mech/sir_sim.py:220-250 | replicate j, slot k sits at position `j * E + k` with that id, and the ids in order are exactly `0 .. S * E - 1` |
| `Simulations.BatchMetadataShared` | epi_forecast_stat_mech/sir_sim.py:214-244 | every trajectory carries the metadata built for its slot, whose `epidemic_id` is the slot, the slot's covariate column and the shared weights; two trajectories of the same slot share metadata and covariates |
| `Simulations.BatchTrajectoriesWellFormed` | epi_forecast_stat_mech/sir_sim.py:223-248 | given simulator curves, every trajectory's observed series is a prefix of its ground truth of at least 2 days; the ground truth is the curve the rejection loop kept, totalling at least 10 unless all 5000 calls were made; its total and derived series are consistent |

## Left out

- Random number generation (`stats.binom.rvs`, `np.random.uniform`, `np.random.binomial`): every draw is an input, constrained only by its support; the order in which one global generator is consumed across slots is not modelled, each slot getting its own stream of simulator calls.
- Floating-point formulas: the infection and recovery probabilities `1 - exp(-beta * I / N)` and `1 - exp(-gamma)`, and the betas `0.4 * exp(alpha . v)` and `1 + exp(alpha . v)`. They only parameterise draws that are inputs, so the metadata's `pop_size`, `beta` and `gamma` are carried but never read.
- `generate_betas_from_single_random_covariate`: apart from its fixed weight vector `[1.0]` it is a uniform draw and an `exp`, both outside the model.
- `Covariates.EffectModBetas`: gives the exact value 1.5 * 2^indicator of `exp(log(1.5) + log(2.0) * indicator)` through `Covariates.Power`, not its floating-point rounding.
- `SirCurve.Simulate`: a finite draw sequence replaces the unbounded stochastic loop, so `DrawsExhausted` and `DrawOutOfSupport` are failures of the input, not of the source, except at a population of 0, where `Initial` has a negative susceptible count so no draw is in support, and the source itself fails by dividing by zero at sir_sim.py:111; almost-sure termination of the random process is not modelled.
- `Simulations.GenerateSimulations`: requires a non-zero `frac_estimate_of_total`; with 0 numpy stores an infinite or NaN estimate instead of failing. It also requires at least `num_epidemics` betas and covariate columns, because the beta generator takes its count from its own parameters rather than from `num_epidemics`; with fewer, the source raises IndexError at `beta[i]` (sir_sim.py:216) or `v[:, k]` (sir_sim.py:242), and the model does not represent that error.
- The cumulative sums are exact naturals; the source builds them from a float `0.` and holds them as float64, which is exact for counts this small.
- Named-tuple field plumbing, `*list_of_meta_data[k][3:]` argument unpacking, `np.append` and array dtype mechanics.
