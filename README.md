# COVID-19 vaccination campaign model, in Dafny

This project models the simulation core of a COVID-19 vaccination campaign
model (`model.py`). The core has three parts:

- **One realization** (`run_single_realization`). A day-by-day loop over
  integer counters: the vaccine stock, the vaccines received so far, the
  people vaccinated, the pro-vaccine people still waiting, and the
  agnostics. Vaccines arrive on days that are multiples of 7. A Poisson
  number of vaccinations is clamped to the stock and to the waiting people,
  then applied. A Poisson number of agnostics is clamped to the agnostics
  left, then converted to waiting. Four series are recorded per day: people
  vaccinated per hundred, daily vaccinations per million, vaccines received
  per hundred, and stock per hundred.
- **The parameter sampler** (`sample_param_combinations`). It draws the
  pro- and anti-vaccine shares uniformly between their bounds and rejects
  pairs whose sum exceeds 1. After more than `n_rep * 10` rejections it
  gives up. Otherwise it returns `n_rep` parameter combinations, each with
  its agnostic share `1 - (p_pro + p_anti)`.
- **The ensemble bookkeeping** (`run_model_sampling`). One realization runs
  per combination, and the four series are collected per metric. The loop
  stops after the first realization that finishes over the time budget. The
  daily-vaccinations metric is then added to a copy of itself shifted 30
  days later (second doses), with missing dates counted as zero. The result
  is read off every 7th day from the start date.

Random draws, the floating-point delivery formula and the clock are inputs
of the model:

- `Realization.DayInput` carries, for each day, `int(F(day))` and the two
  Poisson draws.
- The sampler reads a stream `u` of unit variates in [0, 1), in the same
  order as the original draws.
- The ensemble takes the elapsed time measured after each realization.

Modules: `Realization` (realization.dfy), `Sampler` (sampler.dfy),
`DoseAccounting` (dose_accounting.dfy), `Ensemble` (ensemble.dfy) and
`Wrappers` (wrappers.dfy, an `Option` type).

The realization loop, the rejection loop and the accumulation loop are
methods with loop invariants. The realization method is proved equal to a
pure specification, `Realization.Realize`, which is built from
`Step`/`After`/`Record`; the body of its loop, one simulated day, is the
method `Realization.SimulateDay`. The conservation laws and bounds are
lemmas about that specification. In the same way, the rejection loop is
proved equal to `Sampler.Sample`, which runs rounds of `Sampler.Advance`
over the variate stream; the threshold and the acceptance conditions are
lemmas about it. The accumulation loop of
`run_model_sampling` is `Ensemble.RunRealizations`, and
`Ensemble.RunModelSampling` adds the dose transform to its rows. The dose
shift and the 7-day reindex are pure functions on date-indexed maps. Their
closed form is proved as a lemma.

Facts about the code that the model keeps:

- The reindex at model.py:207 only picks every 7th date. Nothing is
  averaged over the week, whatever the comment at model.py:206 says.
- The band edges are quantiles of the samples: `lower` is the `1-CI`
  quantile and `upper` the `CI` quantile (model.py:216-218). For
  `CI < 0.5`, `lower` is at least `upper`, and the mean need not lie
  between them.
- With an empty collection of parameter combinations, `run_model_sampling`
  does not return an empty result. It fails on the missing
  daily-vaccinations key (model.py:192-193). The model returns `None` there.

## Model

| member | source | states |
|---|---|---|
| `Realization.Trunc` | model.py:62-63 | Python's `int()` truncates toward zero: for x >= 0 the result is the largest integer not above x, and for x < 0 the smallest integer not below x |
| `Realization.InitialSplit` | model.py:59-71 | Before day 0 the waiting and agnostic counts are the shares `p_pro*N` and `(1-(p_pro+p_anti))*N` rounded down, and together they are at most N |
| `Realization.Applied` | model.py:98-104 | The applied vaccinations are at most the draw, at most the stock after that day's arrival, and at most the people waiting. They equal one of the three, so they are their minimum |
| `Realization.Converted` | model.py:110-114 | Converted agnostics are at most the draw and at most the agnostics left, and they equal one of the two |
| `Realization.StepLaws` | model.py:80-116 | One day keeps `vaccinated + waiting + agnostics` fixed and keeps `stock + vaccinated - received` fixed. Received grows by exactly the arrival, and by nothing on days that are not multiples of 7. Vaccinated grows by the applied count and agnostics shrink by the converted count |
| `Realization.Record` | model.py:73-78 | Each recorded series has exactly one entry per simulated day |
| `Realization.RecordAt` | model.py:118-123 | Entry d of each series is computed from the counters after day d: vaccinated*100/N, applied*1e6/N, received*100/N, stock*100/N |
| `Realization.Conservation` | model.py:86-116 | After any number of days, `vaccinated + waiting + agnostics` equals its initial value, and `stock + vaccinated == received` (starting from the initial counters) |
| `Realization.Monotone` | model.py:81-88 | Between any two days, vaccinated and received never decrease and agnostics never increase |
| `Realization.ReceivedIsWeeklyDeliveries` | model.py:80-88 | The vaccines received in the first k days are exactly the sum of the deliveries of days 0, 7, 14, ... below k |
| `Realization.NoConversionBound` | model.py:110-116 | When no agnostic ever converts (pressure 0 makes every draw 0), vaccinated plus waiting stays the initial pro-vaccine group, so vaccinated never exceeds it |
| `Realization.RecordBounds` | model.py:105-123 | From any counters whose groups fit in the population, the recorded vaccinated share lies between 0 and 100 percent and never decreases, and the recorded received share never decreases |
| `Realization.RealizeBounds` | model.py:105-123 | The recorded vaccinated share lies between 0 and 100 percent and never decreases. The recorded received share never decreases |
| `Realization.SimulateDay` | model.py:80-116 | One pass of the loop body turns the counters into exactly `Step` of them, and the vaccinations it applies are exactly `Applied` |
| `Realization.RealizeBalance` | model.py:86-123 | On every recorded day of a realization, the stock share plus the vaccinated share equals the cumulative received share: every vaccine received is either in stock or applied |
| `Realization.RunSingleRealization` | model.py:25-132 | The loop returns exactly the specified trajectory `Realize`, with `days` entries per series. So `RealizeBounds` and `RealizeBalance` hold of the series it returns, and `Conservation` holds of the counters it records |
| `Sampler.Uniform` | model.py:273-274 | A uniform draw made from a unit variate lies between the two bounds, in either order |
| `Sampler.DrawRound` | model.py:273-296 | One pass of the loop body turns the loop state into exactly `Advance` of it: a rejected pair uses two variates and counts one rejection; an accepted pair uses six and appends the combination and its agnostic share |
| `Sampler.SampleParamCombinations` | model.py:268-299 | The loop always terminates, and its outcome is exactly `Sample(bounds, n_rep, u)`, the outcome of the rounds drawn from the variate stream `u` |
| `Sampler.CountsMonotone` | model.py:271-296 | From one round to a later one, the rejection counter and the number of accepted combinations never decrease |
| `Sampler.RunInfeasibleWitness` | model.py:276-283 | If sampling gives up, some round brings the rejection counter of the draws from `u` to `n_rep*10 + 1` while fewer than `n_rep` combinations are accepted |
| `Sampler.RunGivesUp` | model.py:276-283 | Conversely, a round that brings the rejection counter to `n_rep*10 + 1` with fewer than `n_rep` accepted makes sampling give up from every earlier round |
| `Sampler.Threshold` | model.py:271-283 | Sampling gives up exactly when the rejection counter of the draws from `u` reaches `n_rep*10 + 1` before `n_rep` combinations are accepted |
| `Sampler.RunSampledDraws` | model.py:271-299 | A successful run returns the combinations and agnostic shares accepted in the first rounds from `u`, in draw order: `n_rep` of them, after at most `n_rep*10` rejections |
| `Sampler.RoundsAccepted` | model.py:284-296 | Every combination accepted in the first k rounds has `p_pro + p_anti <= 1` and every parameter within its bounds, and the agnostic share at the same position is `1 - (p_pro + p_anti)` |
| `Sampler.SampledAccepted` | model.py:268-299 | On success, sampling returns exactly `n_rep` combinations and `n_rep` agnostic shares, each combination accepted as above |
| `Sampler.RoundsAllRejected` | model.py:276-283 | When the lower share bounds sum above 1, every round is a rejection: after k rounds the counter is k and nothing is accepted |
| `Sampler.RoundsNoneRejected` | model.py:284-296 | When the upper share bounds sum to at most 1, no round is a rejection: after k rounds, k combinations are accepted |
| `Sampler.AlwaysRejectedInfeasible` | model.py:276-283 | Bounds whose lower shares sum above 1 always make sampling give up when `n_rep > 0` |
| `Sampler.NeverRejectedSampled` | model.py:268-299 | Bounds whose upper shares sum to at most 1 always let sampling succeed |
| `DoseAccounting.DailyDates` | model.py:167-168 | The daily date index holds exactly the days from start to end, both included, once each: it starts at start, each date is the previous one plus a day, and there are `end - start + 1` of them (none when end < start) |
| `DoseAccounting.GridDates` | model.py:207 | The 7-day grid is non-empty exactly when start <= end. Date k is start + 7k, every grid date is at most end, and the next step would pass end |
| `DoseAccounting.IndexedAt` | model.py:194 | A series placed on consecutive dates holds exactly those dates, each with the value at its offset |
| `DoseAccounting.CombinedAt` | model.py:202-205 | The first-plus-second-dose series holds offsets `[0, m)` and `[30, 30+m)`. At each offset its value is the first doses of that day plus the first doses of 30 days earlier, whichever exist |
| `DoseAccounting.DoseAdjustedAt` | model.py:202-210 | The transformed series has one entry per grid date. The entry at offset `d = 7k` is `orig[d] + orig[d-30]`, where the second term is present only when `d >= 30`; nothing is averaged |
| `Ensemble.RunRealizations` | model.py:170-185 | The loop finishes at least one realization exactly when there are combinations, and all of them when there is no budget. None before the last finished one ended over budget, and stopping early means the last one did. Trajectory i is the realization of combination i, and each metric's rows are those trajectories' series in order |
| `Ensemble.RealizedIsRuns` | model.py:172-181 | Trajectories that are, position by position, the realizations of the combinations are the first runs, in order |
| `Ensemble.RunsAt` | model.py:172-181 | The i-th run is the realization of the i-th combination |
| `Ensemble.RunModelSampling` | model.py:165-210 | The result is absent exactly when there are no parameter combinations. Otherwise `1 <= number_finished_samples <= len(params)`, with equality when there is no budget. Stopping early means the last finished realization ended over budget, and none before it did. Each metric has one row per finished realization, equal to that realization's series. The daily metric's rows are the dose-adjusted series on the 7-day grid |
| `Ensemble.DailySampleAt` | model.py:192-210 | Every row of the daily metric has one entry per grid date: the realization's daily value at offset 7k plus, from offset 30 on, its value 30 days earlier |
| `Ensemble.PeopleSampleBounds` | model.py:172-179 | In every finished realization, the sampled vaccinated share lies in [0, 100] and never decreases |
| `Ensemble.SampledRunnable` | model.py:59-60 | A combination accepted from non-negative share bounds passes the realization's assertion, and its agnostic share lies in [0, 1] |

## Left out

- Floating point: the recorded series, the shares and the uniform draws are
  exact reals. Float rounding is not modelled.
- Random numbers: the Poisson draws (model.py:100, 112) and the uniform
  draws (model.py:273-274, 287-290) are inputs. Any natural-number draws
  are allowed, so every property holds whatever the Poisson means were. The
  global seed (app.py:524) is the caller's concern.
- The weekly delivery formula `min(nv_0*exp(log(2)*t/(7*tau)), nv_max)*N`
  (model.py:65): its truncated value on each day is an input. Its
  non-negativity, which model.py:86 asserts, is the input's `nat` type.
- The confidence-interval statistics (`np.quantile`, `mean`,
  model.py:212-222), and the soft-no mean and standard deviation computed
  by the callers.
- The wall clock (model.py:165, 183): the elapsed times after each
  realization are inputs.
- The `functools.lru_cache` memoization (model.py:135): it is library
  behaviour.
- The pandas NaN that `reindex` produces for a date outside the index: it
  cannot occur here, because every grid date lies in the daily index
  (proved in `DoseAccounting.DoseAdjusted`).
- Realization.RunSingleRealization: requires both shares to be non-negative
  (`Admissible`), which the original does not check. Its callers draw them
  from probability bounds, and a negative share would make a counter
  negative.
- Ensemble.RunModelSampling: returns the per-metric samples, not the mean
  and quantile bands computed from them.
- The user interface, the network fetch of country data and plotting
  (app.py, plot.py) are not part of this model.
