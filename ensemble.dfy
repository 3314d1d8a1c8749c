/** The ensemble bookkeeping of run_model_sampling (model.py): one
    realization per parameter combination, accumulated per metric, stopped
    early when the wall-clock budget is exceeded, and the dose-accounting
    transform applied to the daily-vaccinations metric.

    The clock is supplied: `elapsed[i]` is the time elapsed since the start
    when the i-th realization has finished. The confidence-interval
    statistics computed from the samples are not part of this model. */
module Ensemble {
  import opened Wrappers
  import Realization
  import Sampler
  import DoseAccounting

  /** The samples of one metric: its date index and one row per finished
      realization. */
  datatype MetricSamples = MetricSamples(dates: seq<int>, samples: seq<seq<real>>)

  /** The per-metric samples of a whole ensemble, with the number of
      realizations that finished. */
  datatype EnsembleSamples = EnsembleSamples(
    peopleVaccinatedPerHundred: MetricSamples,
    dailyVaccinationsPerMillion: MetricSamples,
    cumReceivedPerHundred: MetricSamples,
    stockPerHundred: MetricSamples,
    numberFinishedSamples: nat)

  /** The budget check after a realization: a budget is set and the elapsed
      time exceeds it. */
  predicate OverBudget(maxRunningTime: Option<real>, elapsed: real)
  {
    maxRunningTime.Some? && elapsed > maxRunningTime.value
  }

  predicate Runnable(p: Sampler.ParamSet)
  {
    Realization.Admissible(p.pPro, p.pAnti)
  }

  /** The trajectory of the realization run for one parameter combination. */
  function TrajectoryOf(p: Sampler.ParamSet, n: nat, days: nat, inputs: seq<Realization.DayInput>): Realization.Trajectory
    requires Runnable(p) && 0 < n && days <= |inputs|
  {
    Realization.Realize(p.pPro, p.pAnti, n, days, inputs)
  }

  /** The trajectories of the realizations of the first k combinations, in order. */
  function Runs(params: seq<Sampler.ParamSet>, n: nat, days: nat, inputs: seq<seq<Realization.DayInput>>, k: nat)
    : (ts: seq<Realization.Trajectory>)
    requires 0 < n && k <= |params| == |inputs|
    requires forall i :: 0 <= i < |params| ==> Runnable(params[i]) && days <= |inputs[i]|
    ensures |ts| == k
  {
    if k == 0 then [] else Runs(params, n, days, inputs, k - 1) + [TrajectoryOf(params[k - 1], n, days, inputs[k - 1])]
  }

  /** The i-th of the trajectories is the realization of the i-th combination. */
  lemma {:induction false} RunsAt(params: seq<Sampler.ParamSet>, n: nat, days: nat, inputs: seq<seq<Realization.DayInput>>,
                                  k: nat, i: nat)
    requires 0 < n && k <= |params| == |inputs|
    requires forall j :: 0 <= j < |params| ==> Runnable(params[j]) && days <= |inputs[j]|
    requires i < k
    ensures Runs(params, n, days, inputs, k)[i] == TrajectoryOf(params[i], n, days, inputs[i])
  {
    if i < k - 1 {
      RunsAt(params, n, days, inputs, k - 1, i);
    }
  }

  /** Each of the trajectories `ts` is the realization of the combination at
      its position. */
  predicate Realized(ts: seq<Realization.Trajectory>, params: seq<Sampler.ParamSet>, n: nat, days: nat,
                     inputs: seq<seq<Realization.DayInput>>)
    requires 0 < n && |params| == |inputs|
    requires forall i :: 0 <= i < |params| ==> Runnable(params[i]) && days <= |inputs[i]|
  {
    |ts| <= |params| && forall i :: 0 <= i < |ts| ==> ts[i] == TrajectoryOf(params[i], n, days, inputs[i])
  }

  /** Trajectories realized position by position are the first runs. */
  lemma {:induction false} RealizedIsRuns(ts: seq<Realization.Trajectory>, params: seq<Sampler.ParamSet>, n: nat, days: nat,
                                          inputs: seq<seq<Realization.DayInput>>)
    requires 0 < n && |params| == |inputs|
    requires forall i :: 0 <= i < |params| ==> Runnable(params[i]) && days <= |inputs[i]|
    requires Realized(ts, params, n, days, inputs)
    ensures ts == Runs(params, n, days, inputs, |ts|)
  {
    if ts != [] {
      var k := |ts| - 1;
      assert Realized(ts[..k], params, n, days, inputs);
      RealizedIsRuns(ts[..k], params, n, days, inputs);
      assert ts == ts[..k] + [ts[k]];
    }
  }

  /** The four recorded metrics. */
  datatype Metric = PeopleVaccinated | DailyVaccinations | CumReceived | Stock

  /** The series a trajectory records for a metric. */
  function SeriesOf(t: Realization.Trajectory, m: Metric): seq<real>
  {
    match m
    case PeopleVaccinated => t.peopleVaccinatedPerHundred
    case DailyVaccinations => t.dailyVaccinationsPerMillion
    case CumReceived => t.cumReceivedPerHundred
    case Stock => t.stockPerHundred
  }

  /** The samples of one metric: one row per trajectory, in order. */
  function Rows(ts: seq<Realization.Trajectory>, m: Metric): (rows: seq<seq<real>>)
    ensures |rows| == |ts|
  {
    seq(|ts|, i requires 0 <= i < |ts| => SeriesOf(ts[i], m))
  }

  /** Appending a trajectory appends one row to every metric. */
  lemma RowsSnoc(ts: seq<Realization.Trajectory>, t: Realization.Trajectory, m: Metric)
    ensures Rows(ts + [t], m) == Rows(ts, m) + [SeriesOf(t, m)]
  {
    assert Rows(ts + [t], m)[|ts|] == SeriesOf(t, m);
  }

  /** Every trajectory records one entry per day in every metric. */
  predicate Sized(ts: seq<Realization.Trajectory>, days: nat)
  {
    forall i :: 0 <= i < |ts| ==>
      && |ts[i].peopleVaccinatedPerHundred| == days && |ts[i].dailyVaccinationsPerMillion| == days
      && |ts[i].cumReceivedPerHundred| == days && |ts[i].stockPerHundred| == days
  }

  /** The ensemble holds, per metric, one row for each of the trajectories
      `ts`: the series itself, or the dose-adjusted series on the 7-day grid
      for the daily vaccinations. */
  predicate Holds(e: EnsembleSamples, ts: seq<Realization.Trajectory>, start: int, end: int)
  {
    var days := DoseAccounting.DailyDates(start, end);
    && e.numberFinishedSamples == |ts|
    && e.peopleVaccinatedPerHundred == MetricSamples(days, Rows(ts, PeopleVaccinated))
    && e.cumReceivedPerHundred == MetricSamples(days, Rows(ts, CumReceived))
    && e.stockPerHundred == MetricSamples(days, Rows(ts, Stock))
    && Sized(ts, |days|)
    && e.dailyVaccinationsPerMillion
       == MetricSamples(DoseAccounting.GridDates(start, end), AdjustRows(Rows(ts, DailyVaccinations), start, end))
  }

  /** The accumulation loop of run_model_sampling: run the realizations in
      order, appending each one's series to the rows of the four metrics,
      and stop after the first one that ends over budget. `runs` are the
      trajectories of the finished realizations. */
  method RunRealizations(params: seq<Sampler.ParamSet>, n: nat, days: nat,
                         maxRunningTime: Option<real>, elapsed: seq<real>,
                         inputs: seq<seq<Realization.DayInput>>)
    returns (people: seq<seq<real>>, daily: seq<seq<real>>, received: seq<seq<real>>, stock: seq<seq<real>>,
             numberFinishedSamples: nat, ghost runs: seq<Realization.Trajectory>)
    requires 0 < n && |elapsed| == |params| && |inputs| == |params|
    requires forall i :: 0 <= i < |params| ==> Runnable(params[i]) && days <= |inputs[i]|
    ensures numberFinishedSamples <= |params|
    ensures numberFinishedSamples == 0 <==> params == []
    ensures |runs| == numberFinishedSamples && Realized(runs, params, n, days, inputs) && Sized(runs, days)
    ensures people == Rows(runs, PeopleVaccinated) && daily == Rows(runs, DailyVaccinations)
    ensures received == Rows(runs, CumReceived) && stock == Rows(runs, Stock)
    ensures forall i :: 0 <= i < numberFinishedSamples - 1 ==> !OverBudget(maxRunningTime, elapsed[i])
    ensures 0 < numberFinishedSamples < |params| ==> OverBudget(maxRunningTime, elapsed[numberFinishedSamples - 1])
    ensures maxRunningTime.None? ==> numberFinishedSamples == |params|
  {
    people, daily, received, stock := [], [], [], [];
    numberFinishedSamples := 0;
    runs := [];
    while numberFinishedSamples < |params|
      invariant numberFinishedSamples <= |params|
      invariant forall i :: 0 <= i < numberFinishedSamples ==> !OverBudget(maxRunningTime, elapsed[i])
      invariant |runs| == numberFinishedSamples && Realized(runs, params, n, days, inputs)
      invariant Sized(runs, days)
      invariant people == Rows(runs, PeopleVaccinated) && daily == Rows(runs, DailyVaccinations)
      invariant received == Rows(runs, CumReceived) && stock == Rows(runs, Stock)
    {
      var p := params[numberFinishedSamples];
      var t := Realization.RunSingleRealization(p.pPro, p.pAnti, days, n, inputs[numberFinishedSamples]);
      RowsSnoc(runs, t, PeopleVaccinated);
      RowsSnoc(runs, t, DailyVaccinations);
      RowsSnoc(runs, t, CumReceived);
      RowsSnoc(runs, t, Stock);
      runs := runs + [t];
      people := people + [t.peopleVaccinatedPerHundred];
      daily := daily + [t.dailyVaccinationsPerMillion];
      received := received + [t.cumReceivedPerHundred];
      stock := stock + [t.stockPerHundred];
      numberFinishedSamples := numberFinishedSamples + 1;
      if OverBudget(maxRunningTime, elapsed[numberFinishedSamples - 1]) {
        break;
      }
    }
  }

  /** run_model_sampling without the statistics: the samples of the
      finished realizations, with the dose-accounting transform applied to
      the daily metric. With no parameter combination there is no sample of
      the daily metric to transform and the original fails with a missing
      key; that is the `None` result. */
  method RunModelSampling(params: seq<Sampler.ParamSet>, start: int, end: int, n: nat,
                          maxRunningTime: Option<real>, elapsed: seq<real>,
                          inputs: seq<seq<Realization.DayInput>>)
    returns (r: Option<EnsembleSamples>)
    requires 0 < n && |elapsed| == |params| && |inputs| == |params|
    requires forall i :: 0 <= i < |params| ==> Runnable(params[i]) && |DoseAccounting.DailyDates(start, end)| <= |inputs[i]|
    ensures r.None? <==> params == []
    ensures r.Some? ==>
      && 1 <= r.value.numberFinishedSamples <= |params|
      && Holds(r.value, Runs(params, n, |DoseAccounting.DailyDates(start, end)|, inputs, r.value.numberFinishedSamples), start, end)
    ensures r.Some? ==> forall i :: 0 <= i < r.value.numberFinishedSamples - 1 ==> !OverBudget(maxRunningTime, elapsed[i])
    ensures r.Some? && r.value.numberFinishedSamples < |params| ==>
      OverBudget(maxRunningTime, elapsed[r.value.numberFinishedSamples - 1])
    ensures r.Some? && maxRunningTime.None? ==> r.value.numberFinishedSamples == |params|
  {
    var dates := DoseAccounting.DailyDates(start, end);
    var people, daily, received, stock, numberFinishedSamples, runs :=
      RunRealizations(params, n, |dates|, maxRunningTime, elapsed, inputs);
    RealizedIsRuns(runs, params, n, |dates|, inputs);
    if numberFinishedSamples == 0 {
      return None;
    }
    var adjusted := AdjustRows(daily, start, end);
    r := Some(EnsembleSamples(
      MetricSamples(dates, people),
      MetricSamples(DoseAccounting.GridDates(start, end), adjusted),
      MetricSamples(dates, received),
      MetricSamples(dates, stock),
      numberFinishedSamples));
  }

  /** The dose-accounting transform applied to every sample row. */
  function AdjustRows(rows: seq<seq<real>>, start: int, end: int): (adjusted: seq<seq<real>>)
    requires forall i :: 0 <= i < |rows| ==> |rows[i]| == |DoseAccounting.DailyDates(start, end)|
    ensures |adjusted| == |rows|
  {
    seq(|rows|, i requires 0 <= i < |rows| => DoseAccounting.DoseAdjusted(rows[i], start, end))
  }

  /** Every row of the daily metric has one entry per grid date: the
      realization's daily vaccinations of that date plus, from 30 days after
      the start on, those of 30 days before. */
  lemma DailySampleAt(e: EnsembleSamples, params: seq<Sampler.ParamSet>, start: int, end: int, n: nat,
                      inputs: seq<seq<Realization.DayInput>>, i: nat, k: nat)
    requires 0 < n && e.numberFinishedSamples <= |params| == |inputs|
    requires forall j :: 0 <= j < |params| ==> Runnable(params[j]) && |DoseAccounting.DailyDates(start, end)| <= |inputs[j]|
    requires Holds(e, Runs(params, n, |DoseAccounting.DailyDates(start, end)|, inputs, e.numberFinishedSamples), start, end)
    requires i < e.numberFinishedSamples && k < |DoseAccounting.GridDates(start, end)|
    ensures |e.dailyVaccinationsPerMillion.samples[i]| == |DoseAccounting.GridDates(start, end)|
    ensures var raw := TrajectoryOf(params[i], n, |DoseAccounting.DailyDates(start, end)|, inputs[i]).dailyVaccinationsPerMillion;
      var d := DoseAccounting.GridStep * k;
      && d < |raw|
      && e.dailyVaccinationsPerMillion.samples[i][k]
         == raw[d] + (if d >= DoseAccounting.SecondDoseDelay then raw[d - DoseAccounting.SecondDoseDelay] else 0.0)
  {
    var days := |DoseAccounting.DailyDates(start, end)|;
    RunsAt(params, n, days, inputs, e.numberFinishedSamples, i);
    var raw := TrajectoryOf(params[i], n, days, inputs[i]).dailyVaccinationsPerMillion;
    DoseAccounting.DoseAdjustedAt(raw, start, end, k);
  }

  /** In every finished realization the vaccinated share stays within 0 and
      100 percent and never decreases from one date to a later one. */
  lemma PeopleSampleBounds(e: EnsembleSamples, params: seq<Sampler.ParamSet>, start: int, end: int, n: nat,
                           inputs: seq<seq<Realization.DayInput>>, i: nat, d: nat, d': nat)
    requires 0 < n && e.numberFinishedSamples <= |params| == |inputs|
    requires forall j :: 0 <= j < |params| ==> Runnable(params[j]) && |DoseAccounting.DailyDates(start, end)| <= |inputs[j]|
    requires Holds(e, Runs(params, n, |DoseAccounting.DailyDates(start, end)|, inputs, e.numberFinishedSamples), start, end)
    requires i < e.numberFinishedSamples && d <= d' < |DoseAccounting.DailyDates(start, end)|
    ensures 0.0 <= e.peopleVaccinatedPerHundred.samples[i][d'] <= 100.0
    ensures e.peopleVaccinatedPerHundred.samples[i][d] <= e.peopleVaccinatedPerHundred.samples[i][d']
  {
    var p, days := params[i], |DoseAccounting.DailyDates(start, end)|;
    RunsAt(params, n, days, inputs, e.numberFinishedSamples, i);
    Realization.RealizeBounds(p.pPro, p.pAnti, n, days, inputs[i], d, d');
  }

  /** Sampling with non-negative lower bounds for the two shares yields only
      combinations a realization accepts. */
  lemma SampledRunnable(bounds: Sampler.ParameterBounds, p: Sampler.ParamSet, softNo: real)
    requires 0.0 <= bounds.pPro.lower && 0.0 <= bounds.pPro.upper
    requires 0.0 <= bounds.pAnti.lower && 0.0 <= bounds.pAnti.upper
    requires Sampler.Accepted(p, softNo, bounds)
    ensures Runnable(p)
    ensures 0.0 <= softNo <= 1.0
  {
  }
}
