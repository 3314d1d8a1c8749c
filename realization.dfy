/** One realization of the vaccination-campaign model: the day-by-day update of
    the integer counters and the four recorded series (model.py,
    run_single_realization).

    The random and floating-point inputs of the original are supplied from
    outside: for every day, the truncated weekly-delivery formula evaluated on
    that day and the two Poisson draws. The social-pressure strength, the
    duplication time and the delivery bounds act only through these inputs. */
module Realization {

  /** What one simulated day consumes: `delivery` is the truncated delivery
      formula at that day (used only on delivery days), `vaccinationDraw` and
      `conversionDraw` are the two Poisson draws before clamping. */
  datatype DayInput = DayInput(delivery: nat, vaccinationDraw: nat, conversionDraw: nat)

  /** The integer state carried from one day to the next. */
  datatype Counters = Counters(
    stock: nat,       // vaccines in stock
    received: nat,    // cumulative number of vaccines received
    vaccinated: nat,  // people vaccinated so far
    waiting: nat,     // pro-vaccine people still waiting for a dose
    agnostics: nat)   // people not yet convinced

  /** The four series recorded by one realization, one entry per day. */
  datatype Trajectory = Trajectory(
    peopleVaccinatedPerHundred: seq<real>,
    dailyVaccinationsPerMillion: seq<real>,
    cumReceivedPerHundred: seq<real>,
    stockPerHundred: seq<real>)

  /** Vaccines arrive on the days that are multiples of this period. */
  const DeliveryPeriod: nat := 7

  /** The assertion at the start of a realization, with the group shares
      being probabilities. */
  predicate Admissible(pPro: real, pAnti: real)
  {
    0.0 <= pPro && 0.0 <= pAnti && pPro + pAnti <= 1.0
  }

  /** Python's `int()` on a number: truncation toward zero. */
  function Trunc(x: real): (r: int)
    ensures 0.0 <= x ==> 0 <= r && r as real <= x < r as real + 1.0
    ensures x < 0.0 ==> r <= 0 && x <= r as real < x + 1.0
  {
    if 0.0 <= x then x.Floor else -((-x).Floor)
  }

  lemma ProductNonNegative(a: real, b: real)
    requires 0.0 <= a && 0.0 <= b
    ensures 0.0 <= a * b
  {
  }

  /** The counters before the first day: nobody vaccinated, no stock, the
      pro-vaccine group waiting and the agnostic group as the truncated shares
      of the population. */
  function Initial(pPro: real, pAnti: real, n: nat): Counters
    requires Admissible(pPro, pAnti)
  {
    ProductNonNegative(pPro, n as real);
    ProductNonNegative(1.0 - (pPro + pAnti), n as real);
    Counters(0, 0, 0, Trunc(pPro * n as real), Trunc((1.0 - (pPro + pAnti)) * n as real))
  }

  /** The two initial groups are the shares of the population rounded down,
      so together they never exceed it. */
  lemma InitialSplit(pPro: real, pAnti: real, n: nat)
    requires Admissible(pPro, pAnti)
    ensures var c := Initial(pPro, pAnti, n);
      && c.waiting as real <= pPro * n as real < c.waiting as real + 1.0
      && c.agnostics as real <= (1.0 - (pPro + pAnti)) * n as real < c.agnostics as real + 1.0
      && c.waiting + c.agnostics <= n
  {
    ProductNonNegative(pPro, n as real);
    ProductNonNegative(1.0 - (pPro + pAnti), n as real);
    ProductNonNegative(pAnti, n as real);
    assert pPro * n as real + (1.0 - (pPro + pAnti)) * n as real == n as real - pAnti * n as real;
  }

  /** Vaccines arriving on a day. */
  function Arrival(day: nat, delivery: nat): nat
  {
    if day % DeliveryPeriod == 0 then delivery else 0
  }

  function Min(a: nat, b: nat): nat
  {
    if a <= b then a else b
  }

  /** Vaccinations applied on a day: the draw, clamped first to the stock
      after that day's arrival and then to the people waiting. The result is
      the smallest of the three. */
  function Applied(c: Counters, day: nat, input: DayInput): (k: nat)
    ensures k <= input.vaccinationDraw
    ensures k <= c.stock + Arrival(day, input.delivery)
    ensures k <= c.waiting
    ensures k == input.vaccinationDraw || k == c.stock + Arrival(day, input.delivery) || k == c.waiting
  {
    Min(Min(input.vaccinationDraw, c.stock + Arrival(day, input.delivery)), c.waiting)
  }

  /** Agnostics converted on a day: the draw clamped to the agnostics left. */
  function Converted(c: Counters, input: DayInput): (k: nat)
    ensures k <= input.conversionDraw && k <= c.agnostics
    ensures k == input.conversionDraw || k == c.agnostics
  {
    Min(input.conversionDraw, c.agnostics)
  }

  /** One day of the campaign: arrival, vaccination, conversion of agnostics. */
  function Step(c: Counters, day: nat, input: DayInput): Counters
  {
    var arriving := Arrival(day, input.delivery);
    var applied := Applied(c, day, input);
    var converted := Converted(c, input);
    Counters(
      c.stock + arriving - applied,
      c.received + arriving,
      c.vaccinated + applied,
      c.waiting - applied + converted,
      c.agnostics - converted)
  }

  /** One day keeps the population split and the vaccine balance: it moves
      people between groups and vaccines from arrival to stock to arms. */
  lemma StepLaws(c: Counters, day: nat, input: DayInput)
    ensures var c' := Step(c, day, input);
      && c'.vaccinated + c'.waiting + c'.agnostics == c.vaccinated + c.waiting + c.agnostics
      && c'.stock + c'.vaccinated + c.received == c.stock + c.vaccinated + c'.received
      && c'.received == c.received + Arrival(day, input.delivery)
      && (day % DeliveryPeriod != 0 ==> c'.received == c.received)
      && c'.vaccinated == c.vaccinated + Applied(c, day, input)
      && c'.agnostics + Converted(c, input) == c.agnostics
  {
  }

  /** The counters after the first k days. */
  function After(init: Counters, inputs: seq<DayInput>, k: nat): Counters
    requires k <= |inputs|
  {
    if k == 0 then init else Step(After(init, inputs, k - 1), k - 1, inputs[k - 1])
  }

  function PerHundred(count: nat, n: nat): real
    requires 0 < n
  {
    count as real * 100.0 / n as real
  }

  function PerMillion(count: nat, n: nat): real
    requires 0 < n
  {
    count as real * 1000000.0 / n as real
  }

  /** The series recorded during the first k days. */
  function Record(init: Counters, n: nat, inputs: seq<DayInput>, k: nat): (t: Trajectory)
    requires 0 < n && k <= |inputs|
    ensures |t.peopleVaccinatedPerHundred| == k && |t.dailyVaccinationsPerMillion| == k
    ensures |t.cumReceivedPerHundred| == k && |t.stockPerHundred| == k
  {
    if k == 0 then Trajectory([], [], [], [])
    else
      var t := Record(init, n, inputs, k - 1);
      var before := After(init, inputs, k - 1);
      var c := Step(before, k - 1, inputs[k - 1]);
      Trajectory(
        t.peopleVaccinatedPerHundred + [PerHundred(c.vaccinated, n)],
        t.dailyVaccinationsPerMillion + [PerMillion(Applied(before, k - 1, inputs[k - 1]), n)],
        t.cumReceivedPerHundred + [PerHundred(c.received, n)],
        t.stockPerHundred + [PerHundred(c.stock, n)])
  }

  /** The trajectory of a whole realization of `days` days. */
  function Realize(pPro: real, pAnti: real, n: nat, days: nat, inputs: seq<DayInput>): Trajectory
    requires Admissible(pPro, pAnti) && 0 < n && days <= |inputs|
  {
    Record(Initial(pPro, pAnti, n), n, inputs, days)
  }

  /** The entry recorded for day d is read off the counters after day d. */
  lemma {:induction false} RecordAt(init: Counters, n: nat, inputs: seq<DayInput>, k: nat, d: nat)
    requires 0 < n && k <= |inputs| && d < k
    ensures Record(init, n, inputs, k).peopleVaccinatedPerHundred[d] == PerHundred(After(init, inputs, d + 1).vaccinated, n)
    ensures Record(init, n, inputs, k).dailyVaccinationsPerMillion[d]
         == PerMillion(Applied(After(init, inputs, d), d, inputs[d]), n)
    ensures Record(init, n, inputs, k).cumReceivedPerHundred[d] == PerHundred(After(init, inputs, d + 1).received, n)
    ensures Record(init, n, inputs, k).stockPerHundred[d] == PerHundred(After(init, inputs, d + 1).stock, n)
  {
    var t := Record(init, n, inputs, k - 1);
    var before := After(init, inputs, k - 1);
    var c := Step(before, k - 1, inputs[k - 1]);
    assert c == After(init, inputs, k);
    assert Record(init, n, inputs, k) == Trajectory(
      t.peopleVaccinatedPerHundred + [PerHundred(c.vaccinated, n)],
      t.dailyVaccinationsPerMillion + [PerMillion(Applied(before, k - 1, inputs[k - 1]), n)],
      t.cumReceivedPerHundred + [PerHundred(c.received, n)],
      t.stockPerHundred + [PerHundred(c.stock, n)]);
    if d < k - 1 {
      RecordAt(init, n, inputs, k - 1, d);
    }
  }

  /** The population split is conserved: nobody enters or leaves the
      vaccinated, waiting and agnostic groups as a whole, and every vaccine
      received is either in stock or applied. */
  lemma {:induction false} Conservation(init: Counters, inputs: seq<DayInput>, k: nat)
    requires k <= |inputs|
    ensures After(init, inputs, k).vaccinated + After(init, inputs, k).waiting + After(init, inputs, k).agnostics
         == init.vaccinated + init.waiting + init.agnostics
    ensures After(init, inputs, k).stock + After(init, inputs, k).vaccinated + init.received
         == init.stock + init.vaccinated + After(init, inputs, k).received
  {
    if k > 0 {
      Conservation(init, inputs, k - 1);
      StepLaws(After(init, inputs, k - 1), k - 1, inputs[k - 1]);
    }
  }

  /** Vaccinated and received never decrease; agnostics never increase. */
  lemma {:induction false} Monotone(init: Counters, inputs: seq<DayInput>, j: nat, k: nat)
    requires j <= k <= |inputs|
    ensures After(init, inputs, j).vaccinated <= After(init, inputs, k).vaccinated
    ensures After(init, inputs, j).received <= After(init, inputs, k).received
    ensures After(init, inputs, k).agnostics <= After(init, inputs, j).agnostics
  {
    if j < k {
      Monotone(init, inputs, j, k - 1);
      StepLaws(After(init, inputs, k - 1), k - 1, inputs[k - 1]);
    }
  }

  /** Sum of the deliveries of the first `weeks` delivery days (days 0, 7, 14, ...). */
  function Delivered(inputs: seq<DayInput>, weeks: nat): nat
    requires weeks == 0 || DeliveryPeriod * (weeks - 1) < |inputs|
  {
    if weeks == 0 then 0
    else Delivered(inputs, weeks - 1) + inputs[DeliveryPeriod * (weeks - 1)].delivery
  }

  /** Counting the delivery days below d and below d + 1: one more exactly
      when d itself is a delivery day. */
  lemma DeliveryDaysBelow(d: nat)
    ensures d % DeliveryPeriod == 0 ==>
      (d + DeliveryPeriod) / DeliveryPeriod == (d + DeliveryPeriod - 1) / DeliveryPeriod + 1
      && DeliveryPeriod * ((d + DeliveryPeriod - 1) / DeliveryPeriod) == d
    ensures d % DeliveryPeriod != 0 ==>
      (d + DeliveryPeriod) / DeliveryPeriod == (d + DeliveryPeriod - 1) / DeliveryPeriod
  {
    var q, r := d / DeliveryPeriod, d % DeliveryPeriod;
    assert d == DeliveryPeriod * q + r;
    if r == 0 {
      assert (d + DeliveryPeriod - 1) / DeliveryPeriod == q;
      assert (d + DeliveryPeriod) / DeliveryPeriod == q + 1;
    } else {
      assert (d + DeliveryPeriod - 1) / DeliveryPeriod == q + 1;
      assert (d + DeliveryPeriod) / DeliveryPeriod == q + 1;
    }
  }

  /** Vaccines received in the first k days are exactly the deliveries of the
      delivery days among them; every other day adds nothing. */
  lemma {:induction false} ReceivedIsWeeklyDeliveries(init: Counters, inputs: seq<DayInput>, k: nat)
    requires k <= |inputs|
    ensures After(init, inputs, k).received == init.received + Delivered(inputs, (k + DeliveryPeriod - 1) / DeliveryPeriod)
  {
    if k > 0 {
      var d := k - 1;
      ReceivedIsWeeklyDeliveries(init, inputs, d);
      StepLaws(After(init, inputs, d), d, inputs[d]);
      DeliveryDaysBelow(d);
      var weeks := (d + DeliveryPeriod - 1) / DeliveryPeriod;
      if d % DeliveryPeriod == 0 {
        assert (k + DeliveryPeriod - 1) / DeliveryPeriod == weeks + 1;
        assert Delivered(inputs, weeks + 1) == Delivered(inputs, weeks) + inputs[d].delivery;
      } else {
        assert (k + DeliveryPeriod - 1) / DeliveryPeriod == weeks;
      }
    }
  }

  /** Without conversions (zero social pressure draws zero), the vaccinated
      and the waiting together stay the initial pro-vaccine group. */
  lemma {:induction false} NoConversionBound(init: Counters, inputs: seq<DayInput>, k: nat)
    requires k <= |inputs|
    requires forall d :: 0 <= d < k ==> inputs[d].conversionDraw == 0
    ensures After(init, inputs, k).vaccinated + After(init, inputs, k).waiting == init.vaccinated + init.waiting
    ensures After(init, inputs, k).agnostics == init.agnostics
  {
    if k > 0 {
      NoConversionBound(init, inputs, k - 1);
      StepLaws(After(init, inputs, k - 1), k - 1, inputs[k - 1]);
    }
  }

  lemma PerHundredMonotone(a: nat, b: nat, n: nat)
    requires 0 < n && a <= b
    ensures PerHundred(a, n) <= PerHundred(b, n)
  {
    assert a as real * 100.0 <= b as real * 100.0;
  }

  lemma PerHundredAtMostHundred(a: nat, n: nat)
    requires 0 < n && a <= n
    ensures 0.0 <= PerHundred(a, n) <= 100.0
  {
    PerHundredMonotone(a, n, n);
  }

  /** From counters whose groups fit in the population, the recorded
      vaccinated share lies between 0 and 100 percent and never decreases,
      and the recorded received share never decreases. */
  lemma RecordBounds(init: Counters, n: nat, inputs: seq<DayInput>, k: nat, d: nat, e: nat)
    requires 0 < n && k <= |inputs| && d <= e < k
    requires init.vaccinated + init.waiting + init.agnostics <= n
    ensures 0.0 <= Record(init, n, inputs, k).peopleVaccinatedPerHundred[e] <= 100.0
    ensures Record(init, n, inputs, k).peopleVaccinatedPerHundred[d] <= Record(init, n, inputs, k).peopleVaccinatedPerHundred[e]
    ensures Record(init, n, inputs, k).cumReceivedPerHundred[d] <= Record(init, n, inputs, k).cumReceivedPerHundred[e]
  {
    var before, after := After(init, inputs, d + 1), After(init, inputs, e + 1);
    assert after.vaccinated <= n by {
      Conservation(init, inputs, e + 1);
    }
    assert before.vaccinated <= after.vaccinated && before.received <= after.received by {
      Monotone(init, inputs, d + 1, e + 1);
    }
    var t := Record(init, n, inputs, k);
    assert t.peopleVaccinatedPerHundred[d] == PerHundred(before.vaccinated, n)
        && t.cumReceivedPerHundred[d] == PerHundred(before.received, n) by {
      RecordAt(init, n, inputs, k, d);
    }
    assert t.peopleVaccinatedPerHundred[e] == PerHundred(after.vaccinated, n)
        && t.cumReceivedPerHundred[e] == PerHundred(after.received, n) by {
      RecordAt(init, n, inputs, k, e);
    }
    PerHundredAtMostHundred(after.vaccinated, n);
    PerHundredMonotone(before.vaccinated, after.vaccinated, n);
    PerHundredMonotone(before.received, after.received, n);
  }

  /** Every realization of an admissible parameter combination records a
      vaccinated share between 0 and 100 percent that never decreases, and a
      cumulative received share that never decreases. */
  lemma RealizeBounds(pPro: real, pAnti: real, n: nat, days: nat, inputs: seq<DayInput>, d: nat, e: nat)
    requires Admissible(pPro, pAnti) && 0 < n && days <= |inputs| && d <= e < days
    ensures 0.0 <= Realize(pPro, pAnti, n, days, inputs).peopleVaccinatedPerHundred[e] <= 100.0
    ensures Realize(pPro, pAnti, n, days, inputs).peopleVaccinatedPerHundred[d]
         <= Realize(pPro, pAnti, n, days, inputs).peopleVaccinatedPerHundred[e]
    ensures Realize(pPro, pAnti, n, days, inputs).cumReceivedPerHundred[d]
         <= Realize(pPro, pAnti, n, days, inputs).cumReceivedPerHundred[e]
  {
    InitialSplit(pPro, pAnti, n);
    RecordBounds(Initial(pPro, pAnti, n), n, inputs, days, d, e);
  }

  lemma PerHundredAdd(a: nat, b: nat, n: nat)
    requires 0 < n
    ensures PerHundred(a, n) + PerHundred(b, n) == PerHundred(a + b, n)
  {
    assert (a + b) as real * 100.0 == a as real * 100.0 + b as real * 100.0;
  }

  /** Every vaccine of a realization is accounted for on each recorded day:
      the stock share and the vaccinated share add up to the cumulative
      received share. */
  lemma RealizeBalance(pPro: real, pAnti: real, n: nat, days: nat, inputs: seq<DayInput>, d: nat)
    requires Admissible(pPro, pAnti) && 0 < n && days <= |inputs| && d < days
    ensures var t := Realize(pPro, pAnti, n, days, inputs);
      t.stockPerHundred[d] + t.peopleVaccinatedPerHundred[d] == t.cumReceivedPerHundred[d]
  {
    var init := Initial(pPro, pAnti, n);
    var c := After(init, inputs, d + 1);
    assert c.stock + c.vaccinated == c.received by {
      Conservation(init, inputs, d + 1);
    }
    RecordAt(init, n, inputs, days, d);
    PerHundredAdd(c.stock, c.vaccinated, n);
  }

  /** One day of run_single_realization on the counters: the delivery on
      delivery days, the vaccinations clamped to stock and to the people
      waiting, then the conversion of agnostics clamped to those left. */
  method SimulateDay(stock: nat, received: nat, vaccinated: nat, waiting: nat, agnostics: nat,
                     day: nat, input: DayInput)
    returns (stock': nat, received': nat, vaccinated': nat, waiting': nat, agnostics': nat, applied: nat)
    ensures applied == Applied(Counters(stock, received, vaccinated, waiting, agnostics), day, input)
    ensures Counters(stock', received', vaccinated', waiting', agnostics')
         == Step(Counters(stock, received, vaccinated, waiting, agnostics), day, input)
  {
    var arriving := if day % DeliveryPeriod == 0 then input.delivery else 0;
    stock' := stock + arriving;
    received' := received + arriving;

    applied := input.vaccinationDraw;
    applied := Min(applied, stock');
    applied := Min(applied, waiting);
    vaccinated' := vaccinated + applied;
    waiting' := waiting - applied;
    stock' := stock' - applied;

    var converted := Min(input.conversionDraw, agnostics);
    agnostics' := agnostics - converted;
    waiting' := waiting' + converted;
  }

  /** run_single_realization: simulate `days` days and record the four series. */
  method RunSingleRealization(pPro: real, pAnti: real, days: nat, n: nat, inputs: seq<DayInput>)
    returns (t: Trajectory)
    requires Admissible(pPro, pAnti) && 0 < n && days <= |inputs|
    ensures t == Realize(pPro, pAnti, n, days, inputs)
    ensures |t.peopleVaccinatedPerHundred| == days && |t.dailyVaccinationsPerMillion| == days
    ensures |t.cumReceivedPerHundred| == days && |t.stockPerHundred| == days
  {
    var init := Initial(pPro, pAnti, n);
    var nAgnostics := init.agnostics;

    var day: nat := 0;
    var stock: nat := 0;
    var received: nat := 0;
    var vaccinated: nat := 0;
    var waiting: nat := init.waiting;

    var people, daily, cumReceived, inStock := [], [], [], [];

    while day < days
      invariant day <= days
      invariant Counters(stock, received, vaccinated, waiting, nAgnostics) == After(init, inputs, day)
      invariant Trajectory(people, daily, cumReceived, inStock) == Record(init, n, inputs, day)
    {
      var applied;
      stock, received, vaccinated, waiting, nAgnostics, applied :=
        SimulateDay(stock, received, vaccinated, waiting, nAgnostics, day, inputs[day]);
      day := day + 1;

      people := people + [PerHundred(vaccinated, n)];
      daily := daily + [PerMillion(applied, n)];
      cumReceived := cumReceived + [PerHundred(received, n)];
      inStock := inStock + [PerHundred(stock, n)];
    }
    t := Trajectory(people, daily, cumReceived, inStock);
  }
}
