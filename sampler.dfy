/** Rejection sampling of the model's parameter space (model.py,
    sample_param_combinations).

    The pseudo-random generator is supplied as a stream `u` of unit variates
    in [0, 1); a uniform draw between two bounds scales one variate, and the
    draws are taken from the stream in the order of the original. */
module Sampler {

  /** Lower and upper bound of one parameter. */
  datatype Bounds = Bounds(lower: real, upper: real)

  /** The bounds of the six model parameters. */
  datatype ParameterBounds = ParameterBounds(
    pPro: Bounds, pAnti: Bounds, pressure: Bounds, tau: Bounds, nv0: Bounds, nvMax: Bounds)

  /** One parameter combination of the model. */
  datatype ParamSet = ParamSet(
    pPro: real, pAnti: real, pressure: real, tau: real, nv0: real, nvMax: real)

  /** The outcome of sampling: the bounds of the pro- and anti-vaccine shares
      were found incompatible, or the accepted combinations with the share of
      agnostics of each. */
  datatype Sampling = Infeasible | Sampled(combinations: seq<ParamSet>, softNo: seq<real>)

  /** Sampling gives up once the rejections exceed this many per requested combination. */
  const RejectionFactor: nat := 10

  function Least(b: Bounds): real
  {
    if b.lower <= b.upper then b.lower else b.upper
  }

  function Greatest(b: Bounds): real
  {
    if b.lower <= b.upper then b.upper else b.lower
  }

  predicate Within(b: Bounds, x: real)
  {
    Least(b) <= x <= Greatest(b)
  }

  /** A uniform draw between the two bounds, made from the unit variate x. */
  function Uniform(b: Bounds, x: real): (r: real)
    requires 0.0 <= x < 1.0
    ensures Within(b, r)
  {
    b.lower + Scaled(b.upper - b.lower, x)
  }

  /** A width scaled by a unit variate stays between 0 and the width. */
  function Scaled(w: real, x: real): (p: real)
    requires 0.0 <= x < 1.0
    ensures 0.0 <= w ==> 0.0 <= p <= w
    ensures w < 0.0 ==> w < p <= 0.0
  {
    if 0.0 < w then
      assert w * x < w * 1.0;
      w * x
    else if w < 0.0 then
      assert -(w * x) == (-w) * x;
      assert (-w) * x < (-w) * 1.0;
      w * x
    else
      w * x
  }

  /** What holds of every accepted combination and its agnostic share. */
  predicate Accepted(p: ParamSet, softNo: real, bounds: ParameterBounds)
  {
    && p.pPro + p.pAnti <= 1.0
    && softNo == 1.0 - (p.pPro + p.pAnti)
    && Within(bounds.pPro, p.pPro) && Within(bounds.pAnti, p.pAnti)
    && Within(bounds.pressure, p.pressure) && Within(bounds.tau, p.tau)
    && Within(bounds.nv0, p.nv0) && Within(bounds.nvMax, p.nvMax)
  }

  /** Every pair that can be drawn violates the constraint. */
  predicate AlwaysRejected(bounds: ParameterBounds)
  {
    Least(bounds.pPro) + Least(bounds.pAnti) > 1.0
  }

  /** Every pair that can be drawn satisfies the constraint. */
  predicate NeverRejected(bounds: ParameterBounds)
  {
    Greatest(bounds.pPro) + Greatest(bounds.pAnti) <= 1.0
  }

  /** The generator's variates all lie in [0, 1). */
  ghost predicate UnitStream(u: nat -> real)
  {
    forall i :: 0.0 <= u(i) < 1.0
  }

  /** The state of the sampling loop: the position of the next variate in
      the stream, the rejection counter, and the accepted combinations with
      their agnostic shares. */
  datatype Progress = Progress(next: nat, rejections: nat, combinations: seq<ParamSet>, softNo: seq<real>)

  /** The pair of shares drawn at the current position is rejected. */
  predicate Rejects(bounds: ParameterBounds, u: nat -> real, s: Progress)
    requires UnitStream(u)
  {
    Uniform(bounds.pPro, u(s.next)) + Uniform(bounds.pAnti, u(s.next + 1)) > 1.0
  }

  /** One round: draw a pair of shares; count a rejection, or complete the
      pair with the other four parameters, in the order of the original draws. */
  function Advance(bounds: ParameterBounds, u: nat -> real, s: Progress): Progress
    requires UnitStream(u)
  {
    var pPro := Uniform(bounds.pPro, u(s.next));
    var pAnti := Uniform(bounds.pAnti, u(s.next + 1));
    if pPro + pAnti > 1.0 then
      Progress(s.next + 2, s.rejections + 1, s.combinations, s.softNo)
    else
      var p := ParamSet(pPro, pAnti, Uniform(bounds.pressure, u(s.next + 2)), Uniform(bounds.tau, u(s.next + 3)),
                        Uniform(bounds.nv0, u(s.next + 4)), Uniform(bounds.nvMax, u(s.next + 5)));
      Progress(s.next + 6, s.rejections, s.combinations + [p], s.softNo + [1.0 - (p.pPro + p.pAnti)])
  }

  /** A round either counts one rejection or accepts one more combination
      with its agnostic share. */
  lemma AdvanceCounts(bounds: ParameterBounds, u: nat -> real, s: Progress)
    requires UnitStream(u)
    ensures var s' := Advance(bounds, u, s);
      && (Rejects(bounds, u, s) ==> s'.rejections == s.rejections + 1 && s'.combinations == s.combinations)
      && (!Rejects(bounds, u, s) ==> s'.rejections == s.rejections && |s'.combinations| == |s.combinations| + 1)
      && |s'.softNo| - |s.softNo| == |s'.combinations| - |s.combinations|
  {
  }

  /** The state after the first k rounds. */
  function Rounds(bounds: ParameterBounds, u: nat -> real, k: nat): Progress
    requires UnitStream(u)
  {
    if k == 0 then Progress(0, 0, [], []) else Advance(bounds, u, Rounds(bounds, u, k - 1))
  }

  /** The sampling process from state `s` on: it stops with the accepted
      combinations once there are `nRep` of them, and gives up at the
      rejection that makes the counter exceed `nRep * RejectionFactor`. */
  function Run(bounds: ParameterBounds, nRep: nat, u: nat -> real, s: Progress): Sampling
    requires UnitStream(u)
    requires |s.combinations| <= nRep && s.rejections <= nRep * RejectionFactor
    decreases nRep - |s.combinations|, nRep * RejectionFactor - s.rejections
  {
    if |s.combinations| == nRep then Sampled(s.combinations, s.softNo)
    else if Rejects(bounds, u, s) && s.rejections + 1 > nRep * RejectionFactor then Infeasible
    else
      AdvanceCounts(bounds, u, s);
      Run(bounds, nRep, u, Advance(bounds, u, s))
  }

  /** The outcome of sampling `nRep` combinations from the stream `u`. */
  function Sample(bounds: ParameterBounds, nRep: nat, u: nat -> real): Sampling
    requires UnitStream(u)
  {
    Run(bounds, nRep, u, Progress(0, 0, [], []))
  }

  /** Rejections and acceptances only accumulate from one round to a later one. */
  lemma {:induction false} CountsMonotone(bounds: ParameterBounds, u: nat -> real, j: nat, k: nat)
    requires UnitStream(u) && j <= k
    ensures Rounds(bounds, u, j).rejections <= Rounds(bounds, u, k).rejections
    ensures |Rounds(bounds, u, j).combinations| <= |Rounds(bounds, u, k).combinations|
  {
    if j < k {
      CountsMonotone(bounds, u, j, k - 1);
      AdvanceCounts(bounds, u, Rounds(bounds, u, k - 1));
    }
  }

  /** Giving up from round k means a later round brings the rejections to
      `nRep * RejectionFactor + 1` while fewer than `nRep` are accepted. */
  lemma {:induction false} RunInfeasibleWitness(bounds: ParameterBounds, nRep: nat, u: nat -> real, k: nat)
    returns (j: nat)
    requires UnitStream(u)
    requires |Rounds(bounds, u, k).combinations| <= nRep && Rounds(bounds, u, k).rejections <= nRep * RejectionFactor
    requires Run(bounds, nRep, u, Rounds(bounds, u, k)).Infeasible?
    ensures Rounds(bounds, u, j).rejections == nRep * RejectionFactor + 1 && |Rounds(bounds, u, j).combinations| < nRep
    decreases nRep - |Rounds(bounds, u, k).combinations|, nRep * RejectionFactor - Rounds(bounds, u, k).rejections
  {
    var s := Rounds(bounds, u, k);
    assert Rounds(bounds, u, k + 1) == Advance(bounds, u, s);
    if Rejects(bounds, u, s) && s.rejections + 1 > nRep * RejectionFactor {
      j := k + 1;
    } else {
      j := RunInfeasibleWitness(bounds, nRep, u, k + 1);
    }
  }

  /** Conversely, if some round j brings the rejections to
      `nRep * RejectionFactor + 1` with fewer than `nRep` accepted, the
      process gives up from every earlier round. */
  lemma {:induction false} RunGivesUp(bounds: ParameterBounds, nRep: nat, u: nat -> real, k: nat, j: nat)
    requires UnitStream(u)
    requires |Rounds(bounds, u, k).combinations| <= nRep && Rounds(bounds, u, k).rejections <= nRep * RejectionFactor
    requires Rounds(bounds, u, j).rejections == nRep * RejectionFactor + 1 && |Rounds(bounds, u, j).combinations| < nRep
    requires k <= j
    ensures Run(bounds, nRep, u, Rounds(bounds, u, k)).Infeasible?
    decreases j - k
  {
    var s := Rounds(bounds, u, k);
    if !(Rejects(bounds, u, s) && s.rejections + 1 > nRep * RejectionFactor) {
      assert k < j;
      assert Rounds(bounds, u, k + 1) == Advance(bounds, u, s);
      AdvanceCounts(bounds, u, s);
      CountsMonotone(bounds, u, k + 1, j);
      assert |s.combinations| < nRep;
      RunGivesUp(bounds, nRep, u, k + 1, j);
      assert Run(bounds, nRep, u, s) == Run(bounds, nRep, u, Rounds(bounds, u, k + 1));
    } else {
      CountsMonotone(bounds, u, k, j);
    }
  }

  /** Sampling gives up exactly when the rejection counter of the draws from
      `u` exceeds `nRep * RejectionFactor` before `nRep` pairs are accepted. */
  lemma Threshold(bounds: ParameterBounds, nRep: nat, u: nat -> real)
    requires UnitStream(u)
    ensures Sample(bounds, nRep, u).Infeasible?
        <==> exists j :: Rounds(bounds, u, j).rejections == nRep * RejectionFactor + 1
                      && |Rounds(bounds, u, j).combinations| < nRep
  {
    if Sample(bounds, nRep, u).Infeasible? {
      var j := RunInfeasibleWitness(bounds, nRep, u, 0);
    }
    if exists j :: Rounds(bounds, u, j).rejections == nRep * RejectionFactor + 1 && |Rounds(bounds, u, j).combinations| < nRep {
      var j :| Rounds(bounds, u, j).rejections == nRep * RejectionFactor + 1 && |Rounds(bounds, u, j).combinations| < nRep;
      RunGivesUp(bounds, nRep, u, 0, j);
    }
  }

  /** A successful run returns the combinations accepted in the first rounds
      from `u`, in order, `nRep` of them, after at most
      `nRep * RejectionFactor` rejections. */
  lemma {:induction false} RunSampledDraws(bounds: ParameterBounds, nRep: nat, u: nat -> real, k: nat)
    returns (j: nat)
    requires UnitStream(u)
    requires |Rounds(bounds, u, k).combinations| <= nRep && Rounds(bounds, u, k).rejections <= nRep * RejectionFactor
    requires Run(bounds, nRep, u, Rounds(bounds, u, k)).Sampled?
    ensures |Rounds(bounds, u, j).combinations| == nRep && Rounds(bounds, u, j).rejections <= nRep * RejectionFactor
    ensures Run(bounds, nRep, u, Rounds(bounds, u, k)) == Sampled(Rounds(bounds, u, j).combinations, Rounds(bounds, u, j).softNo)
    decreases nRep - |Rounds(bounds, u, k).combinations|, nRep * RejectionFactor - Rounds(bounds, u, k).rejections
  {
    if |Rounds(bounds, u, k).combinations| == nRep {
      j := k;
    } else {
      assert Rounds(bounds, u, k + 1) == Advance(bounds, u, Rounds(bounds, u, k));
      j := RunSampledDraws(bounds, nRep, u, k + 1);
    }
  }

  /** Every combination accepted in the first k rounds lies within its
      bounds, has shares summing to at most 1, and is recorded with its
      agnostic share. */
  lemma {:induction false} RoundsAccepted(bounds: ParameterBounds, u: nat -> real, k: nat)
    requires UnitStream(u)
    ensures var s := Rounds(bounds, u, k);
      && |s.softNo| == |s.combinations|
      && forall i :: 0 <= i < |s.combinations| ==> Accepted(s.combinations[i], s.softNo[i], bounds)
  {
    if k > 0 {
      var s := Rounds(bounds, u, k - 1);
      RoundsAccepted(bounds, u, k - 1);
      AdvanceCounts(bounds, u, s);
      assert Rounds(bounds, u, k) == Advance(bounds, u, s);
    }
  }

  /** sample_param_combinations succeeds with exactly `nRep` combinations,
      each accepted and paired with its agnostic share. */
  lemma SampledAccepted(bounds: ParameterBounds, nRep: nat, u: nat -> real)
    requires UnitStream(u)
    ensures var r := Sample(bounds, nRep, u);
      r.Sampled? ==>
        && |r.combinations| == nRep && |r.softNo| == nRep
        && forall i :: 0 <= i < nRep ==> Accepted(r.combinations[i], r.softNo[i], bounds)
  {
    if Sample(bounds, nRep, u).Sampled? {
      var j := RunSampledDraws(bounds, nRep, u, 0);
      RoundsAccepted(bounds, u, j);
    }
  }

  /** With bounds whose every pair violates the constraint, every round is a rejection. */
  lemma {:induction false} RoundsAllRejected(bounds: ParameterBounds, u: nat -> real, k: nat)
    requires UnitStream(u) && AlwaysRejected(bounds)
    ensures Rounds(bounds, u, k).rejections == k && Rounds(bounds, u, k).combinations == []
  {
    if k > 0 {
      var s := Rounds(bounds, u, k - 1);
      RoundsAllRejected(bounds, u, k - 1);
      assert Rejects(bounds, u, s);
      AdvanceCounts(bounds, u, s);
    }
  }

  /** With bounds whose every pair satisfies the constraint, every round is an acceptance. */
  lemma {:induction false} RoundsNoneRejected(bounds: ParameterBounds, u: nat -> real, k: nat)
    requires UnitStream(u) && NeverRejected(bounds)
    ensures Rounds(bounds, u, k).rejections == 0 && |Rounds(bounds, u, k).combinations| == k
  {
    if k > 0 {
      var s := Rounds(bounds, u, k - 1);
      RoundsNoneRejected(bounds, u, k - 1);
      assert !Rejects(bounds, u, s);
      AdvanceCounts(bounds, u, s);
    }
  }

  /** Incompatible share bounds make sampling give up whenever at least one
      combination is requested. */
  lemma AlwaysRejectedInfeasible(bounds: ParameterBounds, nRep: nat, u: nat -> real)
    requires UnitStream(u) && AlwaysRejected(bounds) && 0 < nRep
    ensures Sample(bounds, nRep, u) == Infeasible
  {
    RoundsAllRejected(bounds, u, 0);
    RoundsAllRejected(bounds, u, nRep * RejectionFactor + 1);
    RunGivesUp(bounds, nRep, u, 0, nRep * RejectionFactor + 1);
  }

  /** Share bounds that cannot produce a rejection always let sampling succeed. */
  lemma NeverRejectedSampled(bounds: ParameterBounds, nRep: nat, u: nat -> real)
    requires UnitStream(u) && NeverRejected(bounds)
    ensures Sample(bounds, nRep, u).Sampled?
  {
    Threshold(bounds, nRep, u);
    forall j | Rounds(bounds, u, j).rejections == nRep * RejectionFactor + 1
      ensures false
    {
      RoundsNoneRejected(bounds, u, j);
    }
  }

  /** One pass of the sampling loop's body: draw a pair of shares from
      position `next`; on rejection count it, otherwise draw the other four
      parameters and record the combination and its agnostic share. */
  method DrawRound(bounds: ParameterBounds, u: nat -> real, next: nat, n: nat,
                   combinations: seq<ParamSet>, softNo: seq<real>)
    returns (next': nat, n': nat, combinations': seq<ParamSet>, softNo': seq<real>)
    requires UnitStream(u)
    ensures Progress(next', n', combinations', softNo') == Advance(bounds, u, Progress(next, n, combinations, softNo))
  {
    var pPro := Uniform(bounds.pPro, u(next));
    var pAnti := Uniform(bounds.pAnti, u(next + 1));
    next' := next + 2;
    n', combinations', softNo' := n, combinations, softNo;
    if pPro + pAnti > 1.0 {
      n' := n + 1;
    } else {
      var pressure := Uniform(bounds.pressure, u(next'));
      var tau := Uniform(bounds.tau, u(next' + 1));
      var nv0 := Uniform(bounds.nv0, u(next' + 2));
      var nvMax := Uniform(bounds.nvMax, u(next' + 3));
      next' := next' + 4;
      combinations' := combinations + [ParamSet(pPro, pAnti, pressure, tau, nv0, nvMax)];
      softNo' := softNo + [1.0 - (pPro + pAnti)];
    }
  }

  /** sample_param_combinations: draw pairs of shares until `nRep` pairs with
      sum at most 1 have been accepted, completing each accepted pair with
      the other four parameters; give up after more than
      `nRep * RejectionFactor` rejections. Always terminates, since each
      round either accepts or counts a rejection. */
  method SampleParamCombinations(bounds: ParameterBounds, nRep: nat, u: nat -> real) returns (r: Sampling)
    requires UnitStream(u)
    ensures r == Sample(bounds, nRep, u)
  {
    var combinations: seq<ParamSet> := [];
    var softNo: seq<real> := [];
    var n: nat := 0;
    var next: nat := 0;  // position of the next variate in the stream
    while |combinations| < nRep
      invariant |combinations| <= nRep && n <= nRep * RejectionFactor
      invariant Run(bounds, nRep, u, Progress(next, n, combinations, softNo)) == Sample(bounds, nRep, u)
      decreases nRep - |combinations|, nRep * RejectionFactor - n
    {
      AdvanceCounts(bounds, u, Progress(next, n, combinations, softNo));
      next, n, combinations, softNo := DrawRound(bounds, u, next, n, combinations, softNo);
      if n > nRep * RejectionFactor {
        // only a rejection raises the counter, so this round rejected its pair
        return Infeasible;
      }
    }
    return Sampled(combinations, softNo);
  }
}
