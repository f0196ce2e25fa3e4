/**
 * Post-optimisation analysis shared by both calibration scripts: the running-best scan of the
 * convergence animation, the parameter comparison rows and the per-condition error statistics
 * of analyze_errors.
 */
module Analysis {
  import opened Wrappers
  import opened Floats
  import opened WakeConfig
  import opened WakeBuilder
  import opened Search
  import opened Objective

  /** Python's `a <= b` on floats: false whenever either side is NaN. */
  predicate PyLe(a: Float, b: Float)
  {
    !a.NaN? && !b.NaN? && Le(a, b)
  }

  /** best_so_far_rmse after the first n entries of the trace (inf before any). */
  function RunningBest(res: seq<Entry>, n: nat): (b: Float)
    requires n <= |res|
    ensures !b.NaN?
  {
    if n == 0 then Inf(false)
    else
      var b := RunningBest(res, n - 1);
      var x := Neg(res[n - 1].target);
      if PyLe(x, b) then x else b
  }

  /** best_so_far_params after the first n entries ({} before any update). */
  function RunningBestParams(res: seq<Entry>, n: nat): Params
    requires n <= |res|
  {
    if n == 0 then map[]
    else if PyLe(Neg(res[n - 1].target), RunningBest(res, n - 1)) then res[n - 1].params
    else RunningBestParams(res, n - 1)
  }

  /** The last of the first n entries whose negated target equals the running best: on a tie
      the later entry wins.  None when no entry ever updated the best. */
  function LastBest(res: seq<Entry>, n: nat): (k: Option<nat>)
    requires n <= |res|
    ensures k.Some? ==> k.value < n && Neg(res[k.value].target) == RunningBest(res, n)
    ensures k.Some? ==> forall j :: k.value < j < n ==> Neg(res[j].target) != RunningBest(res, n)
    ensures k.None? ==> RunningBest(res, n) == Inf(false)
    ensures k.None? ==> forall j :: 0 <= j < n ==> Neg(res[j].target) != Inf(false)
  {
    if n == 0 then None
    else if Neg(res[n - 1].target) == RunningBest(res, n) then Some(n - 1)
    else LastBest(res, n - 1)
  }

  /** The body of update_plot(frame): the running best of every prefix up to the frame, and the
      parameters of the current best. */
  method ConvergenceFrame(res: seq<Entry>, frame: nat) returns (rmses: seq<Float>, params: Params)
    requires frame < |res|
    ensures |rmses| == frame + 1
    ensures forall i :: 0 <= i <= frame ==> rmses[i] == RunningBest(res, i + 1)
    ensures params == RunningBestParams(res, frame + 1)
  {
    var best := Inf(false);
    params := map[];
    rmses := [];
    var i := 0;
    while i < frame + 1
      invariant 0 <= i <= frame + 1
      invariant best == RunningBest(res, i) && params == RunningBestParams(res, i)
      invariant |rmses| == i && forall j :: 0 <= j < i ==> rmses[j] == RunningBest(res, j + 1)
    {
      var x := Neg(res[i].target);
      if PyLe(x, best) {
        best := x;
        params := res[i].params;
      }
      rmses := rmses + [best];
      i := i + 1;
    }
  }

  /** The series is non-increasing. */
  lemma {:induction false} RunningBestNonIncreasing(res: seq<Entry>, i: nat, j: nat)
    requires i <= j <= |res|
    ensures Le(RunningBest(res, j), RunningBest(res, i))
    decreases j - i
  {
    if i < j {
      RunningBestNonIncreasing(res, i, j - 1);
    }
  }

  /** Element n-1 of the series is the minimum of the negated targets of entries 0..n-1
      (NaN targets are never taken), or inf when there is none. */
  lemma {:induction false} RunningBestIsMinimum(res: seq<Entry>, n: nat)
    requires n <= |res|
    ensures forall k :: 0 <= k < n && !res[k].target.NaN? ==> Le(RunningBest(res, n), Neg(res[k].target))
    ensures RunningBest(res, n) == Inf(false)
         || exists k :: 0 <= k < n && RunningBest(res, n) == Neg(res[k].target)
  {
    if n > 0 {
      RunningBestIsMinimum(res, n - 1);
      forall k | 0 <= k < n && !res[k].target.NaN?
        ensures Le(RunningBest(res, n), Neg(res[k].target))
      {
        if k < n - 1 {
          RunningBestNonIncreasing(res, n - 1, n);
        }
      }
    }
  }

  /** The parameters shown are those of the last entry that attains the running best. */
  lemma {:induction false} RunningBestParamsLaterWins(res: seq<Entry>, n: nat)
    requires n <= |res|
    ensures var k := LastBest(res, n);
      RunningBestParams(res, n) == if k.Some? then res[k.value].params else map[]
  {
    if n > 0 {
      RunningBestParamsLaterWins(res, n - 1);
    }
  }

  /** The last element of the series over the whole trace is best_rmse = -max target. */
  lemma FinalRunningBestIsBestRmse(res: seq<Entry>)
    requires |res| > 0 && NoNaN(res)
    ensures RunningBest(res, |res|) == Neg(Max(res).value.target)
  {
    var b := RunningBest(res, |res|);
    var m := Max(res).value;
    var k :| 0 <= k < |res| && res[k] == m;
    RunningBestIsMinimum(res, |res|);
    assert Le(b, Neg(m.target));
    if b != Inf(false) {
      var j :| 0 <= j < |res| && b == Neg(res[j].target);
      assert Le(res[j].target, m.target);
    }
  }

  /** On a tie the scan shows the later entry while optimizer.max keeps the earlier one. */
  lemma TieShowsLaterEntry(p: Params, q: Params, t: Float)
    requires !t.NaN? && p != q
    ensures RunningBestParams([Entry(p, t), Entry(q, t)], 2) == q
    ensures Max([Entry(p, t), Entry(q, t)]).value.params == p
  {
    var res := [Entry(p, t), Entry(q, t)];
    assert RunningBest(res, 1) == Neg(t);
    assert BestIndex(res) == 0 by {
      assert Le(res[1].target, res[0].target);
    }
  }

  /** The two bar series of the parameter comparison: the best value and the default of every
      key of the best parameters, in key order; a key without a default raises KeyError.  `keys`
      is best_params.keys(): every key of `best` once, in the dict's order. */
  method ParameterRows(keys: seq<string>, best: Params, defaults: Params)
    returns (r: Result<(seq<real>, seq<real>), BuildError>)
    requires forall k :: k in keys <==> k in best
    requires forall i, j :: 0 <= i < j < |keys| ==> keys[i] != keys[j]
    ensures r.Ok? <==> forall k :: k in best ==> k in defaults
    ensures r.Ok? <==> forall k :: k in keys ==> k in defaults
    ensures r.Ok? ==> |r.value.0| == |r.value.1| == |keys|
    ensures r.Ok? ==> forall i :: 0 <= i < |keys| ==> r.value.0[i] == best[keys[i]] && r.value.1[i] == defaults[keys[i]]
    ensures r.Err? ==> exists i :: 0 <= i < |keys| && r.error == MissingKey(keys[i]) && keys[i] !in defaults
                                 && forall j :: 0 <= j < i ==> keys[j] in defaults
  {
    var bestVals, defaultVals := [], [];
    var i := 0;
    while i < |keys|
      invariant 0 <= i <= |keys|
      invariant forall j :: 0 <= j < i ==> keys[j] in defaults
      invariant |bestVals| == |defaultVals| == i
      invariant forall j :: 0 <= j < i ==> bestVals[j] == best[keys[j]] && defaultVals[j] == defaults[keys[j]]
    {
      if keys[i] !in defaults {
        return Err(MissingKey(keys[i]));
      }
      bestVals := bestVals + [best[keys[i]]];
      defaultVals := defaultVals + [defaults[keys[i]]];
      i := i + 1;
    }
    return Ok((bestVals, defaultVals));
  }

  /** The error statistics of analyze_errors. */
  datatype ErrorStats = ErrorStats(meanRmse: Float, meanMae: Float, meanBias: Float,
                                   rmsePerCase: seq<Float>, maePerCase: seq<Float>, biasPerCase: seq<Float>,
                                   pooledAbsErrors: seq<Float>)

  function AbsAll(d: Field): (r: Field)
    ensures |r| == |d|
    ensures forall i :: 0 <= i < |r| ==> NonNeg(r[i]) && (r[i].NaN? <==> d[i].NaN?)
  {
    seq(|d|, i requires 0 <= i < |d| => Abs(d[i]))
  }

  /** np.mean(np.abs(diff)) on a DataArray: the NaN-skipping mean absolute error. */
  function CaseMae(d: Field): (r: Float)
    ensures NonNeg(r)
    ensures r.NaN? <==> forall i :: 0 <= i < |d| ==> d[i].NaN?
  {
    NanMeanNonNeg(AbsAll(d));
    NanMean(AbsAll(d))
  }

  /** np.mean(diff) on a DataArray: the NaN-skipping mean error. */
  function CaseBias(d: Field): Float
  {
    NanMean(d)
  }

  function RealAbs(x: real): real
  {
    if x < 0.0 then -x else x
  }

  function RealAbsAll(xs: seq<real>): (r: seq<real>)
    ensures |r| == |xs| && forall i :: 0 <= i < |xs| ==> r[i] == RealAbs(xs[i])
  {
    seq(|xs|, i requires 0 <= i < |xs| => RealAbs(xs[i]))
  }

  /** The triangle inequality for a sum. */
  lemma {:induction false} SumTriangle(xs: seq<real>)
    ensures RealAbs(RealSum(xs)) <= RealSum(RealAbsAll(xs))
  {
    if |xs| > 0 {
      var init := xs[..|xs| - 1];
      SumTriangle(init);
      assert RealAbsAll(xs)[..|xs| - 1] == RealAbsAll(init);
    }
  }

  /** When the cells that are not NaN are all finite (and there is one), the bias never exceeds
      the mean absolute error: |bias| <= mae.  Both skip the same NaN cells. */
  lemma BiasBoundedByMae(d: Field)
    requires |Kept(d)| > 0 && AllFinite(Kept(d))
    ensures CaseBias(d).Fin? && CaseMae(d).Fin?
    ensures RealAbs(CaseBias(d).v) <= CaseMae(d).v
  {
    var k := Kept(d);
    BiasBoundedByMaeFinite(k);
    KeptAbsAll(d);
    assert Kept(k) == k;
    assert Kept(AbsAll(k)) == AbsAll(k);
  }

  /** Taking absolute values and skipping NaN commute. */
  lemma {:induction false} KeptAbsAll(d: Field)
    ensures Kept(AbsAll(d)) == AbsAll(Kept(d))
  {
    if |d| > 0 {
      var init := d[..|d| - 1];
      KeptAbsAll(init);
      assert AbsAll(d)[..|d| - 1] == AbsAll(init);
      if !d[|d| - 1].NaN? {
        assert AbsAll(Kept(init) + [d[|d| - 1]]) == AbsAll(Kept(init)) + [Abs(d[|d| - 1])];
      }
    }
  }

  /** On a finite field the bias never exceeds the mean absolute error. */
  lemma BiasBoundedByMaeFinite(d: Field)
    requires |d| > 0 && AllFinite(d)
    ensures CaseBias(d).Fin? && CaseMae(d).Fin?
    ensures RealAbs(CaseBias(d).v) <= CaseMae(d).v
  {
    var xs := Values(d);
    NanMeanFinite(d);
    var a := AbsAll(d);
    assert AllFinite(a);
    assert Values(a) == RealAbsAll(xs) by {
      forall i | 0 <= i < |d| ensures Values(a)[i] == RealAbsAll(xs)[i] {
        assert a[i] == Abs(d[i]);
      }
    }
    NanMeanFinite(a);
    SumTriangle(xs);
    DivideBound(RealSum(xs), RealSum(RealAbsAll(xs)), |xs| as real);
  }

  lemma DivideBound(s: real, sa: real, n: real)
    requires n > 0.0 && RealAbs(s) <= sa
    ensures RealAbs(s / n) <= sa / n
  {
    if s < 0.0 {
      assert s / n == -((-s) / n);
    }
  }

  /** The analysis loop of analyze_errors over the differences observed - predicted of each
      condition: rmse, mae and bias per condition, the pooled |diff| of every cell (from which
      the p90 error is taken), and the list means.  np.concatenate raises on no conditions. */
  method ErrorStatistics(sqrt: real -> real, diffs: seq<Field>) returns (stats: ErrorStats)
    requires IsSqrt(sqrt) && |diffs| > 0
    ensures |stats.rmsePerCase| == |stats.maePerCase| == |stats.biasPerCase| == |diffs|
    ensures forall t :: 0 <= t < |diffs| ==>
              && stats.rmsePerCase[t] == ConditionRmse(sqrt, diffs[t])
              && stats.maePerCase[t] == CaseMae(diffs[t])
              && stats.biasPerCase[t] == CaseBias(diffs[t])
    ensures stats.rmsePerCase == ConditionRmses(sqrt, diffs)
    ensures stats.pooledAbsErrors == Pooled(diffs)
    ensures stats.meanRmse == Mean(stats.rmsePerCase) && stats.meanMae == Mean(stats.maePerCase)
    ensures stats.meanBias == Mean(stats.biasPerCase)
  {
    var rmses, maes, biases := CaseStatistics(sqrt, diffs);
    var pooled := PooledErrors(diffs);
    stats := ErrorStats(Mean(rmses), Mean(maes), Mean(biases), rmses, maes, biases, pooled);
  }

  /** The per-condition part of the analysis loop: rmse, mae and bias of every condition, in order. */
  method CaseStatistics(sqrt: real -> real, diffs: seq<Field>) returns (rmses: seq<Float>, maes: seq<Float>, biases: seq<Float>)
    requires IsSqrt(sqrt)
    ensures |rmses| == |maes| == |biases| == |diffs|
    ensures forall t :: 0 <= t < |diffs| ==>
              && rmses[t] == ConditionRmse(sqrt, diffs[t])
              && maes[t] == CaseMae(diffs[t])
              && biases[t] == CaseBias(diffs[t])
  {
    ghost var allRmses, allMaes, allBiases := ConditionRmses(sqrt, diffs), CaseMaes(diffs), CaseBiases(diffs);
    rmses, maes, biases := [], [], [];
    var t := 0;
    while t < |diffs|
      invariant 0 <= t <= |diffs|
      invariant rmses == allRmses[..t] && maes == allMaes[..t] && biases == allBiases[..t]
    {
      var d := diffs[t];
      var rmse, mae, bias := ConditionRmse(sqrt, d), CaseMae(d), CaseBias(d);
      assert rmse == allRmses[t] && mae == allMaes[t] && bias == allBiases[t];
      PrefixGrows(allRmses, t);
      PrefixGrows(allMaes, t);
      PrefixGrows(allBiases, t);
      rmses, maes, biases := rmses + [rmse], maes + [mae], biases + [bias];
      t := t + 1;
    }
    assert allRmses[..t] == allRmses && allMaes[..t] == allMaes && allBiases[..t] == allBiases;
  }

  lemma PrefixGrows<T>(s: seq<T>, t: nat)
    requires t < |s|
    ensures s[..t + 1] == s[..t] + [s[t]]
  {
  }

  /** The mae of every condition, in order. */
  function CaseMaes(diffs: seq<Field>): (r: seq<Float>)
    ensures |r| == |diffs| && forall t :: 0 <= t < |r| ==> r[t] == CaseMae(diffs[t])
  {
    seq(|diffs|, t requires 0 <= t < |diffs| => CaseMae(diffs[t]))
  }

  /** The bias of every condition, in order. */
  function CaseBiases(diffs: seq<Field>): (r: seq<Float>)
    ensures |r| == |diffs| && forall t :: 0 <= t < |r| ==> r[t] == CaseBias(diffs[t])
  {
    seq(|diffs|, t requires 0 <= t < |diffs| => CaseBias(diffs[t]))
  }

  /** all_errors: the absolute differences of every condition, flattened and concatenated in order. */
  method PooledErrors(diffs: seq<Field>) returns (pooled: seq<Float>)
    ensures pooled == Pooled(diffs)
  {
    pooled := [];
    var t := 0;
    while t < |diffs|
      invariant 0 <= t <= |diffs|
      invariant pooled == Pooled(diffs[..t])
    {
      assert diffs[..t + 1][..t] == diffs[..t];
      pooled := pooled + AbsAll(diffs[t]);
      t := t + 1;
    }
    assert diffs[..t] == diffs;
  }

  /** np.abs of the concatenated flattened differences of all conditions. */
  function Pooled(diffs: seq<Field>): seq<Float>
  {
    if |diffs| == 0 then [] else Pooled(diffs[..|diffs| - 1]) + AbsAll(diffs[|diffs| - 1])
  }

  /** Every pooled error is non-negative, and there is one per cell of every condition. */
  lemma {:induction false} PooledCells(diffs: seq<Field>)
    ensures forall i :: 0 <= i < |Pooled(diffs)| ==> NonNeg(Pooled(diffs)[i])
    ensures |Pooled(diffs)| == CellCount(diffs)
  {
    if |diffs| > 0 {
      PooledCells(diffs[..|diffs| - 1]);
    }
  }

  function CellCount(diffs: seq<Field>): nat
  {
    if |diffs| == 0 then 0 else CellCount(diffs[..|diffs| - 1]) + |diffs[|diffs| - 1]|
  }

  /** The differences observed - predicted of analyze_errors for a built model m: observed at m's
      own operating points, predicted from m's own WS_eff. */
  function ModelResiduals(e: Engine, m: WindFarmSpec, ws: seq<real>, cells: nat): (r: seq<Field>)
    requires Shaped(e, |ws|, cells)
    ensures |r| == |ws|
  {
    Residuals(ws, ObservedAt(e, m, |ws|, cells), e.wsEff(m))
  }

  /** Some cell of the field is not NaN. */
  predicate SomeCellKnown(d: Field)
  {
    exists i :: 0 <= i < |d| && !d[i].NaN?
  }

  /** When no condition is entirely NaN, the list mean of the per-condition rmse values is the
      objective's two-stage aggregate, so mean_rmse is minus the score. */
  lemma ListMeanIsAggregate(sqrt: real -> real, diffs: seq<Field>)
    requires IsSqrt(sqrt) && |diffs| > 0
    requires forall t :: 0 <= t < |diffs| ==> SomeCellKnown(diffs[t])
    ensures Mean(ConditionRmses(sqrt, diffs)) == TwoStageRmse(sqrt, diffs)
    ensures Neg(Score(TwoStageRmse(sqrt, diffs))) == Mean(ConditionRmses(sqrt, diffs))
  {
    var rs := ConditionRmses(sqrt, diffs);
    assert forall t :: 0 <= t < |rs| ==> !rs[t].NaN?;
    assert Kept(rs) == rs;
    assert SomeCellKnown(diffs[0]);
    assert !AllCellsNaN(diffs);
  }

  /** If the model's operating points are the baseline's (so the observations are all_obs) and
      no condition is entirely NaN, mean_rmse of analyze_errors is minus the model's score. */
  lemma AnalysisMatchesObjective(sqrt: real -> real, e: Engine, m: WindFarmSpec, ws: seq<real>, cells: nat)
    requires IsSqrt(sqrt) && Shaped(e, |ws|, cells) && |ws| > 0
    requires e.operating(m) == e.operating(Baseline)
    requires forall t :: 0 <= t < |ws| ==> SomeCellKnown(ModelResiduals(e, m, ws, cells)[t])
    ensures Mean(ConditionRmses(sqrt, ModelResiduals(e, m, ws, cells))) == Neg(ScoreModel(sqrt, e, ws, cells, m))
  {
    var d: seq<Field> := ModelResiduals(e, m, ws, cells);
    assert ObservedAt(e, m, |ws|, cells) == Observed(e, |ws|, cells);
    ListMeanIsAggregate(sqrt, d);
  }

  /** f is an objective of the evaluate_rmse form: it builds with `build`, passing a KeyError on,
      and scores the built model against all_obs. */
  ghost predicate ScoresBuilds(f: Params -> Result<Float, BuildError>, sqrt: real -> real, e: Engine,
                               ws: seq<real>, cells: nat, build: Params -> Result<WindFarmSpec, BuildError>)
  {
    && IsSqrt(sqrt) && |ws| > 0 && Shaped(e, |ws|, cells)
    && forall p :: f(p) == (if build(p).Err? then Err(build(p).error) else Ok(ScoreModel(sqrt, e, ws, cells, build(p).value)))
  }

  /** Such an objective never yields NaN: the sentinel replaces it. */
  lemma ScoredNaNFree(f: Params -> Result<Float, BuildError>, sqrt: real -> real, e: Engine,
                      ws: seq<real>, cells: nat, build: Params -> Result<WindFarmSpec, BuildError>)
    requires ScoresBuilds(f, sqrt, e, ws, cells, build)
    ensures NaNFree(f)
  {
    forall p | f(p).Ok? ensures !f(p).value.NaN? {
      assert f(p).value == ScoreModel(sqrt, e, ws, cells, build(p).value);
    }
  }

  /** The best entry of a trace of such an objective is the score of its own built model. */
  lemma BestEntryIsScored(f: Params -> Result<Float, BuildError>, sqrt: real -> real, e: Engine,
                          ws: seq<real>, cells: nat, build: Params -> Result<WindFarmSpec, BuildError>,
                          out: seq<Entry>)
    requires ScoresBuilds(f, sqrt, e, ws, cells, build)
    requires Consistent(f, out) && |out| > 0 && NoNaN(out)
    ensures build(Max(out).value.params).Ok?
    ensures Max(out).value.target == ScoreModel(sqrt, e, ws, cells, build(Max(out).value.params).value)
  {
    var best := Max(out).value;
    var k :| 0 <= k < |out| && out[k] == best;
    assert f(best.params) == Ok(best.target);
  }

  /** The calibration pipeline on a completed search: the reported best_rmse is no worse than the
      defaults' own rmse, the best parameters build, and when the best model's operating points
      are the baseline's and no condition is entirely NaN, the list mean of the per-condition rmse
      values of the best model equals best_rmse. */
  lemma BestRmseReproduced(f: Params -> Result<Float, BuildError>, sqrt: real -> real, e: Engine,
                           ws: seq<real>, cells: nat, build: Params -> Result<WindFarmSpec, BuildError>,
                           suggest: seq<Entry> -> Params, randomSample: nat -> Params, defaults: Params,
                           initPoints: nat, nIter: nat)
    requires ScoresBuilds(f, sqrt, e, ws, cells, build) && |ws| > 0
    ensures var (out, _, err) := ProbeAndMaximize(f, suggest, randomSample, defaults, initPoints, nIter);
      && NaNFree(f)
      && (err.None? ==>
        && NoNaN(out) && |out| > 0
        && f(defaults).Ok? && Le(Neg(Max(out).value.target), Neg(f(defaults).value))
        && build(Max(out).value.params).Ok?
        && var m := build(Max(out).value.params).value;
           (e.operating(m) == e.operating(Baseline)
            && (forall t :: 0 <= t < |ws| ==> SomeCellKnown(ModelResiduals(e, m, ws, cells)[t]))
            ==> Mean(ConditionRmses(sqrt, ModelResiduals(e, m, ws, cells))) == Neg(Max(out).value.target)))
  {
    var (out, rest, err) := ProbeAndMaximize(f, suggest, randomSample, defaults, initPoints, nIter);
    ScoredNaNFree(f, sqrt, e, ws, cells, build);
    if err.None? {
      BestNoWorseThanDefaults(f, suggest, randomSample, defaults, initPoints, nIter);
      ProbeThenMaximize(f, suggest, randomSample, defaults, initPoints, nIter);
      DriveConsistent(f, suggest, [defaults] + Draws(randomSample, 0, InitCount([defaults], [], initPoints)), [], nIter);
      NegLe(f(defaults).value, Max(out).value.target);
      BestEntryIsScored(f, sqrt, e, ws, cells, build, out);
      var m := build(Max(out).value.params).value;
      if e.operating(m) == e.operating(Baseline)
         && (forall t :: 0 <= t < |ws| ==> SomeCellKnown(ModelResiduals(e, m, ws, cells)[t])) {
        AnalysisMatchesObjective(sqrt, e, m, ws, cells);
        NegNeg(Max(out).value.target);
      }
    }
  }

  lemma NegNeg(a: Float)
    ensures Neg(Neg(a)) == a
  {
  }
}
