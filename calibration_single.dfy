/**
 * The single-class calibration of data/calibration_prompt/claude_3.7/code_5.py.  It repeats the
 * tables and the objective of code_2.py, but it does not validate the model type, it builds the
 * downwind blockage without a ground model, it reads the keys of family 2 downwind in another
 * order, and evaluate_best_model predicts from the baseline flow map instead of the best model's.
 */
module SingleCalibration {
  import opened Wrappers
  import opened Floats
  import opened WakeConfig
  import opened WakeBuilder
  import opened Conditions
  import opened Objective
  import opened Search
  import opened Analysis

  /** The defaults of _define_optimization_bounds: family 1 by direction, any other model type
      the family-2 table. */
  function SingleDefaults(model: int, downwind: bool): Params
  {
    if model == 1 then
      if downwind then
        map["a_s" := 0.17, "b_s" := 0.005, "c_s" := 0.2, "b_f" := -0.68, "c_f" := 2.41,
            "ch1" := 0.73, "ch2" := 0.8325, "ch3" := -0.0325, "ch4" := -0.32]
      else
        map["ss_alpha" := 0.8888888888888888, "ss_beta" := 1.4142135623730951,
            "rp1" := -0.672, "rp2" := 0.4897,
            "ng1" := -1.381, "ng2" := 2.627, "ng3" := -1.524, "ng4" := 1.336,
            "fg1" := -0.06489, "fg2" := 0.4911, "fg3" := 1.116, "fg4" := -0.1577]
    else
      map["A" := 0.04, "cti1" := 1.5, "cti2" := 0.8, "ceps" := 0.25, "ctlim" := 0.999,
          "ch1" := 0.73, "ch2" := 0.8325, "ch3" := -0.0325, "ch4" := -0.3]
  }

  /** The pbounds of _define_optimization_bounds. */
  function SingleBounds(model: int, downwind: bool): Bounds
  {
    if model == 1 then
      if downwind then
        map["a_s" := (0.001, 0.5), "b_s" := (0.001, 0.01), "c_s" := (0.001, 0.5),
            "b_f" := (-2.0, 1.0), "c_f" := (0.1, 5.0),
            "ch1" := (-1.0, 2.0), "ch2" := (-1.0, 2.0), "ch3" := (-1.0, 2.0), "ch4" := (-1.0, 2.0)]
      else
        map["ss_alpha" := (0.05, 3.0), "ss_beta" := (0.05, 3.0),
            "rp1" := (-2.0, 2.0), "rp2" := (-2.0, 2.0),
            "ng1" := (-3.0, 3.0), "ng2" := (-3.0, 3.0), "ng3" := (-3.0, 3.0), "ng4" := (-3.0, 3.0),
            "fg1" := (-2.0, 2.0), "fg2" := (-2.0, 2.0), "fg3" := (-2.0, 2.0), "fg4" := (-2.0, 2.0)]
    else
      map["A" := (0.001, 0.5), "cti1" := (0.01, 5.0), "cti2" := (0.01, 5.0),
          "ceps" := (0.01, 3.0), "ctlim" := (0.01, 1.0),
          "ch1" := (-1.0, 2.0), "ch2" := (-1.0, 2.0), "ch3" := (-1.0, 2.0), "ch4" := (-1.0, 2.0)]
  }

  /** The tables are those of code_2.py, value for value, and so well formed: an unvalidated model
      type other than 1 gets the family-2 table. */
  lemma SingleTablesMatchSplit(model: int, downwind: bool)
    ensures SingleDefaults(model, downwind) == DefaultsFor(if model == 1 then 1 else 2, downwind)
    ensures SingleBounds(model, downwind) == BoundsFor(if model == 1 then 1 else 2, downwind)
    ensures WellFormedTable(SingleDefaults(model, downwind), SingleBounds(model, downwind))
  {
    TablesWellFormed(if model == 1 then 1 else 2, downwind);
  }

  /** The region of interest of _load_data for a rotor diameter d; it is the one code_2.py derives
      from its configuration. */
  function SingleRegionOfInterest(downwind: bool, d: real): (r: Roi)
    requires d > 0.0
    ensures forall model :: model == 1 || model == 2 ==> r == RegionOfInterest(NewConfig(model, downwind).value, d)
  {
    var (lb, ub) := if downwind then (2, 10) else (-2, -1);
    Roi(lb as real * d, ub as real * d, -2.0 * d, 2.0 * d)
  }

  /** The keys create_wind_farm_model reads, in the order it reads them: downwind family 2 reads
      the turbulence coefficients before the deficit parameters. */
  function SingleRequiredKeys(model: int, downwind: bool): seq<string>
  {
    if downwind then (if model == 1 then BlondelKeys + TurbulenceKeys else TurbulenceKeys + TurboKeys)
    else BlockageKeys
  }

  /** create_wind_farm_model(params): downwind, a deficit of the family, the turbulence
      coefficients ch1..ch4 and a blockage without ground model; upwind, the default deficit and
      turbulence and a parameterised blockage, mirrored only for model type 2. */
  function CreateWindFarmModel(model: int, downwind: bool, p: Params): (r: Result<WindFarmSpec, BuildError>)
    ensures r.Ok? <==> AllIn(p, SingleRequiredKeys(model, downwind))
    ensures r.Err? ==> FirstMissing(p, SingleRequiredKeys(model, downwind), r.error.key)
    ensures r.Ok? && downwind ==> r.value.blockage == SelfSimilarity(None, NoGround)
  {
    if downwind then
      if model == 1 then
        var d := GetAll(p, BlondelKeys);
        var t := GetAll(p, TurbulenceKeys);
        AllInAppend(p, BlondelKeys, TurbulenceKeys);
        if d.Err? then
          FirstMissingAppendLeft(p, BlondelKeys, TurbulenceKeys, d.error.key);
          Err(d.error)
        else if t.Err? then
          FirstMissingAppendRight(p, BlondelKeys, TurbulenceKeys, t.error.key);
          Err(t.error)
        else
          Ok(All2AllIterative(BlondelSuperGaussian(map k | k in BlondelKeys :: p[k]),
                              SelfSimilarity(None, NoGround), CrespoHernandez(Some(t.value))))
      else
        var t := GetAll(p, TurbulenceKeys);
        var d := GetAll(p, TurboKeys);
        AllInAppend(p, TurbulenceKeys, TurboKeys);
        if t.Err? then
          FirstMissingAppendLeft(p, TurbulenceKeys, TurboKeys, t.error.key);
          Err(t.error)
        else if d.Err? then
          FirstMissingAppendRight(p, TurbulenceKeys, TurboKeys, d.error.key);
          Err(d.error)
        else
          var vs := d.value;
          Ok(All2AllIterative(TurboGaussian(vs[0], [vs[1], vs[2]], vs[3], vs[4], Mirror, true),
                              SelfSimilarity(None, NoGround), CrespoHernandez(Some(t.value))))
    else
      var vs :- GetAll(p, BlockageKeys);
      Ok(All2AllIterative(BlondelSuperGaussian(map[]),
                          SelfSimilarity(Some(SelfSimilarityArgs(vs[0], vs[1], [vs[2], vs[3]], [vs[4], vs[5], vs[6], vs[7]])),
                                         if model == 2 then Mirror else NoGround),
                          CrespoHernandez(None)))
  }

  /** Against build_wind_farm_model of code_2.py for the same valid configuration: both fail on
      the same parameter vectors, and a successful build has the same deficit and turbulence; the
      blockage agrees upwind, and downwind differs only in the ground model (none here, Mirror
      there). */
  lemma CreateMatchesSplitBuild(model: int, downwind: bool, p: Params)
    requires model == 1 || model == 2
    ensures var c := NewConfig(model, downwind).value;
      var single, split := CreateWindFarmModel(model, downwind, p), BuildWindFarm(c, Some(p));
      && (single.Ok? <==> split.Ok?)
      && (single.Ok? ==> single.value.deficit == split.value.deficit
                         && single.value.turbulence == split.value.turbulence)
      && (single.Ok? && !downwind ==> single.value.blockage == split.value.blockage)
      && (single.Ok? && downwind ==> single.value.blockage == SelfSimilarity(None, NoGround)
                                     && split.value.blockage == SelfSimilarity(None, Mirror))
  {
    var c := NewConfig(model, downwind).value;
    if downwind {
      AllInAppend(p, BlondelKeys, TurbulenceKeys);
      AllInAppend(p, TurboKeys, TurbulenceKeys);
      AllInAppend(p, TurbulenceKeys, TurboKeys);
    }
  }

  /** With neither family-2 deficit key nor turbulence coefficient present, code_2.py reports the
      missing 'A' and this script the missing 'ch1'. */
  lemma KeyOrderDiffers()
    ensures BuildWindFarm(NewConfig(2, true).value, Some(map[])) == Err(MissingKey("A"))
    ensures CreateWindFarmModel(2, true, map[]) == Err(MissingKey("ch1"))
  {
    var c := NewConfig(2, true).value;
    var r := BuildWindFarm(c, Some(map[]));
    FirstMissingHead(map[], RequiredKeys(c), r.error.key);
    var s := CreateWindFarmModel(2, true, map[]);
    FirstMissingHead(map[], SingleRequiredKeys(2, true), s.error.key);
  }

  /** A model type other than 1 or 2 is rejected by code_2.py but accepted here: downwind it builds
      family 2, upwind the blockage of family 1 (no Mirror). */
  lemma UnvalidatedModelType(model: int, downwind: bool, p: Params)
    requires model != 1 && model != 2
    ensures NewConfig(model, downwind) == Err(InvalidModel(model))
    ensures downwind ==> CreateWindFarmModel(model, downwind, p) == CreateWindFarmModel(2, downwind, p)
    ensures !downwind ==> CreateWindFarmModel(model, downwind, p) == CreateWindFarmModel(1, downwind, p)
  {
  }

  /** evaluate_rmse(**kwargs) of this script: create the model, then the score of the Objective module. */
  function SingleEvaluateRmse(sqrt: real -> real, model: int, downwind: bool, e: Engine, ws: seq<real>,
                              cells: nat, p: Params): (r: Result<Float, BuildError>)
    requires IsSqrt(sqrt) && |ws| > 0 && Shaped(e, |ws|, cells)
    ensures r.Err? <==> CreateWindFarmModel(model, downwind, p).Err?
    ensures r.Ok? ==> r.value == ScoreModel(sqrt, e, ws, cells, CreateWindFarmModel(model, downwind, p).value)
  {
    var m :- CreateWindFarmModel(model, downwind, p);
    Ok(ScoreModel(sqrt, e, ws, cells, m))
  }

  lemma SingleScoresBuilds(sqrt: real -> real, model: int, downwind: bool, e: Engine, ws: seq<real>,
                           cells: nat, f: Params -> Result<Float, BuildError>)
    requires IsSqrt(sqrt) && |ws| > 0 && Shaped(e, |ws|, cells)
    requires forall p :: f(p) == SingleEvaluateRmse(sqrt, model, downwind, e, ws, cells, p)
    ensures ScoresBuilds(f, sqrt, e, ws, cells, p => CreateWindFarmModel(model, downwind, p))
  {
  }

  /** The differences of evaluate_best_model as written: observed at the best model's operating
      points, predicted from the baseline flow map self.flow_map. */
  function AsWrittenResiduals(e: Engine, m: WindFarmSpec, ws: seq<real>, cells: nat): (r: seq<Field>)
    requires Shaped(e, |ws|, cells)
    ensures |r| == |ws|
  {
    Residuals(ws, ObservedAt(e, m, |ws|, cells), e.wsEff(Baseline))
  }

  /** The as-written evaluation does not depend on the best model's simulated flow at all. */
  lemma AsWrittenIgnoresBestFlow(e1: Engine, e2: Engine, m: WindFarmSpec, ws: seq<real>, cells: nat)
    requires Shaped(e1, |ws|, cells) && Shaped(e2, |ws|, cells)
    requires e1.operating == e2.operating && e1.deficits == e2.deficits
    requires e1.wsEff(Baseline) == e2.wsEff(Baseline)
    ensures AsWrittenResiduals(e1, m, ws, cells) == AsWrittenResiduals(e2, m, ws, cells)
  {
    assert ObservedAt(e1, m, |ws|, cells) == ObservedAt(e2, m, |ws|, cells);
  }

  /** One condition, one cell: the dataset's deficit there is 0.1 at every operating point; the
      baseline leaves 9 m/s of the free 10 m/s, every other model 8 m/s. */
  function WitnessEngine(): (e: Engine)
    ensures Shaped(e, 1, 1)
  {
    Engine(s => if s == Baseline then [[Fin(9.0)]] else [[Fin(8.0)]],
           s => [OperatingPoint(0.8, 0.1)], op => [Fin(0.1)])
  }

  lemma WitnessResiduals(m: WindFarmSpec)
    requires m != Baseline
    ensures AsWrittenResiduals(WitnessEngine(), m, [10.0], 1) == [[Fin(0.0)]]
    ensures ModelResiduals(WitnessEngine(), m, [10.0], 1) == [[Fin(-0.1)]]
  {
    var e := WitnessEngine();
    var asWritten := AsWrittenResiduals(e, m, [10.0], 1);
    var best := ModelResiduals(e, m, [10.0], 1);
    assert ObservedAt(e, m, 1, 1)[0] == [Fin(0.1)];
    assert PredictedDeficit(10.0, [Fin(9.0)]) == [Fin(0.1)] by {
      assert PredictedDeficit(10.0, [Fin(9.0)])[0] == Fin(0.1);
    }
    assert PredictedDeficit(10.0, [Fin(8.0)]) == [Fin(0.2)] by {
      assert PredictedDeficit(10.0, [Fin(8.0)])[0] == Fin(0.2);
    }
    assert asWritten[0] == [Fin(0.0)] by {
      assert asWritten[0][0] == Fin(0.0);
    }
    assert best[0] == [Fin(-0.1)] by {
      assert best[0][0] == Fin(-0.1);
    }
  }

  /** For any best model other than the baseline, the as-written overall rmse is sqrt(0) while the
      best model's own is sqrt(0.01), which is positive and differs from it. */
  lemma AsWrittenDiffersFromBestModel(sqrt: real -> real, m: WindFarmSpec)
    requires IsSqrt(sqrt) && m != Baseline
    ensures Mean(ConditionRmses(sqrt, AsWrittenResiduals(WitnessEngine(), m, [10.0], 1))) == Fin(sqrt(0.0))
    ensures Mean(ConditionRmses(sqrt, ModelResiduals(WitnessEngine(), m, [10.0], 1))) == Fin(sqrt(0.01))
    ensures sqrt(0.01) > 0.0 && sqrt(0.0) != sqrt(0.01)
  {
    var e := WitnessEngine();
    var asWritten := AsWrittenResiduals(e, m, [10.0], 1);
    var best := ModelResiduals(e, m, [10.0], 1);
    WitnessResiduals(m);
    assert asWritten == [[Fin(0.0)]];
    assert best == [[Fin(-0.1)]];
    RmseOfOneCell(sqrt, 0.0, 0.0);
    RmseOfOneCell(sqrt, -0.1, 0.01);
    SqrtOfPositive(sqrt, 0.01);
  }

  /** A positive number has a positive root, unlike zero. */
  lemma SqrtOfPositive(sqrt: real -> real, x: real)
    requires IsSqrt(sqrt) && x > 0.0
    ensures sqrt(x) > 0.0 && sqrt(x) != sqrt(0.0)
  {
    var r, z := sqrt(x), sqrt(0.0);
    assert r >= 0.0 && r * r == x;
    assert z * z == 0.0;
  }

  lemma RmseOfOneCell(sqrt: real -> real, x: real, y: real)
    requires IsSqrt(sqrt) && y == x * x && y >= 0.0
    ensures Mean(ConditionRmses(sqrt, [[Fin(x)]])) == Fin(sqrt(y))
  {
    ConditionRmseOfOneCell(sqrt, x, y);
    var rs := ConditionRmses(sqrt, [[Fin(x)]]);
    assert rs == [Fin(sqrt(y))];
    SingletonMean(sqrt(y));
  }

  lemma ConditionRmseOfOneCell(sqrt: real -> real, x: real, y: real)
    requires IsSqrt(sqrt) && y == x * x && y >= 0.0
    ensures ConditionRmse(sqrt, [Fin(x)]) == Fin(sqrt(y))
  {
    var sq := Squares([Fin(x)]);
    assert sq[0] == Fin(y);
    assert sq == [Fin(y)];
    SingletonMean(y);
    assert NanMean(sq) == Fin(y);
    assert Sqrt(sqrt, Fin(y)) == Fin(sqrt(y));
  }

  /** The mean of one finite value is that value, with or without skipping NaN. */
  lemma SingletonMean(a: real)
    ensures Mean([Fin(a)]) == Fin(a) && NanMean([Fin(a)]) == Fin(a)
  {
    var s := [Fin(a)];
    assert s[..0] == [];
    assert Sum(s) == Add(Fin(0.0), Fin(a)) == Fin(a);
    assert Mean(s) == Div(Fin(a), Fin(1.0)) == Fin(a);
    assert Kept(s) == s;
  }

  /** A run of this script's evaluate_rmse that completes leaves a non-empty trace free of NaN,
      so optimizer.max exists. */
  lemma CompletedRunHasBest(sqrt: real -> real, model: int, downwind: bool, e: Engine, ws: seq<real>,
                            cells: nat, f: Params -> Result<Float, BuildError>, suggest: seq<Entry> -> Params,
                            randomSample: nat -> Params, defaults: Params, initPoints: nat, nIter: nat)
    requires IsSqrt(sqrt) && |ws| > 0 && Shaped(e, |ws|, cells)
    requires forall p :: f(p) == SingleEvaluateRmse(sqrt, model, downwind, e, ws, cells, p)
    ensures var (out, _, err) := ProbeAndMaximize(f, suggest, randomSample, defaults, initPoints, nIter);
      err.None? ==> NoNaN(out) && |out| > 0
  {
    SingleScoresBuilds(sqrt, model, downwind, e, ws, cells, f);
    ScoredNaNFree(f, sqrt, e, ws, cells, p => CreateWindFarmModel(model, downwind, p));
    BestNoWorseThanDefaults(f, suggest, randomSample, defaults, initPoints, nIter);
    ProbeThenMaximize(f, suggest, randomSample, defaults, initPoints, nIter);
  }

  class WakeModelOptimizer {
    const model: int
    const downwind: bool
    const xLb: int
    const xUb: int
    const roi: Roi
    const engine: Engine
    const sqrt: real -> real
    const cells: nat
    const fullWs: seq<real>
    const fullTi: seq<real>
    /** self.flow_map: the WS_eff fields of the baseline simulation. */
    const flowMap: seq<Field>
    const allObs: seq<Field>
    const defaults: Params
    const pbounds: Bounds
    var optimizer: BayesianOptimization?
    var bestParams: Params
    var bestRmse: Float
    /** run_optimization has completed, so best_params and best_rmse exist. */
    ghost var optimized: bool

    ghost predicate Valid()
    {
      && IsSqrt(sqrt)
      && |fullWs| == |fullTi| == |WindSpeeds| * |TurbulenceIntensities|
      && Shaped(engine, |fullWs|, cells)
      && flowMap == engine.wsEff(Baseline)
      && allObs == Observed(engine, |fullWs|, cells)
    }

    /** __init__: _load_data (window and region of interest), _setup_simulation_inputs (grid and
        observations), _define_optimization_bounds. */
    constructor(model: int, downwind: bool, engine: Engine, sqrt: real -> real, cells: nat, d: real)
      requires IsSqrt(sqrt) && d > 0.0
      requires Shaped(engine, |WindSpeeds| * |TurbulenceIntensities|, cells)
      ensures Valid()
      ensures this.model == model && this.downwind == downwind && this.engine == engine
      ensures this.sqrt == sqrt && this.cells == cells
      ensures (xLb, xUb) == (if downwind then (2, 10) else (-2, -1)) && roi == SingleRegionOfInterest(downwind, d)
      ensures fullWs == RepeatEach(WindSpeeds, |TurbulenceIntensities|) && fullTi == Tile(TurbulenceIntensities, |WindSpeeds|)
      ensures defaults == SingleDefaults(model, downwind) && pbounds == SingleBounds(model, downwind)
      ensures optimizer == null && !optimized
    {
      var lb, ub := if downwind then 2 else -2, if downwind then 10 else -1;
      var ti := Tile(TurbulenceIntensities, |WindSpeeds|);
      var ws := RepeatEach(WindSpeeds, |TurbulenceIntensities|);
      var obs := ObservedValues(engine, |ws|, cells);
      this.model := model;
      this.downwind := downwind;
      this.engine := engine;
      this.sqrt := sqrt;
      this.cells := cells;
      xLb, xUb := lb, ub;
      roi := Roi(lb as real * d, ub as real * d, -2.0 * d, 2.0 * d);
      fullTi, fullWs := ti, ws;
      flowMap := engine.wsEff(Baseline);
      allObs := obs;
      defaults := SingleDefaults(model, downwind);
      pbounds := SingleBounds(model, downwind);
      optimizer := null;
      bestParams, bestRmse := map[], NaN;
      optimized := false;
    }

    /** evaluate_rmse(**kwargs) */
    method EvaluateRmse(params: Params) returns (r: Result<Float, BuildError>)
      requires Valid()
      ensures r == SingleEvaluateRmse(sqrt, model, downwind, engine, fullWs, cells, params)
    {
      var built := CreateWindFarmModel(model, downwind, params);
      if built.Err? {
        return Err(built.error);
      }
      var fields := CollectFlowMap(engine.wsEff(built.value));
      r := Ok(Score(TwoStageRmse(sqrt, Residuals(fullWs, allObs, fields.value))));
    }

    /** run_optimization(init_points, n_iter): a fresh optimizer over evaluate_rmse, the defaults
        probed lazily, maximize, then best_params and best_rmse from optimizer.max.  An exception of
        the objective leaves the best pair as it was. */
    method RunOptimization(initPoints: nat, nIter: nat, randomSample: nat -> Params, suggest: seq<Entry> -> Params)
      returns (r: Result<(Params, Float), BuildError>)
      requires Valid()
      modifies this
      ensures fresh(optimizer) && optimizer != null
      ensures forall p :: optimizer.f(p) == SingleEvaluateRmse(sqrt, model, downwind, engine, fullWs, cells, p)
      ensures var (out, rest, err) := ProbeAndMaximize(optimizer.f, suggest, randomSample, defaults, initPoints, nIter);
        && optimizer.res == out && optimizer.queue == rest
        && (r.Err? <==> err.Some?) && (r.Err? ==> r.error == err.value)
        && (r.Ok? ==> && NoNaN(out) && |out| > 0
                      && bestParams == Max(out).value.params && bestRmse == Neg(Max(out).value.target)
                      && r.value == (bestParams, bestRmse) && optimized)
        && (r.Err? ==> bestParams == old(bestParams) && bestRmse == old(bestRmse) && optimized == old(optimized))
    {
      var s, mt, dw, e, ws, n := sqrt, model, downwind, engine, fullWs, cells;
      var f := p => SingleEvaluateRmse(s, mt, dw, e, ws, n, p);
      var opt, err := ProbeAndRun(f, pbounds, randomSample, suggest, defaults, initPoints, nIter);
      optimizer := opt;
      CompletedRunHasBest(s, mt, dw, e, ws, n, f, suggest, randomSample, defaults, initPoints, nIter);
      if err.Some? {
        return Err(err.value);
      }
      var best := Max(opt.res).value;
      bestParams := best.params;
      bestRmse := Neg(best.target);
      optimized := true;
      r := Ok((bestParams, bestRmse));
    }

    /** The loop of evaluate_best_model over the conditions of self.flow_map: for condition t the
        rmse of the dataset at the best model's operating point minus the deficit predicted from
        wsEff[t]. */
    method RmseValues(m: WindFarmSpec, wsEff: seq<Field>) returns (rmses: seq<Float>)
      requires Valid() && |wsEff| == |fullWs| && forall t :: 0 <= t < |wsEff| ==> |wsEff[t]| == cells
      ensures rmses == ConditionRmses(sqrt, Residuals(fullWs, ObservedAt(engine, m, |fullWs|, cells), wsEff))
    {
      var ops := engine.operating(m);
      ghost var d := Residuals(fullWs, ObservedAt(engine, m, |fullWs|, cells), wsEff);
      rmses := [];
      var t := 0;
      while t < |flowMap|
        invariant 0 <= t <= |fullWs| && |rmses| == t
        invariant forall u :: 0 <= u < t ==> rmses[u] == ConditionRmse(sqrt, d[u])
      {
        var observed := engine.deficits(ops[t]);
        var pred := PredictedDeficit(fullWs[t], wsEff[t]);
        rmses := rmses + [ConditionRmse(sqrt, Differences(observed, pred))];
        t := t + 1;
      }
    }

    /** evaluate_best_model() as written: (mean of rmse_values, rmse_values), predicted from the
        baseline flow map. */
    method EvaluateBestModelAsWritten() returns (r: Result<(Float, seq<Float>), BuildError>)
      requires Valid() && optimized
      ensures r.Err? <==> CreateWindFarmModel(model, downwind, bestParams).Err?
      ensures r.Ok? ==>
        && r.value.1 == ConditionRmses(sqrt, AsWrittenResiduals(engine, CreateWindFarmModel(model, downwind, bestParams).value, fullWs, cells))
        && r.value.0 == Mean(r.value.1)
    {
      var built := CreateWindFarmModel(model, downwind, bestParams);
      if built.Err? {
        return Err(built.error);
      }
      var rmses := RmseValues(built.value, flowMap);
      r := Ok((Mean(rmses), rmses));
    }

    /** evaluate_best_model() as evidently intended: predicted from the best model's own simulation. */
    method EvaluateBestModel() returns (r: Result<(Float, seq<Float>), BuildError>)
      requires Valid() && optimized
      ensures r.Err? <==> CreateWindFarmModel(model, downwind, bestParams).Err?
      ensures r.Ok? ==>
        && r.value.1 == ConditionRmses(sqrt, ModelResiduals(engine, CreateWindFarmModel(model, downwind, bestParams).value, fullWs, cells))
        && r.value.0 == Mean(r.value.1)
    {
      var built := CreateWindFarmModel(model, downwind, bestParams);
      if built.Err? {
        return Err(built.error);
      }
      var rmses := RmseValues(built.value, engine.wsEff(built.value));
      r := Ok((Mean(rmses), rmses));
    }
  }
}
