/**
 * The class-based calibration of data/calibration_prompt/claude_3.7/code_2.py.
 * WakeModelOptimizer holds the condition grid and the observed deficits and runs the search;
 * WakeModelAnalyzer takes the best pair of the finished search and breaks its errors down
 * per condition.  The simulation is the abstract Engine of the Objective module.
 */
module SplitCalibration {
  import opened Wrappers
  import opened Floats
  import opened WakeConfig
  import opened WakeBuilder
  import opened Conditions
  import opened Objective
  import opened Search
  import opened Analysis

  class WakeModelOptimizer {
    const config: Config
    const engine: Engine
    const sqrt: real -> real
    /** Number of region-of-interest cells of every field. */
    const cells: nat
    const fullWs: seq<real>
    const fullTi: seq<real>
    const allObs: seq<Field>

    ghost predicate Valid()
    {
      && IsSqrt(sqrt) && ValidConfig(config)
      && |fullWs| == |fullTi| > 0
      && Shaped(engine, |fullWs|, cells)
      && allObs == Observed(engine, |fullWs|, cells)
    }

    /** __init__: the flattened condition grid, then prepare_observed_values. */
    constructor(config: Config, engine: Engine, sqrt: real -> real, cells: nat, ws: seq<real>, ti: seq<real>)
      requires IsSqrt(sqrt) && ValidConfig(config) && |ws| > 0 && |ti| > 0
      requires Shaped(engine, |ws| * |ti|, cells)
      ensures Valid()
      ensures this.config == config && this.engine == engine && this.sqrt == sqrt && this.cells == cells
      ensures fullWs == RepeatEach(ws, |ti|) && fullTi == Tile(ti, |ws|)
    {
      var w, t := ExpandConditions(ws, ti);
      assert |w| == |ws| * |ti| > 0;
      var obs := ObservedValues(engine, |w|, cells);
      this.config := config;
      this.engine := engine;
      this.sqrt := sqrt;
      this.cells := cells;
      fullWs := w;
      fullTi := t;
      allObs := obs;
    }

    /** evaluate_rmse(**kwargs): build (KeyError on a missing key), collect the flow map of every
        condition, score against all_obs. */
    method EvaluateRmse(params: Params) returns (r: Result<Float, BuildError>)
      requires Valid()
      ensures r == Objective.EvaluateRmse(sqrt, config, engine, fullWs, cells, params)
    {
      var built := BuildWindFarm(config, Some(params));
      if built.Err? {
        return Err(built.error);
      }
      var flowMap := CollectFlowMap(engine.wsEff(built.value));
      r := Ok(Score(TwoStageRmse(sqrt, Residuals(fullWs, allObs, flowMap.value))));
    }

    /** optimize(init_points, n_iter): a fresh optimizer over evaluate_rmse and pbounds whose seeded
        random stream is randomSample, the defaults probed lazily, then maximize.  An exception of
        the objective is returned as err. */
    method Optimize(initPoints: nat, nIter: nat, randomSample: nat -> Params, suggest: seq<Entry> -> Params)
      returns (optimizer: BayesianOptimization, err: Option<BuildError>)
      requires Valid()
      ensures fresh(optimizer)
      ensures optimizer.pbounds == config.pbounds
      ensures forall p :: optimizer.f(p) == Objective.EvaluateRmse(sqrt, config, engine, fullWs, cells, p)
      ensures (optimizer.res, optimizer.queue, err)
           == ProbeAndMaximize(optimizer.f, suggest, randomSample, config.defaults, initPoints, nIter)
    {
      var s, c, e, ws, n := sqrt, config, engine, fullWs, cells;
      var f := p => Objective.EvaluateRmse(s, c, e, ws, n, p);
      optimizer, err := ProbeAndRun(f, config.pbounds, randomSample, suggest, config.defaults, initPoints, nIter);
    }
  }

  class WakeModelAnalyzer {
    const config: Config
    const engine: Engine
    const sqrt: real -> real
    const cells: nat
    /** optimizer.res of the finished search. */
    const trace: seq<Entry>
    const bestParams: Params
    const bestRmse: Float

    ghost predicate Valid()
    {
      && IsSqrt(sqrt) && ValidConfig(config)
      && |trace| > 0 && NoNaN(trace)
      && bestParams == Max(trace).value.params
      && bestRmse == Neg(Max(trace).value.target)
    }

    /** __init__: best_params and best_rmse = -target of optimizer.max. */
    constructor(config: Config, engine: Engine, sqrt: real -> real, cells: nat, trace: seq<Entry>)
      requires IsSqrt(sqrt) && ValidConfig(config) && |trace| > 0 && NoNaN(trace)
      ensures Valid()
      ensures this.config == config && this.engine == engine && this.sqrt == sqrt
      ensures this.cells == cells && this.trace == trace
    {
      this.config := config;
      this.engine := engine;
      this.sqrt := sqrt;
      this.cells := cells;
      this.trace := trace;
      var best := Max(trace).value;
      bestParams := best.params;
      bestRmse := Neg(best.target);
    }

    /** analyze_errors(ws_values, ti_values): rebuild the grid, build the best model (KeyError on a
        missing key), and take the statistics of its differences observed - predicted. */
    method AnalyzeErrors(ws: seq<real>, ti: seq<real>) returns (r: Result<ErrorStats, BuildError>)
      requires Valid() && |ws| > 0 && |ti| > 0 && Shaped(engine, |ws| * |ti|, cells)
      ensures r.Err? <==> BuildWindFarm(config, Some(bestParams)).Err?
      ensures r.Err? ==> r.error == BuildWindFarm(config, Some(bestParams)).error
      ensures r.Ok? ==>
        var d := ModelResiduals(engine, BuildWindFarm(config, Some(bestParams)).value, RepeatEach(ws, |ti|), cells);
        && r.value.rmsePerCase == ConditionRmses(sqrt, d)
        && r.value.meanRmse == Mean(r.value.rmsePerCase)
        && r.value.meanMae == Mean(r.value.maePerCase) && r.value.meanBias == Mean(r.value.biasPerCase)
        && |r.value.maePerCase| == |r.value.biasPerCase| == |d|
        && (forall t :: 0 <= t < |d| ==> r.value.maePerCase[t] == CaseMae(d[t]) && r.value.biasPerCase[t] == CaseBias(d[t]))
        && r.value.pooledAbsErrors == Pooled(d)
    {
      var fullWs, fullTi := ExpandConditions(ws, ti);
      var built := BuildWindFarm(config, Some(bestParams));
      if built.Err? {
        return Err(built.error);
      }
      assert fullWs == RepeatEach(ws, |ti|);
      var d := ModelResiduals(engine, built.value, fullWs, cells);
      var stats := ErrorStatistics(sqrt, d);
      return Ok(stats);
    }
  }

  /** evaluate_rmse scores the models of build_wind_farm_model. */
  lemma EvaluateRmseScoresBuilds(sqrt: real -> real, c: Config, e: Engine, ws: seq<real>, cells: nat,
                                 f: Params -> Result<Float, BuildError>)
    requires IsSqrt(sqrt) && |ws| > 0 && Shaped(e, |ws|, cells)
    requires forall p :: f(p) == Objective.EvaluateRmse(sqrt, c, e, ws, cells, p)
    ensures ScoresBuilds(f, sqrt, e, ws, cells, p => BuildWindFarm(c, Some(p)))
  {
  }
}
