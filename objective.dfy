/**
 * The calibration objective, evaluate_rmse, shared by code_2.py and code_5.py: for each flow
 * condition the root mean square over the region-of-interest cells of observed minus predicted
 * deficit, then the mean over conditions, negated; a NaN aggregate scores exactly -0.5.
 * Both means are xarray means and skip NaN cells.  The simulation engine is abstract.
 */
module Objective {
  import opened Wrappers
  import opened Floats
  import opened WakeConfig
  import opened WakeBuilder

  /** A field over the region-of-interest grid, its x-y cells flattened. */
  type Field = seq<Float>

  /** Thrust coefficient and turbulence intensity of turbine 0 under one condition. */
  datatype OperatingPoint = OperatingPoint(ct: real, ti: real)

  /**
   * The simulation engine at the fixed condition grid and region of interest:
   * wsEff(m)[t] is the WS_eff flow map of model m at hub height for condition t,
   * operating(m)[t] the operating point of turbine 0 for condition t, and
   * deficits(op) the dataset's deficit field interpolated at (op.ct, op.ti) and z = 0.
   */
  datatype Engine = Engine(wsEff: WindFarmSpec -> seq<Field>,
                           operating: WindFarmSpec -> seq<OperatingPoint>,
                           deficits: OperatingPoint -> Field)

  /** The engine gives n conditions of `cells` cells each, for every model. */
  ghost predicate Shaped(e: Engine, n: nat, cells: nat)
  {
    && (forall m :: |e.wsEff(m)| == n && |e.operating(m)| == n)
    && (forall m, t :: 0 <= t < n ==> |e.wsEff(m)[t]| == cells)
    && (forall op :: |e.deficits(op)| == cells)
  }

  /** The predicted deficit (WS - WS_eff) / WS of one condition. */
  function PredictedDeficit(ws: real, wsEff: Field): (r: Field)
    ensures |r| == |wsEff|
    ensures forall i :: 0 <= i < |r| ==> (r[i].NaN? <==> wsEff[i].NaN?) || ws == 0.0
    ensures ws != 0.0 ==> forall i :: 0 <= i < |r| ==> wsEff[i].Fin? ==> r[i] == Fin((ws - wsEff[i].v) / ws)
  {
    seq(|wsEff|, i requires 0 <= i < |wsEff| => Div(Sub(Fin(ws), wsEff[i]), Fin(ws)))
  }

  /** The cell-by-cell difference observed - predicted. */
  function Differences(obs: Field, pred: Field): (r: Field)
    requires |obs| == |pred|
    ensures |r| == |obs|
    ensures forall i :: 0 <= i < |r| ==> (r[i].NaN? <==> obs[i].NaN? || pred[i].NaN? || (obs[i].Inf? && pred[i] == obs[i]))
  {
    seq(|obs|, i requires 0 <= i < |obs| => Sub(obs[i], pred[i]))
  }

  function Squares(d: Field): (r: Field)
    ensures |r| == |d|
    ensures forall i :: 0 <= i < |r| ==> NonNeg(r[i]) && (r[i].NaN? <==> d[i].NaN?)
  {
    seq(|d|, i requires 0 <= i < |d| => Square(d[i]))
  }

  /** np.sqrt of the xarray mean over x and y of the squared differences of one condition. */
  function ConditionRmse(sqrt: real -> real, d: Field): (r: Float)
    requires IsSqrt(sqrt)
    ensures NonNeg(r)
    ensures r.NaN? <==> forall i :: 0 <= i < |d| ==> d[i].NaN?
  {
    NanMeanNonNeg(Squares(d));
    Sqrt(sqrt, NanMean(Squares(d)))
  }

  /** The per-condition root mean squares. */
  function ConditionRmses(sqrt: real -> real, diffs: seq<Field>): (r: seq<Float>)
    requires IsSqrt(sqrt)
    ensures |r| == |diffs|
    ensures forall t :: 0 <= t < |r| ==> r[t] == ConditionRmse(sqrt, diffs[t])
  {
    seq(|diffs|, t requires 0 <= t < |diffs| => ConditionRmse(sqrt, diffs[t]))
  }

  /** All cells of all conditions are NaN (vacuously so with no condition). */
  predicate AllCellsNaN(diffs: seq<Field>)
  {
    forall t, i :: 0 <= t < |diffs| && 0 <= i < |diffs[t]| ==> diffs[t][i].NaN?
  }

  /** The two-stage aggregate: the xarray mean over time of the per-condition RMSEs. */
  function TwoStageRmse(sqrt: real -> real, diffs: seq<Field>): (r: Float)
    requires IsSqrt(sqrt)
    ensures NonNeg(r)
    ensures r.NaN? <==> AllCellsNaN(diffs)
  {
    var rs := ConditionRmses(sqrt, diffs);
    NanMeanNonNeg(rs);
    assert (forall t :: 0 <= t < |rs| ==> rs[t].NaN?) <==> AllCellsNaN(diffs) by {
      forall t | 0 <= t < |rs| ensures rs[t].NaN? <==> forall i :: 0 <= i < |diffs[t]| ==> diffs[t][i].NaN? {
      }
    }
    NanMean(rs)
  }

  /** `if np.isnan(rmse): return -0.5` else `-rmse`. */
  function Score(agg: Float): (r: Float)
    ensures !r.NaN?
    ensures agg.NaN? ==> r == Fin(-0.5)
    ensures !agg.NaN? ==> Neg(r) == agg
    ensures NonNeg(agg) ==> r == Inf(true) || (r.Fin? && r.v <= 0.0)
  {
    if agg.NaN? then Fin(-0.5) else Neg(agg)
  }

  /** The differences observed - predicted of every condition. */
  function Residuals(ws: seq<real>, obs: seq<Field>, wsEff: seq<Field>): (r: seq<Field>)
    requires |obs| == |wsEff| == |ws|
    requires forall t :: 0 <= t < |obs| ==> |obs[t]| == |wsEff[t]|
    ensures |r| == |obs| && forall t :: 0 <= t < |r| ==> |r[t]| == |obs[t]|
  {
    seq(|obs|, t requires 0 <= t < |obs| => Differences(obs[t], PredictedDeficit(ws[t], wsEff[t])))
  }

  /** The score of a set of simulated WS_eff fields against the observed deficits. */
  function ScoreFields(sqrt: real -> real, ws: seq<real>, obs: seq<Field>, wsEff: seq<Field>): (r: Float)
    requires IsSqrt(sqrt)
    requires |obs| == |wsEff| == |ws|
    requires forall t :: 0 <= t < |obs| ==> |obs[t]| == |wsEff[t]|
    ensures r == Inf(true) || (r.Fin? && r.v <= 0.0)
    ensures AllCellsNaN(Residuals(ws, obs, wsEff)) ==> r == Fin(-0.5)
  {
    Score(TwoStageRmse(sqrt, Residuals(ws, obs, wsEff)))
  }

  /** The dataset's deficits interpolated at the operating points of model m, one field per condition. */
  function ObservedAt(e: Engine, m: WindFarmSpec, n: nat, cells: nat): (r: seq<Field>)
    requires Shaped(e, n, cells)
    ensures |r| == n && forall t :: 0 <= t < n ==> r[t] == e.deficits(e.operating(m)[t]) && |r[t]| == cells
  {
    var ops := e.operating(m);
    seq(n, t requires 0 <= t < n => e.deficits(ops[t]))
  }

  /** The observed deficits all_obs: the dataset at the operating points of the baseline model. */
  function Observed(e: Engine, n: nat, cells: nat): seq<Field>
    requires Shaped(e, n, cells)
  {
    ObservedAt(e, Baseline, n, cells)
  }

  /** The score of a built model m against all_obs.  There is at least one condition: the
      constructor's xr.concat of the observations raises on an empty grid. */
  function ScoreModel(sqrt: real -> real, e: Engine, ws: seq<real>, cells: nat, m: WindFarmSpec): (r: Float)
    requires IsSqrt(sqrt) && |ws| > 0 && Shaped(e, |ws|, cells)
    ensures r == Inf(true) || (r.Fin? && r.v <= 0.0)
    ensures AllCellsNaN(Residuals(ws, Observed(e, |ws|, cells), e.wsEff(m))) ==> r == Fin(-0.5)
  {
    ScoreFields(sqrt, ws, Observed(e, |ws|, cells), e.wsEff(m))
  }

  /** evaluate_rmse(**params): build the model (KeyError on a missing key), simulate, score. */
  function EvaluateRmse(sqrt: real -> real, c: Config, e: Engine, ws: seq<real>, cells: nat,
                        params: Params): (r: Result<Float, BuildError>)
    requires IsSqrt(sqrt) && |ws| > 0 && Shaped(e, |ws|, cells)
    ensures r.Err? <==> BuildWindFarm(c, Some(params)).Err?
    ensures r.Err? ==> r.error == BuildWindFarm(c, Some(params)).error
    ensures r.Ok? ==> r.value == ScoreModel(sqrt, e, ws, cells, BuildWindFarm(c, Some(params)).value)
  {
    var m :- BuildWindFarm(c, Some(params));
    Ok(ScoreModel(sqrt, e, ws, cells, m))
  }

  /** prepare_observed_values: one interpolated field per condition, appended in order. */
  method ObservedValues(e: Engine, n: nat, cells: nat) returns (obs: seq<Field>)
    requires Shaped(e, n, cells)
    ensures obs == Observed(e, n, cells)
  {
    var ops := e.operating(Baseline);
    obs := [];
    var t := 0;
    while t < n
      invariant 0 <= t <= n && obs == Observed(e, n, cells)[..t]
    {
      obs := obs + [e.deficits(ops[t])];
      t := t + 1;
    }
  }

  /** The flow-map loop of evaluate_rmse: the map of condition 0, then each further condition
      concatenated along time.  For no conditions the map stays None. */
  method CollectFlowMap(fields: seq<Field>) returns (flowMap: Option<seq<Field>>)
    ensures flowMap.None? <==> |fields| == 0
    ensures flowMap.Some? ==> flowMap.value == fields
  {
    flowMap := None;
    var tt := 0;
    while tt < |fields|
      invariant 0 <= tt <= |fields|
      invariant tt == 0 ==> flowMap == None
      invariant tt > 0 ==> flowMap == Some(fields[..tt])
    {
      if flowMap.None? {
        assert [fields[tt]] == fields[..tt + 1];
        flowMap := Some([fields[tt]]);
      } else {
        assert flowMap.value + [fields[tt]] == fields[..tt + 1];
        flowMap := Some(flowMap.value + [fields[tt]]);
      }
      tt := tt + 1;
    }
    if flowMap.Some? {
      assert fields[..tt] == fields;
    }
  }

  /** The objective on finite differences: minus the arithmetic mean over conditions of the
      square root of the arithmetic mean over cells of the squared differences. */
  function RealRmse(sqrt: real -> real, d: seq<real>): real
    requires |d| > 0
  {
    sqrt(RealMean(seq(|d|, i requires 0 <= i < |d| => d[i] * d[i])))
  }

  function RealTwoStage(sqrt: real -> real, d: seq<seq<real>>): real
    requires |d| > 0 && forall t :: 0 <= t < |d| ==> |d[t]| > 0
  {
    RealMean(seq(|d|, t requires 0 <= t < |d| => RealRmse(sqrt, d[t])))
  }

  predicate FiniteGrid(diffs: seq<Field>)
  {
    |diffs| > 0 && forall t :: 0 <= t < |diffs| ==> |diffs[t]| > 0 && AllFinite(diffs[t])
  }

  function GridValues(diffs: seq<Field>): (r: seq<seq<real>>)
    requires FiniteGrid(diffs)
    ensures |r| == |diffs| && forall t :: 0 <= t < |r| ==> |r[t]| == |diffs[t]| > 0
  {
    seq(|diffs|, t requires 0 <= t < |diffs| => Values(diffs[t]))
  }

  lemma SquaresFinite(d: Field)
    requires AllFinite(d)
    ensures AllFinite(Squares(d))
    ensures Values(Squares(d)) == seq(|d|, i requires 0 <= i < |d| => Values(d)[i] * Values(d)[i])
  {
    var xs, sq := Values(d), Squares(d);
    assert AllFinite(sq);
    var lhs, rhs := Values(sq), seq(|d|, i requires 0 <= i < |d| => xs[i] * xs[i]);
    forall i | 0 <= i < |d| ensures lhs[i] == rhs[i] {
      assert sq[i] == Square(d[i]);
    }
    assert lhs == rhs;
  }

  lemma ConditionRmseFinite(sqrt: real -> real, d: Field)
    requires IsSqrt(sqrt) && |d| > 0 && AllFinite(d)
    ensures ConditionRmse(sqrt, d) == Fin(RealRmse(sqrt, Values(d)))
  {
    var sq := Squares(d);
    SquaresFinite(d);
    NanMeanFinite(sq);
    NanMeanNonNeg(sq);
  }

  lemma ConditionRmsesFinite(sqrt: real -> real, diffs: seq<Field>)
    requires IsSqrt(sqrt) && FiniteGrid(diffs)
    ensures AllFinite(ConditionRmses(sqrt, diffs))
    ensures Values(ConditionRmses(sqrt, diffs))
         == seq(|diffs|, t requires 0 <= t < |diffs| => RealRmse(sqrt, GridValues(diffs)[t]))
  {
    var rs := ConditionRmses(sqrt, diffs);
    var g := GridValues(diffs);
    forall t | 0 <= t < |rs| ensures rs[t] == Fin(RealRmse(sqrt, g[t])) {
      ConditionRmseFinite(sqrt, diffs[t]);
    }
  }

  /** With no NaN and no infinity anywhere, the objective is exactly the real-valued two-stage
      RMSE, negated. */
  lemma ScoreOnFiniteResiduals(sqrt: real -> real, diffs: seq<Field>)
    requires IsSqrt(sqrt) && FiniteGrid(diffs)
    ensures Score(TwoStageRmse(sqrt, diffs)) == Fin(-RealTwoStage(sqrt, GridValues(diffs)))
  {
    ConditionRmsesFinite(sqrt, diffs);
    NanMeanFinite(ConditionRmses(sqrt, diffs));
  }

  lemma ConditionRmseInfinite(sqrt: real -> real, d: Field, i: int)
    requires IsSqrt(sqrt)
    requires forall j :: 0 <= j < |d| ==> !d[j].NaN?
    requires 0 <= i < |d| && d[i].Inf?
    ensures ConditionRmse(sqrt, d) == Inf(false)
  {
    NanMeanInfinite(Squares(d), i);
  }

  /** Infinities are not caught: an infinite difference in a grid with no NaN scores -inf. */
  lemma InfiniteResidualScoresMinusInfinity(sqrt: real -> real, diffs: seq<Field>, t: int, i: int)
    requires IsSqrt(sqrt)
    requires forall u :: 0 <= u < |diffs| ==> |diffs[u]| > 0
    requires forall u, j :: 0 <= u < |diffs| && 0 <= j < |diffs[u]| ==> !diffs[u][j].NaN?
    requires 0 <= t < |diffs| && 0 <= i < |diffs[t]| && diffs[t][i].Inf?
    ensures Score(TwoStageRmse(sqrt, diffs)) == Inf(true)
  {
    var rs := ConditionRmses(sqrt, diffs);
    forall u | 0 <= u < |rs| ensures NonNeg(rs[u]) && !rs[u].NaN? {
      assert !diffs[u][0].NaN?;
    }
    ConditionRmseInfinite(sqrt, diffs[t], i);
    NanMeanInfinite(rs, t);
  }
}
