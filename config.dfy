/**
 * WakeModelConfig of data/calibration_prompt/claude_3.7/code_2.py: the closed space of
 * (model family, direction) configurations, each with its x-window in rotor diameters
 * and its literal parameter defaults and search bounds.
 */
module WakeConfig {
  import opened Wrappers

  /** A parameter vector: name -> value (a Python dict of floats). */
  type Params = map<string, real>

  /** Search bounds: name -> (lower, upper). */
  type Bounds = map<string, (real, real)>

  /** A configuration as __init__ leaves it: MODEL, DOWNWIND, X_LB, X_UB, defaults, pbounds. */
  datatype Config = Config(model: int, downwind: bool, xLb: int, xUb: int,
                           defaults: Params, pbounds: Bounds)

  /** The ValueError raised for a model type other than 1 or 2. */
  datatype ConfigError = InvalidModel(model: int)

  /** Region of interest in metres: x in [xMin, xMax], y in [yMin, yMax]. */
  datatype Roi = Roi(xMin: real, xMax: real, yMin: real, yMax: real)

  /** Defaults by family and direction (family 2 ignores the direction). */
  function DefaultsFor(model: int, downwind: bool): Params
  {
    if model == 1 then
      if downwind then
        map["a_s" := 0.17, "b_s" := 0.005, "c_s" := 0.2, "b_f" := -0.68, "c_f" := 2.41,
            "ch1" := 0.73, "ch2" := 0.8325, "ch3" := -0.0325, "ch4" := -0.32]
      else
        map["ss_alpha" := 0.8888888888888888, "ss_beta" := 1.4142135623730951,
            "rp1" := -0.672, "rp2" := 0.4897,
            "ng1" := -1.381, "ng2" := 2.627, "ng3" := -1.524, "ng4" := 1.336,
            "fg1" := -0.06489, "fg2" := 0.4911, "fg3" := 1.116, "fg4" := -0.1577]
    else
      map["A" := 0.04, "cti1" := 1.5, "cti2" := 0.8, "ceps" := 0.25, "ctlim" := 0.999,
          "ch1" := 0.73, "ch2" := 0.8325, "ch3" := -0.0325, "ch4" := -0.3]
  }

  /** Search bounds by family and direction (family 2 ignores the direction). */
  function BoundsFor(model: int, downwind: bool): Bounds
  {
    if model == 1 then
      if downwind then
        map["a_s" := (0.001, 0.5), "b_s" := (0.001, 0.01), "c_s" := (0.001, 0.5),
            "b_f" := (-2.0, 1.0), "c_f" := (0.1, 5.0),
            "ch1" := (-1.0, 2.0), "ch2" := (-1.0, 2.0), "ch3" := (-1.0, 2.0), "ch4" := (-1.0, 2.0)]
      else
        map["ss_alpha" := (0.05, 3.0), "ss_beta" := (0.05, 3.0),
            "rp1" := (-2.0, 2.0), "rp2" := (-2.0, 2.0),
            "ng1" := (-3.0, 3.0), "ng2" := (-3.0, 3.0), "ng3" := (-3.0, 3.0), "ng4" := (-3.0, 3.0),
            "fg1" := (-2.0, 2.0), "fg2" := (-2.0, 2.0), "fg3" := (-2.0, 2.0), "fg4" := (-2.0, 2.0)]
    else
      map["A" := (0.001, 0.5), "cti1" := (0.01, 5.0), "cti2" := (0.01, 5.0),
          "ceps" := (0.01, 3.0), "ctlim" := (0.01, 1.0),
          "ch1" := (-1.0, 2.0), "ch2" := (-1.0, 2.0), "ch3" := (-1.0, 2.0), "ch4" := (-1.0, 2.0)]
  }

  /** Every default has bounds and every bound a default; every default lies in a non-empty interval. */
  predicate WellFormedTable(defaults: Params, pbounds: Bounds)
  {
    && defaults.Keys == pbounds.Keys
    && (forall k :: k in pbounds ==> pbounds[k].0 < pbounds[k].1)
    && (forall k :: k in defaults ==> pbounds[k].0 <= defaults[k] <= pbounds[k].1)
  }

  /** WakeModelConfig(model_type, downwind). */
  function NewConfig(modelType: int, downwind: bool): (r: Result<Config, ConfigError>)
    ensures r.Err? <==> modelType != 1 && modelType != 2
    ensures r.Err? ==> r.error == InvalidModel(modelType)
    ensures r.Ok? ==> r.value.model == modelType && r.value.downwind == downwind
    ensures r.Ok? ==> (r.value.xLb, r.value.xUb) == (if downwind then (2, 10) else (-2, -1))
    ensures r.Ok? ==> r.value.xLb < r.value.xUb
    ensures r.Ok? ==> WellFormedTable(r.value.defaults, r.value.pbounds)
  {
    if modelType != 1 && modelType != 2 then Err(InvalidModel(modelType))
    else
      var (lb, ub) := if downwind then (2, 10) else (-2, -1);
      TablesWellFormed(modelType, downwind);
      Ok(Config(modelType, downwind, lb, ub, DefaultsFor(modelType, downwind), BoundsFor(modelType, downwind)))
  }

  /** A configuration that NewConfig can produce. */
  predicate ValidConfig(c: Config)
  {
    NewConfig(c.model, c.downwind) == Ok(c)
  }

  lemma TablesWellFormed(model: int, downwind: bool)
    requires model == 1 || model == 2
    ensures WellFormedTable(DefaultsFor(model, downwind), BoundsFor(model, downwind))
  {
    if model == 1 && downwind {
      Family1DownwindTable();
    } else if model == 1 {
      Family1UpwindTable();
    } else {
      Family2Table(downwind);
    }
  }

  lemma Family1DownwindTable()
    ensures WellFormedTable(DefaultsFor(1, true), BoundsFor(1, true))
  {
  }

  lemma Family1UpwindTable()
    ensures WellFormedTable(DefaultsFor(1, false), BoundsFor(1, false))
  {
    var d, b := DefaultsFor(1, false), BoundsFor(1, false);
    var keys := {"ss_alpha", "ss_beta", "rp1", "rp2", "ng1", "ng2", "ng3", "ng4", "fg1", "fg2", "fg3", "fg4"};
    assert d.Keys == keys && b.Keys == keys;
    forall k | k in b
      ensures b[k].0 < b[k].1 && b[k].0 <= d[k] <= b[k].1
    {
    }
  }

  lemma Family2Table(downwind: bool)
    ensures WellFormedTable(DefaultsFor(2, downwind), BoundsFor(2, downwind))
  {
  }

  /** Family 2 has one table for both directions. */
  lemma Family2IgnoresDirection()
    ensures DefaultsFor(2, true) == DefaultsFor(2, false)
    ensures BoundsFor(2, true) == BoundsFor(2, false)
  {
  }

  /** The region of interest of main(): x from X_LB*D to X_UB*D, y from -2D to 2D. */
  function RegionOfInterest(c: Config, d: real): (r: Roi)
    requires ValidConfig(c) && d > 0.0
    ensures r.xMin < r.xMax && r.yMin < r.yMax
    ensures r.yMin == -r.yMax && r.yMax == 2.0 * d
    ensures c.downwind ==> 0.0 < r.xMin && r.xMax == 5.0 * r.xMin
    ensures !c.downwind ==> r.xMax < 0.0 && r.xMin == 2.0 * r.xMax
    ensures c.downwind ==> r.xMin == 2.0 * d && r.xMax == 10.0 * d
    ensures !c.downwind ==> r.xMin == -2.0 * d && r.xMax == -d
  {
    Roi(c.xLb as real * d, c.xUb as real * d, -2.0 * d, 2.0 * d)
  }

  /** With a 100 m rotor: (200, 1000) downwind, (-200, -100) upwind, y in [-200, 200]. */
  lemma RoiForHundredMetreRotor(model: int)
    requires model == 1 || model == 2
    ensures RegionOfInterest(NewConfig(model, true).value, 100.0) == Roi(200.0, 1000.0, -200.0, 200.0)
    ensures RegionOfInterest(NewConfig(model, false).value, 100.0) == Roi(-200.0, -100.0, -200.0, 200.0)
  {
  }
}
