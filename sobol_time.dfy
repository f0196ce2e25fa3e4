/**
 * The time-dependent Sobol analysis of data/propagation_prompt/claude_3.7/code_1.py: the
 * parameter table, the per-time-step bounds around the nominal conditions, the preallocated
 * array of flow fields filled one sample at a time, the per-cell index arrays, the list of
 * time results and the averages and dominant parameters of the report.  PyWake's flow map,
 * saltelli.sample and sobol.analyze are function parameters.
 */
module SobolTime {
  import opened Floats
  import opened Sensitivity

  function ParameterNames(): seq<string>
  {
    ["wind_speed", "wind_direction", "turbulence_intensity", "shear_exponent"]
  }

  /** setup_problem: four named parameters, each with a non-empty interval. */
  function SetupProblem(): (p: Problem)
    ensures WellFormedProblem(p) && p.numVars == 4 && p.names == ParameterNames()
  {
    Problem(4, ParameterNames(), [(6.0, 10.0), (250.0, 290.0), (0.05, 0.15), (0.05, 0.25)])
  }

  /** The nominal conditions of one time step. */
  datatype Nominal = Nominal(ws: real, wd: real, ti: real, shear: real)

  function RealMax(a: real, b: real): real { if a >= b then a else b }
  function RealMin(a: real, b: real): real { if a <= b then a else b }

  /** The problem of one time step: wind speed within 2 m/s and direction within 20 degrees of
      nominal, turbulence intensity within 0.05 of nominal clamped to [0.01, 0.3], shear within
      0.1 of nominal clamped to [0.01, 0.4]. */
  function TimeStepProblem(nom: Nominal): (p: Problem)
    ensures p.numVars == 4 && p.names == ParameterNames() && |p.bounds| == 4
    ensures p.bounds[0].1 - p.bounds[0].0 == 4.0 && p.bounds[0].0 + p.bounds[0].1 == 2.0 * nom.ws
    ensures p.bounds[1].1 - p.bounds[1].0 == 40.0 && p.bounds[1].0 + p.bounds[1].1 == 2.0 * nom.wd
    ensures 0.01 <= p.bounds[2].0 && p.bounds[2].1 <= 0.3 && p.bounds[2].1 - p.bounds[2].0 <= 0.1
    ensures 0.01 <= nom.ti <= 0.3 ==> p.bounds[2].0 <= nom.ti <= p.bounds[2].1
    ensures 0.01 <= p.bounds[3].0 && p.bounds[3].1 <= 0.4 && p.bounds[3].1 - p.bounds[3].0 <= 0.2
    ensures 0.01 <= nom.shear <= 0.4 ==> p.bounds[3].0 <= nom.shear <= p.bounds[3].1
  {
    Problem(4, ParameterNames(),
            [(nom.ws - 2.0, nom.ws + 2.0),
             (nom.wd - 20.0, nom.wd + 20.0),
             (RealMax(0.01, nom.ti - 0.05), RealMin(0.3, nom.ti + 0.05)),
             (RealMax(0.01, nom.shear - 0.1), RealMin(0.4, nom.shear + 0.1))])
  }

  /** The clamping leaves a non-empty interval exactly when the nominal value is not too far
      outside the clamp. */
  lemma TimeStepProblemWellFormed(nom: Nominal)
    ensures WellFormedProblem(TimeStepProblem(nom)) <==>
              -0.04 < nom.ti < 0.35 && -0.09 < nom.shear < 0.5
  {
    var p := TimeStepProblem(nom);
    assert p.bounds[2] == (RealMax(0.01, nom.ti - 0.05), RealMin(0.3, nom.ti + 0.05));
    assert p.bounds[3] == (RealMax(0.01, nom.shear - 0.1), RealMin(0.4, nom.shear + 0.1));
    if -0.04 < nom.ti < 0.35 && -0.09 < nom.shear < 0.5 {
      forall i | 0 <= i < 4
        ensures p.bounds[i].0 < p.bounds[i].1
      {
      }
    }
  }

  /** The daily curves of time_dependent_analysis at time t (hours), with np.sin and np.pi as
      parameters. */
  function DailyNominal(sin: real -> real, pi: real, t: real): Nominal
  {
    Nominal(8.0 + 2.0 * sin(pi * t / 12.0), 90.0 + 15.0 * t,
            0.08 + 0.03 * sin(pi * t / 12.0), 0.14 + 0.05 * sin(pi * t / 8.0))
  }

  /** With a sine bounded by one, every time step gets a well-formed problem whose turbulence
      and shear intervals hold the nominal values. */
  lemma DailyProblemsWellFormed(sin: real -> real, pi: real, t: real)
    requires forall x: real :: -1.0 <= sin(x) <= 1.0
    ensures WellFormedProblem(TimeStepProblem(DailyNominal(sin, pi, t)))
    ensures var nom := DailyNominal(sin, pi, t);
            var p := TimeStepProblem(nom);
            p.bounds[2].0 <= nom.ti <= p.bounds[2].1 && p.bounds[3].0 <= nom.shear <= p.bounds[3].1
  {
    var nom := DailyNominal(sin, pi, t);
    assert -1.0 <= sin(pi * t / 12.0) <= 1.0 && -1.0 <= sin(pi * t / 8.0) <= 1.0;
    assert 0.05 <= nom.ti <= 0.11 && 0.09 <= nom.shear <= 0.19;
    TimeStepProblemWellFormed(nom);
  }

  /** One row of param_values: ws, wd, ti, shear. */
  datatype Sample = Sample(ws: real, wd: real, ti: real, shear: real)

  function Zeros(ny: nat, nx: nat): (g: Grid)
    ensures Rectangular(g, ny, nx)
  {
    seq(ny, i => seq(nx, j => Fin(0.0)))
  }

  /** The flow field of every sample, in sample order. */
  function Outputs(simulate: Sample -> Grid, paramValues: seq<Sample>): (r: seq<Grid>)
    ensures |r| == |paramValues| && forall k :: 0 <= k < |r| ==> r[k] == simulate(paramValues[k])
  {
    seq(|paramValues|, k requires 0 <= k < |paramValues| => simulate(paramValues[k]))
  }

  /** run_model_samples: the grid shape comes from the first run; ws_eff_all is preallocated with
      zeros, row 0 is stored before the loop and row i + 1 inside it. */
  method RunModelSamples(simulate: Sample -> Grid, paramValues: seq<Sample>, ny: nat, nx: nat)
    returns (wsEffAll: array<Grid>)
    requires |paramValues| > 0
    requires forall k :: 0 <= k < |paramValues| ==> Rectangular(simulate(paramValues[k]), ny, nx)
    ensures fresh(wsEffAll)
    ensures wsEffAll[..] == Outputs(simulate, paramValues)
  {
    var n := |paramValues|;
    wsEffAll := new Grid[n](_ => Zeros(ny, nx));
    wsEffAll[0] := simulate(paramValues[0]);
    var i := 0;
    while i < n - 1
      invariant 0 <= i <= n - 1
      invariant forall k :: 0 <= k <= i ==> wsEffAll[k] == simulate(paramValues[k])
      invariant forall k :: i < k < n ==> wsEffAll[k] == Zeros(ny, nx)
    {
      wsEffAll[i + 1] := simulate(paramValues[i + 1]);
      i := i + 1;
    }
  }

  /** The index maps of calculate_sobol_indices: S1 (first) or ST, indexed [parameter][y][x]. */
  function IndexMap(problem: Problem, analyze: (Problem, seq<Float>) -> SobolIndices,
                    outputs: seq<Grid>, ny: nat, nx: nat, first: bool): (s: seq<Grid>)
    requires AnalyzesProblem(analyze, problem) && AllRectangular(outputs, ny, nx)
    ensures IndexMapShape(s, problem.numVars, ny, nx)
    ensures forall p, i, j :: 0 <= p < problem.numVars && 0 <= i < ny && 0 <= j < nx ==>
              var si := analyze(problem, Column(outputs, ny, nx, i, j));
              s[p][i][j] == if first then si.s1[p] else si.st[p]
  {
    seq(problem.numVars, p requires 0 <= p < problem.numVars =>
      seq(ny, i requires 0 <= i < ny =>
        seq(nx, j requires 0 <= j < nx =>
          var si := analyze(problem, Column(outputs, ny, nx, i, j));
          if first then si.s1[p] else si.st[p])))
  }

  /** calculate_sobol_indices: for every cell, analyse its column and store S1[:, i, j] and
      ST[:, i, j]; every cell of both arrays is written from its own column. */
  method CalculateSobolIndices(problem: Problem, analyze: (Problem, seq<Float>) -> SobolIndices,
                               wsEffAll: array<Grid>, ny: nat, nx: nat)
    returns (s1: array3<Float>, st: array3<Float>)
    requires AnalyzesProblem(analyze, problem)
    requires AllRectangular(wsEffAll[..], ny, nx)
    ensures fresh(s1) && fresh(st)
    ensures Contents(s1) == IndexMap(problem, analyze, wsEffAll[..], ny, nx, true)
    ensures Contents(st) == IndexMap(problem, analyze, wsEffAll[..], ny, nx, false)
  {
    var outputs := wsEffAll[..];
    var nv := problem.numVars;
    s1 := new Float[nv, ny, nx]((p, i, j) => Fin(0.0));
    st := new Float[nv, ny, nx]((p, i, j) => Fin(0.0));
    var i := 0;
    while i < ny
      invariant 0 <= i <= ny
      invariant RowsFilled(s1, st, problem, analyze, outputs, ny, nx, i)
    {
      FillRow(s1, st, problem, analyze, outputs, ny, nx, i);
      i := i + 1;
    }
    SameMaps(Contents(s1), IndexMap(problem, analyze, outputs, ny, nx, true), nv, ny, nx);
    SameMaps(Contents(st), IndexMap(problem, analyze, outputs, ny, nx, false), nv, ny, nx);
  }

  /** The state of the double loop before row i: rows above i hold the indices sobol.analyze gives
      for their cells' columns. */
  ghost predicate RowsFilled(s1: array3<Float>, st: array3<Float>, problem: Problem,
                             analyze: (Problem, seq<Float>) -> SobolIndices, outputs: seq<Grid>, ny: nat, nx: nat, i: nat)
    reads s1, st
  {
    && AnalyzesProblem(analyze, problem) && AllRectangular(outputs, ny, nx) && i <= ny
    && s1 != st && s1.Length0 == st.Length0 == problem.numVars
    && s1.Length1 == st.Length1 == ny && s1.Length2 == st.Length2 == nx
    && (forall p, a, b :: 0 <= p < problem.numVars && 0 <= a < i && 0 <= b < nx ==>
          s1[p, a, b] == analyze(problem, Column(outputs, ny, nx, a, b)).s1[p])
    && (forall p, a, b :: 0 <= p < problem.numVars && 0 <= a < i && 0 <= b < nx ==>
          st[p, a, b] == analyze(problem, Column(outputs, ny, nx, a, b)).st[p])
  }

  /** The inner loop over x for row i. */
  method FillRow(s1: array3<Float>, st: array3<Float>, problem: Problem,
                 analyze: (Problem, seq<Float>) -> SobolIndices, outputs: seq<Grid>, ny: nat, nx: nat, i: nat)
    requires i < ny && RowsFilled(s1, st, problem, analyze, outputs, ny, nx, i)
    modifies s1, st
    ensures RowsFilled(s1, st, problem, analyze, outputs, ny, nx, i + 1)
  {
    var nv := problem.numVars;
    var j := 0;
    while j < nx
      invariant 0 <= j <= nx
      invariant RowsFilled(s1, st, problem, analyze, outputs, ny, nx, i)
      invariant forall p, b :: 0 <= p < nv && 0 <= b < j ==>
                  s1[p, i, b] == analyze(problem, Column(outputs, ny, nx, i, b)).s1[p]
      invariant forall p, b :: 0 <= p < nv && 0 <= b < j ==>
                  st[p, i, b] == analyze(problem, Column(outputs, ny, nx, i, b)).st[p]
    {
      var si := analyze(problem, Column(outputs, ny, nx, i, j));
      StoreCell(s1, st, si, i, j);
      j := j + 1;
    }
  }

  /** S1[:, i, j] = Si['S1'] and ST[:, i, j] = Si['ST'], leaving every other cell alone. */
  method StoreCell(s1: array3<Float>, st: array3<Float>, si: SobolIndices, i: nat, j: nat)
    requires s1 != st && s1.Length0 == st.Length0 == |si.s1| == |si.st|
    requires s1.Length1 == st.Length1 && s1.Length2 == st.Length2
    requires i < s1.Length1 && j < s1.Length2
    modifies s1, st
    ensures forall p :: 0 <= p < s1.Length0 ==> s1[p, i, j] == si.s1[p] && st[p, i, j] == si.st[p]
    ensures forall p, a, b :: 0 <= p < s1.Length0 && 0 <= a < s1.Length1 && 0 <= b < s1.Length2 && (a != i || b != j) ==>
              s1[p, a, b] == old(s1[p, a, b]) && st[p, a, b] == old(st[p, a, b])
  {
    var p := 0;
    while p < s1.Length0
      invariant 0 <= p <= s1.Length0
      invariant forall q :: 0 <= q < p ==> s1[q, i, j] == si.s1[q] && st[q, i, j] == si.st[q]
      invariant forall q, a, b :: 0 <= q < s1.Length0 && 0 <= a < s1.Length1 && 0 <= b < s1.Length2 && (a != i || b != j) ==>
                  s1[q, a, b] == old(s1[q, a, b]) && st[q, a, b] == old(st[q, a, b])
    {
      s1[p, i, j] := si.s1[p];
      st[p, i, j] := si.st[p];
      p := p + 1;
    }
  }

  /** One entry of time_results. */
  datatype TimeResult = TimeResult(time: real, nominal: Nominal, s1: seq<Grid>, st: seq<Grid>)

  /** What the analysis of one time step stores: its time, its nominal conditions and the index
      maps of the samples drawn for its problem. */
  function TimeStepResult(time: real, nom: Nominal, generate: Problem -> seq<Sample>,
                          simulate: Sample -> Grid, analyze: (Problem, seq<Float>) -> SobolIndices,
                          ny: nat, nx: nat): TimeResult
    requires forall s :: Rectangular(simulate(s), ny, nx)
    requires AnalyzesProblem(analyze, TimeStepProblem(nom))
  {
    var problem := TimeStepProblem(nom);
    var outputs := Outputs(simulate, generate(problem));
    assert forall k :: 0 <= k < |outputs| ==> Rectangular(outputs[k], ny, nx);
    TimeResult(time, nom, IndexMap(problem, analyze, outputs, ny, nx, true),
               IndexMap(problem, analyze, outputs, ny, nx, false))
  }

  /** time_dependent_analysis: one entry per time step, in order. */
  method TimeDependentAnalysis(timePoints: seq<real>, nominal: seq<Nominal>,
                               generate: Problem -> seq<Sample>, simulate: Sample -> Grid,
                               analyze: (Problem, seq<Float>) -> SobolIndices, ny: nat, nx: nat)
    returns (timeResults: seq<TimeResult>)
    requires |nominal| == |timePoints|
    requires forall t :: 0 <= t < |nominal| ==> |generate(TimeStepProblem(nominal[t]))| > 0
    requires forall s :: Rectangular(simulate(s), ny, nx)
    requires forall t :: 0 <= t < |nominal| ==> AnalyzesProblem(analyze, TimeStepProblem(nominal[t]))
    ensures |timeResults| == |timePoints|
    ensures forall t :: 0 <= t < |timePoints| ==>
              timeResults[t] == TimeStepResult(timePoints[t], nominal[t], generate, simulate, analyze, ny, nx)
  {
    timeResults := [];
    var t := 0;
    while t < |timePoints|
      invariant 0 <= t <= |timePoints| && |timeResults| == t
      invariant forall u :: 0 <= u < t ==>
                  timeResults[u] == TimeStepResult(timePoints[u], nominal[u], generate, simulate, analyze, ny, nx)
    {
      var problem := TimeStepProblem(nominal[t]);
      var paramValues := generate(problem);
      var wsEffAll := RunModelSamples(simulate, paramValues, ny, nx);
      var s1, st := CalculateSobolIndices(problem, analyze, wsEffAll, ny, nx);
      timeResults := timeResults + [TimeResult(timePoints[t], nominal[t], Contents(s1), Contents(st))];
      t := t + 1;
    }
  }

  /** One row of avg_sensitivities: the time, avg_S1 and the nominal conditions. */
  datatype SensitivityRow = SensitivityRow(time: real, avgS1: seq<Float>, nominal: Nominal)

  /** The averaging loop of generate_report: one row per time result, in order, each holding the
      spatial mean of every parameter's S1 map. */
  method AverageSensitivities(timeResults: seq<TimeResult>) returns (rows: seq<SensitivityRow>)
    ensures |rows| == |timeResults|
    ensures forall t :: 0 <= t < |rows| ==>
              && rows[t].time == timeResults[t].time && rows[t].nominal == timeResults[t].nominal
              && |rows[t].avgS1| == |timeResults[t].s1|
              && forall p :: 0 <= p < |rows[t].avgS1| ==> rows[t].avgS1[p] == Mean(Ravel(timeResults[t].s1[p]))
  {
    rows := [];
    var t := 0;
    while t < |timeResults|
      invariant 0 <= t <= |timeResults| && |rows| == t
      invariant forall u :: 0 <= u < t ==>
                  rows[u] == SensitivityRow(timeResults[u].time, AverageS1(timeResults[u].s1), timeResults[u].nominal)
    {
      var res := timeResults[t];
      rows := rows + [SensitivityRow(res.time, AverageS1(res.s1), res.nominal)];
      t := t + 1;
    }
  }

  /** The names the report prints for the four parameters. */
  function ReportNames(): seq<string>
  {
    ["Wind Speed", "Wind Direction", "Turbulence Intensity", "Shear Exponent"]
  }

  /** The dominant parameter of a time step in the report: the first largest average, always one
      of the four names. */
  function DominantParameter(avgS1: seq<Float>): (name: string)
    requires |avgS1| == 4
    ensures name in ReportNames()
    ensures (forall p :: 0 <= p < 4 ==> !avgS1[p].NaN?) ==>
              exists k :: 0 <= k < 4 && name == ReportNames()[k] && forall p :: 0 <= p < 4 ==> Le(avgS1[p], avgS1[k])
  {
    ReportNames()[ArgMax(avgS1)]
  }

  /** The average of a parameter's map lies within the range of its cells. */
  lemma AverageWithinRange(s1: seq<Grid>, p: nat, ny: nat, nx: nat, lo: real, hi: real)
    requires p < |s1| && Rectangular(s1[p], ny, nx) && ny > 0 && nx > 0
    requires forall i, j :: 0 <= i < ny && 0 <= j < nx ==> s1[p][i][j].Fin? && lo <= s1[p][i][j].v <= hi
    ensures AverageS1(s1)[p].Fin? && lo <= AverageS1(s1)[p].v <= hi
  {
    var cells := Ravel(s1[p]);
    RavelCells(s1[p], ny, nx);
    forall k | 0 <= k < |cells|
      ensures cells[k].Fin? && lo <= cells[k].v <= hi
    {
      assert cells[k] in cells;
    }
    MeanOfFinite(cells, lo, hi);
  }
}
