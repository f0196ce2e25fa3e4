/**
 * The single-run Sobol map of data/propagation_prompt/claude_3.7/code_5.py: the parameter
 * table, the extents of the flow-map grid, the loop that runs one simulation per sample, the
 * per-cell first-order indices written through a flat cell index, the dominant parameter of
 * every cell, the most sensitive parameter and the coverage of the domain by each dominant
 * parameter.  PyWake's flow map and sobol.analyze are function parameters.
 */
module SobolMap {
  import opened Wrappers
  import opened Floats
  import opened Sensitivity
  import opened Conditions

  function MapParameterNames(): seq<string>
  {
    ["wind_speed", "wind_direction", "turbulence_intensity", "wake_decay"]
  }

  /** The problem table: four named parameters, each with a non-empty interval. */
  function MapProblem(): (p: Problem)
    ensures WellFormedProblem(p) && p.numVars == 4 && p.names == MapParameterNames()
  {
    Problem(4, MapParameterNames(), [(6.0, 12.0), (260.0, 280.0), (0.05, 0.15), (0.025, 0.04)])
  }

  function SeqMin(xs: seq<real>): (m: real)
    requires |xs| > 0
    ensures m in xs && forall i :: 0 <= i < |xs| ==> m <= xs[i]
  {
    if |xs| == 1 then xs[0]
    else
      var m := SeqMin(xs[..|xs| - 1]);
      assert forall i :: 0 <= i < |xs| - 1 ==> xs[..|xs| - 1][i] == xs[i];
      if xs[|xs| - 1] < m then xs[|xs| - 1] else m
  }

  function SeqMax(xs: seq<real>): (m: real)
    requires |xs| > 0
    ensures m in xs && forall i :: 0 <= i < |xs| ==> xs[i] <= m
  {
    if |xs| == 1 then xs[0]
    else
      var m := SeqMax(xs[..|xs| - 1]);
      assert forall i :: 0 <= i < |xs| - 1 ==> xs[..|xs| - 1][i] == xs[i];
      if xs[|xs| - 1] > m then xs[|xs| - 1] else m
  }

  /** The grid extent along one axis with extend_factor 0.5: the turbines' span widened by half
      of it on each side, so every turbine lies inside and the extent is twice the span around
      the same centre. */
  function GridExtent(xs: seq<real>): (e: (real, real))
    requires |xs| > 0
    ensures e.0 <= SeqMin(xs) && SeqMax(xs) <= e.1
    ensures forall i :: 0 <= i < |xs| ==> e.0 <= xs[i] <= e.1
    ensures e.1 - e.0 == 2.0 * (SeqMax(xs) - SeqMin(xs)) && e.0 + e.1 == SeqMin(xs) + SeqMax(xs)
  {
    var lo, hi := SeqMin(xs), SeqMax(xs);
    (lo - 0.5 * (hi - lo), hi + 0.5 * (hi - lo))
  }

  /** One row of param_values: ws, wd, ti and the wake decay constant k. */
  datatype MapSample = MapSample(ws: real, wd: real, ti: real, k: real)

  /** Whether the loop saves an intermediate flow-map picture after sample i of n. */
  predicate IsSnapshot(i: nat, n: nat)
  {
    i % 10 == 0 || i == n - 1
  }

  /** The simulation loop: one WS_eff field appended per sample, in sample order, and a picture
      saved after every tenth sample and after the last. */
  method RunSamples(simulate: MapSample -> Grid, paramValues: seq<MapSample>)
    returns (wsEffResults: seq<Grid>, snapshots: seq<nat>)
    ensures |wsEffResults| == |paramValues|
    ensures forall i :: 0 <= i < |paramValues| ==> wsEffResults[i] == simulate(paramValues[i])
    ensures forall a, b :: 0 <= a < b < |snapshots| ==> snapshots[a] < snapshots[b]
    ensures forall i: nat :: i in snapshots <==> i < |paramValues| && IsSnapshot(i, |paramValues|)
  {
    var n := |paramValues|;
    wsEffResults, snapshots := [], [];
    var i := 0;
    while i < n
      invariant 0 <= i <= n && |wsEffResults| == i
      invariant forall k :: 0 <= k < i ==> wsEffResults[k] == simulate(paramValues[k])
      invariant forall a, b :: 0 <= a < b < |snapshots| ==> snapshots[a] < snapshots[b]
      invariant forall k :: 0 <= k < |snapshots| ==> snapshots[k] < i
      invariant forall k: nat :: k in snapshots <==> k < i && IsSnapshot(k, n)
    {
      wsEffResults := wsEffResults + [simulate(paramValues[i])];
      if IsSnapshot(i, n) {
        snapshots := snapshots + [i];
      }
      i := i + 1;
    }
  }

  /** The flat index of cell (r, c) in a C-order reshape with ncols columns. */
  function Flat(r: nat, c: nat, ncols: nat): nat
  {
    r * ncols + c
  }

  /** np.unravel_index(j, (nrows, ncols)) inverts the flat index: both directions. */
  lemma UnravelFlat(r: nat, c: nat, nrows: nat, ncols: nat)
    requires r < nrows && c < ncols
    ensures Flat(r, c, ncols) < nrows * ncols
    ensures Flat(r, c, ncols) / ncols == r && Flat(r, c, ncols) % ncols == c
  {
    DivInBlock(Flat(r, c, ncols), ncols, r);
    MulLe(r, nrows - 1, ncols);
  }

  lemma FlatUnravel(j: nat, nrows: nat, ncols: nat)
    requires j < nrows * ncols
    ensures ncols > 0 && j / ncols < nrows && j % ncols < ncols
    ensures Flat(j / ncols, j % ncols, ncols) == j
  {
    DivBelow(j, ncols, nrows);
  }

  /** Row-major order of a rectangular grid: the cell at flat index Flat(r, c) of the raveled grid
      is cell (r, c), which is what reshape(n, -1) relies on. */
  lemma {:induction false} RavelAt(g: Grid, nrows: nat, ncols: nat, r: nat, c: nat)
    requires Rectangular(g, nrows, ncols) && r < nrows && c < ncols
    ensures |Ravel(g)| == nrows * ncols
    ensures Flat(r, c, ncols) < |Ravel(g)| && Ravel(g)[Flat(r, c, ncols)] == g[r][c]
  {
    var init := g[..nrows - 1];
    assert Rectangular(init, nrows - 1, ncols);
    RavelCells(init, nrows - 1, ncols);
    MulLe(nrows - 1, nrows - 1, ncols);
    assert Ravel(g) == Ravel(init) + g[nrows - 1];
    UnravelFlat(r, c, nrows, ncols);
    if r < nrows - 1 {
      RavelAt(init, nrows - 1, ncols, r, c);
      assert g[r] == init[r];
    } else {
      assert Flat(r, c, ncols) == (nrows - 1) * ncols + c;
    }
  }

  /** Y_flat[:, j]: the outputs of every sample at flat index j, through reshape(n, -1). */
  function FlatColumn(outputs: seq<Grid>, j: nat): (y: seq<Float>)
    requires forall s :: 0 <= s < |outputs| ==> j < |Ravel(outputs[s])|
    ensures |y| == |outputs|
  {
    seq(|outputs|, s requires 0 <= s < |outputs| => Ravel(outputs[s])[j])
  }

  /** The flat column of cell (r, c) is that cell's column. */
  lemma FlatColumnIsCell(outputs: seq<Grid>, nrows: nat, ncols: nat, r: nat, c: nat)
    requires AllRectangular(outputs, nrows, ncols) && r < nrows && c < ncols
    ensures forall s :: 0 <= s < |outputs| ==> Flat(r, c, ncols) < |Ravel(outputs[s])|
    ensures FlatColumn(outputs, Flat(r, c, ncols)) == Column(outputs, nrows, ncols, r, c)
  {
    forall s | 0 <= s < |outputs|
      ensures Flat(r, c, ncols) < |Ravel(outputs[s])| && Ravel(outputs[s])[Flat(r, c, ncols)] == outputs[s][r][c]
    {
      assert Rectangular(outputs[s], nrows, ncols);
      RavelAt(outputs[s], nrows, ncols, r, c);
    }
  }

  /** numpy's ==: NaN equals nothing. */
  predicate PyEq(a: Float, b: Float)
  {
    !a.NaN? && a == b
  }

  /** np.all(Y_j == Y_j[0]): every sample gave the first sample's value. */
  predicate Constant(y: seq<Float>)
    requires |y| > 0
  {
    forall k :: 0 <= k < |y| ==> PyEq(y[k], y[0])
  }

  /** The first-order index of parameter p meant for cell (r, c): zero when the cell's output does
      not vary across the samples, what sobol.analyze gives for the cell's column otherwise. */
  function IntendedValue(problem: Problem, analyze: (Problem, seq<Float>) -> SobolIndices,
                         outputs: seq<Grid>, nrows: nat, ncols: nat, p: nat, r: nat, c: nat): Float
    requires AnalyzesProblem(analyze, problem) && AllRectangular(outputs, nrows, ncols) && |outputs| > 0
    requires p < problem.numVars && r < nrows && c < ncols
  {
    var y := Column(outputs, nrows, ncols, r, c);
    if Constant(y) then Fin(0.0) else analyze(problem, y).s1[p]
  }

  /** The first-order map meant by the per-cell loop: zero at a cell whose output does not vary
      across the samples, the indices sobol.analyze gives for that cell's column elsewhere. */
  function IntendedS1(problem: Problem, analyze: (Problem, seq<Float>) -> SobolIndices,
                      outputs: seq<Grid>, nrows: nat, ncols: nat): (s: seq<Grid>)
    requires AnalyzesProblem(analyze, problem) && AllRectangular(outputs, nrows, ncols) && |outputs| > 0
    ensures IndexMapShape(s, problem.numVars, nrows, ncols)
    ensures forall p, r, c :: 0 <= p < problem.numVars && 0 <= r < nrows && 0 <= c < ncols ==>
              var y := Column(outputs, nrows, ncols, r, c);
              s[p][r][c] == if Constant(y) then Fin(0.0) else analyze(problem, y).s1[p]
  {
    seq(problem.numVars, p requires 0 <= p < problem.numVars =>
      seq(nrows, r requires 0 <= r < nrows =>
        seq(ncols, c requires 0 <= c < ncols => IntendedValue(problem, analyze, outputs, nrows, ncols, p, r, c))))
  }

  /** The sensitivity loop with the write the loop means: for every flat index j, skip a constant
      column, otherwise store each parameter's S1 at cell (j div ncols, j mod ncols).  Every
      cell is visited once, so the array ends up as the intended map. */
  method SensitivityMap(problem: Problem, analyze: (Problem, seq<Float>) -> SobolIndices,
                        outputs: seq<Grid>, nrows: nat, ncols: nat)
    returns (s1: array3<Float>)
    requires AnalyzesProblem(analyze, problem) && AllRectangular(outputs, nrows, ncols) && |outputs| > 0
    ensures fresh(s1)
    ensures Contents(s1) == IntendedS1(problem, analyze, outputs, nrows, ncols)
  {
    var nv := problem.numVars;
    s1 := new Float[nv, nrows, ncols]((p, r, c) => Fin(0.0));
    var j := 0;
    while j < nrows * ncols
      invariant 0 <= j <= nrows * ncols
      invariant FilledBelow(s1, problem, analyze, outputs, nrows, ncols, j)
    {
      VisitCell(s1, problem, analyze, outputs, nrows, ncols, j);
      j := j + 1;
    }
    FilledIsIntended(s1, problem, analyze, outputs, nrows, ncols);
  }

  /** The loop's state before flat index j: the cells already visited hold their intended
      indices, the others still hold the zeros of np.zeros. */
  ghost predicate FilledBelow(s1: array3<Float>, problem: Problem, analyze: (Problem, seq<Float>) -> SobolIndices,
                              outputs: seq<Grid>, nrows: nat, ncols: nat, j: nat)
    reads s1
  {
    && AnalyzesProblem(analyze, problem) && AllRectangular(outputs, nrows, ncols) && |outputs| > 0
    && s1.Length0 == problem.numVars && s1.Length1 == nrows && s1.Length2 == ncols
    && (forall p, r, c :: 0 <= p < s1.Length0 && 0 <= r < nrows && 0 <= c < ncols && Flat(r, c, ncols) < j ==>
          s1[p, r, c] == IntendedValue(problem, analyze, outputs, nrows, ncols, p, r, c))
    && (forall p, r, c :: 0 <= p < s1.Length0 && 0 <= r < nrows && 0 <= c < ncols && Flat(r, c, ncols) >= j ==>
          s1[p, r, c] == Fin(0.0))
  }

  /** One pass of the loop body: analyse the column of flat index j unless it is constant. */
  method VisitCell(s1: array3<Float>, problem: Problem, analyze: (Problem, seq<Float>) -> SobolIndices,
                   outputs: seq<Grid>, nrows: nat, ncols: nat, j: nat)
    requires AnalyzesProblem(analyze, problem) && AllRectangular(outputs, nrows, ncols) && |outputs| > 0
    requires j < nrows * ncols && FilledBelow(s1, problem, analyze, outputs, nrows, ncols, j)
    modifies s1
    ensures FilledBelow(s1, problem, analyze, outputs, nrows, ncols, j + 1)
  {
    FlatUnravel(j, nrows, ncols);
    var r, c := j / ncols, j % ncols;
    FlatColumnIsCell(outputs, nrows, ncols, r, c);
    var y := FlatColumn(outputs, j);
    if !Constant(y) {
      var si := analyze(problem, y);
      StoreS1(s1, si.s1, r, c);
    }
    FlatInjective(r, c, nrows, ncols);
  }

  /** Once every flat index is visited, the array is the intended map. */
  lemma FilledIsIntended(s1: array3<Float>, problem: Problem, analyze: (Problem, seq<Float>) -> SobolIndices,
                         outputs: seq<Grid>, nrows: nat, ncols: nat)
    requires AllRectangular(outputs, nrows, ncols) && |outputs| > 0
    requires FilledBelow(s1, problem, analyze, outputs, nrows, ncols, nrows * ncols)
    ensures Contents(s1) == IntendedS1(problem, analyze, outputs, nrows, ncols)
  {
    var nv := problem.numVars;
    var intended := IntendedS1(problem, analyze, outputs, nrows, ncols);
    forall p, r, c | 0 <= p < nv && 0 <= r < nrows && 0 <= c < ncols
      ensures s1[p, r, c] == intended[p][r][c]
    {
      UnravelFlat(r, c, nrows, ncols);
    }
    SameMaps(Contents(s1), intended, nv, nrows, ncols);
  }

  /** Cell (r, c) is the only cell with its flat index. */
  lemma FlatInjective(r: nat, c: nat, nrows: nat, ncols: nat)
    requires r < nrows && c < ncols
    ensures forall a, b :: 0 <= a < nrows && 0 <= b < ncols && Flat(a, b, ncols) == Flat(r, c, ncols) ==> a == r && b == c
  {
    forall a, b | 0 <= a < nrows && 0 <= b < ncols && Flat(a, b, ncols) == Flat(r, c, ncols)
      ensures a == r && b == c
    {
      UnravelFlat(a, b, nrows, ncols);
      UnravelFlat(r, c, nrows, ncols);
    }
  }

  /** S1_indices[k, r, c] = Si['S1'][k] for every parameter k, leaving every other cell alone. */
  method StoreS1(s1: array3<Float>, values: seq<Float>, r: nat, c: nat)
    requires s1.Length0 == |values| && r < s1.Length1 && c < s1.Length2
    modifies s1
    ensures forall p :: 0 <= p < s1.Length0 ==> s1[p, r, c] == values[p]
    ensures forall p, a, b :: 0 <= p < s1.Length0 && 0 <= a < s1.Length1 && 0 <= b < s1.Length2 && (a != r || b != c) ==>
              s1[p, a, b] == old(s1[p, a, b])
  {
    var p := 0;
    while p < s1.Length0
      invariant 0 <= p <= s1.Length0
      invariant forall q :: 0 <= q < p ==> s1[q, r, c] == values[q]
      invariant forall q, a, b :: 0 <= q < s1.Length0 && 0 <= a < s1.Length1 && 0 <= b < s1.Length2 && (a != r || b != c) ==>
                  s1[q, a, b] == old(s1[q, a, b])
    {
      s1[p, r, c] := values[p];
      p := p + 1;
    }
  }

  /** Why a numpy store fails. */
  datatype StoreError = IndexError

  /** The store S1_indices[k, np.unravel_index(j, shape)] = v as written, on plane k: the index
      pair is a sequence index along the row axis, so rows j div ncols and j mod ncols are
      overwritten entirely, and a column number past the last row raises IndexError. */
  function AsWrittenStore(plane: Grid, nrows: nat, ncols: nat, j: nat, v: Float): (r: Result<Grid, StoreError>)
    requires Rectangular(plane, nrows, ncols) && j < nrows * ncols
    ensures r.Err? <==> j % ncols >= nrows
  {
    FlatUnravel(j, nrows, ncols);
    var row, col := j / ncols, j % ncols;
    if col >= nrows then Err(IndexError)
    else Ok(seq(nrows, a requires 0 <= a < nrows => if a == row || a == col then seq(ncols, b => v) else plane[a]))
  }

  /** The store the loop means: only cell (j div ncols, j mod ncols) of plane k. */
  function IntendedStore(plane: Grid, nrows: nat, ncols: nat, j: nat, v: Float): (r: Grid)
    requires Rectangular(plane, nrows, ncols) && j < nrows * ncols
    ensures Rectangular(r, nrows, ncols)
    ensures forall a, b :: 0 <= a < nrows && 0 <= b < ncols ==>
              r[a][b] == if Flat(a, b, ncols) == j then v else plane[a][b]
  {
    FlatUnravel(j, nrows, ncols);
    var row, col := j / ncols, j % ncols;
    FlatInjective(row, col, nrows, ncols);
    plane[row := plane[row][col := v]]
  }

  /** On a 2 x 2 grid, storing 0.5 for flat index 1 (cell (0, 1)) as written sets all four cells,
      while the intended store sets one. */
  lemma AsWrittenStoreOverwritesRows()
    ensures var zero := [[Fin(0.0), Fin(0.0)], [Fin(0.0), Fin(0.0)]];
            && AsWrittenStore(zero, 2, 2, 1, Fin(0.5)) == Ok([[Fin(0.5), Fin(0.5)], [Fin(0.5), Fin(0.5)]])
            && IntendedStore(zero, 2, 2, 1, Fin(0.5)) == [[Fin(0.0), Fin(0.5)], [Fin(0.0), Fin(0.0)]]
  {
    var zero := [[Fin(0.0), Fin(0.0)], [Fin(0.0), Fin(0.0)]];
    assert 1 / 2 == 0 && 1 % 2 == 1;
    var w := AsWrittenStore(zero, 2, 2, 1, Fin(0.5));
    assert w.Ok?;
    assert w.value[0] == [Fin(0.5), Fin(0.5)] && w.value[1] == [Fin(0.5), Fin(0.5)];
    assert w.value == [[Fin(0.5), Fin(0.5)], [Fin(0.5), Fin(0.5)]];
    var i := IntendedStore(zero, 2, 2, 1, Fin(0.5));
    assert i[0][0] == Fin(0.0) && i[0][1] == Fin(0.5) && i[1][0] == Fin(0.0) && i[1][1] == Fin(0.0);
    assert i[0] == [Fin(0.0), Fin(0.5)] && i[1] == [Fin(0.0), Fin(0.0)];
  }

  /** On a grid with one row and two columns, the as-written store for flat index 1 raises
      IndexError, while the intended store writes cell (0, 1). */
  lemma AsWrittenStoreRaises()
    ensures AsWrittenStore([[Fin(0.0), Fin(0.0)]], 1, 2, 1, Fin(0.5)).Err?
    ensures IntendedStore([[Fin(0.0), Fin(0.0)]], 1, 2, 1, Fin(0.5)) == [[Fin(0.0), Fin(0.5)]]
  {
    assert 1 % 2 == 1 && 1 / 2 == 0;
    var i := IntendedStore([[Fin(0.0), Fin(0.0)]], 1, 2, 1, Fin(0.5));
    assert i[0][0] == Fin(0.0) && i[0][1] == Fin(0.5);
    assert i[0] == [Fin(0.0), Fin(0.5)];
  }

  /** np.argmax(S1_indices, axis=0): at every cell, the first of the four parameters with the
      largest index there (or the first NaN). */
  function DominantParameterMap(s1: seq<Grid>, nrows: nat, ncols: nat): (d: seq<seq<nat>>)
    requires IndexMapShape(s1, 4, nrows, ncols)
    ensures |d| == nrows && forall r :: 0 <= r < nrows ==> |d[r]| == ncols
    ensures forall r, c :: 0 <= r < nrows && 0 <= c < ncols ==> d[r][c] <= 3
    ensures forall r, c :: 0 <= r < nrows && 0 <= c < ncols ==> d[r][c] == ArgMax(AtCell(s1, 4, nrows, ncols, r, c))
    ensures forall r, c :: 0 <= r < nrows && 0 <= c < ncols && (forall p :: 0 <= p < 4 ==> !s1[p][r][c].NaN?) ==>
              && (forall p :: 0 <= p < 4 ==> Le(s1[p][r][c], s1[d[r][c]][r][c]))
              && (forall p :: 0 <= p < d[r][c] ==> !Le(s1[d[r][c]][r][c], s1[p][r][c]))
  {
    DominantMap(s1, 4, nrows, ncols)
  }

  /** The parameter with the highest average sensitivity: the name at the first largest spatial
      mean of its S1 map. */
  function MostSensitive(names: seq<string>, s1: seq<Grid>): (name: string)
    requires |names| == |s1| > 0
    ensures name in names
    ensures (forall p :: 0 <= p < |s1| ==> !AverageS1(s1)[p].NaN?) ==>
              exists k :: 0 <= k < |names| && name == names[k] &&
                forall p :: 0 <= p < |s1| ==> Le(AverageS1(s1)[p], AverageS1(s1)[k])
  {
    names[ArgMax(AverageS1(s1))]
  }

  /** How many cells of a flattened dominant map hold parameter v (np.unique's count). */
  function Count(cells: seq<nat>, v: nat): (n: nat)
    ensures n <= |cells|
    ensures n == 0 <==> v !in cells
  {
    if |cells| == 0 then 0
    else Count(cells[..|cells| - 1], v) + (if cells[|cells| - 1] == v then 1 else 0)
  }

  /** The dominant map's cells, row after row. */
  function Cells(d: seq<seq<nat>>): seq<nat>
  {
    if |d| == 0 then [] else Cells(d[..|d| - 1]) + d[|d| - 1]
  }

  /** The coverage of parameter i: its share of the cells in percent, or 0.0 when no cell holds it. */
  function Percentage(cells: seq<nat>, i: nat): (pct: real)
    ensures 0.0 <= pct <= 100.0
    ensures pct == 0.0 <==> i !in cells
  {
    if i in cells then
      var c, t := Count(cells, i) as real, |cells| as real;
      QuotientBounds(c, t, 0.0, 1.0);
      assert c / t > 0.0;
      (c / t) * 100.0
    else 0.0
  }

  /** The coverage of the first m parameters. */
  function Coverages(cells: seq<nat>, m: nat): (r: seq<real>)
    ensures |r| == m && forall i :: 0 <= i < m ==> r[i] == Percentage(cells, i)
  {
    seq(m, i requires 0 <= i < m => Percentage(cells, i))
  }

  /** The coverage loop of the summary report: one percentage per parameter, in order. */
  method Coverage(dominant: seq<seq<nat>>, numVars: nat) returns (pct: seq<real>)
    ensures pct == Coverages(Cells(dominant), numVars)
  {
    var cells := Cells(dominant);
    var total := |cells|;
    pct := [];
    var i := 0;
    while i < numVars
      invariant 0 <= i <= numVars && |pct| == i
      invariant forall k :: 0 <= k < i ==> pct[k] == Percentage(cells, k)
    {
      if i in cells {
        pct := pct + [(Count(cells, i) as real / total as real) * 100.0];
      } else {
        pct := pct + [0.0];
      }
      i := i + 1;
    }
  }

  /** The counts of the values below m. */
  function CountBelow(cells: seq<nat>, m: nat): nat
  {
    if m == 0 then 0 else CountBelow(cells, m - 1) + Count(cells, m - 1)
  }

  lemma {:induction false} CountBelowSnoc(cells: seq<nat>, x: nat, m: nat)
    ensures CountBelow(cells + [x], m) == CountBelow(cells, m) + (if x < m then 1 else 0)
  {
    assert (cells + [x])[..|cells|] == cells;
    if m > 0 {
      CountBelowSnoc(cells, x, m - 1);
    }
  }

  /** When every cell holds a parameter below m, the counts below m add up to the number of cells. */
  lemma {:induction false} CountsCoverAllCells(cells: seq<nat>, m: nat)
    requires forall k :: 0 <= k < |cells| ==> cells[k] < m
    ensures CountBelow(cells, m) == |cells|
  {
    if |cells| == 0 {
      CountBelowEmpty(m);
    } else {
      var init := cells[..|cells| - 1];
      CountsCoverAllCells(init, m);
      CountBelowSnoc(init, cells[|cells| - 1], m);
      assert init + [cells[|cells| - 1]] == cells;
    }
  }

  lemma {:induction false} CountBelowEmpty(m: nat)
    ensures CountBelow([], m) == 0
  {
    if m > 0 {
      CountBelowEmpty(m - 1);
    }
  }

  /** The percentages of the first m parameters add up to the share of the cells they hold. */
  lemma {:induction false} PercentagesAddUp(cells: seq<nat>, m: nat)
    requires |cells| > 0
    ensures RealSum(Coverages(cells, m)) == (CountBelow(cells, m) as real / |cells| as real) * 100.0
  {
    var t := |cells| as real;
    if m > 0 {
      var s := Coverages(cells, m);
      assert s[..m - 1] == Coverages(cells, m - 1);
      PercentagesAddUp(cells, m - 1);
      var a, b := CountBelow(cells, m - 1) as real, Count(cells, m - 1) as real;
      assert Percentage(cells, m - 1) == (b / t) * 100.0;
      SharesAdd(a, b, t);
    }
  }

  lemma SharesAdd(a: real, b: real, t: real)
    requires t > 0.0
    ensures (a / t) * 100.0 + (b / t) * 100.0 == ((a + b) / t) * 100.0
  {
  }

  /** With every cell of the dominant map naming one of the parameters, the coverage figures of
      the report add up to 100. */
  lemma CoverageSumsToHundred(dominant: seq<seq<nat>>, numVars: nat)
    requires |Cells(dominant)| > 0
    requires forall k :: 0 <= k < |Cells(dominant)| ==> Cells(dominant)[k] < numVars
    ensures RealSum(Coverages(Cells(dominant), numVars)) == 100.0
  {
    var cells := Cells(dominant);
    PercentagesAddUp(cells, numVars);
    CountsCoverAllCells(cells, numVars);
    var t := |cells| as real;
    assert CountBelow(cells, numVars) as real == t;
    WholeShare(t);
  }

  lemma WholeShare(t: real)
    requires t > 0.0
    ensures (t / t) * 100.0 == 100.0
  {
  }
}
