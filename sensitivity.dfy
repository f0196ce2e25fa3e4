/**
 * What the two Sobol-propagation scripts share: the SALib problem table, flow fields on a
 * rectangular grid, np.argmax (the first maximum, or the first NaN) and the spatial mean of
 * a first-order index map.
 */
module Sensitivity {
  import opened Floats

  /** A SALib problem: num_vars, the parameter names and one [lower, upper] pair per name. */
  datatype Problem = Problem(numVars: nat, names: seq<string>, bounds: seq<(real, real)>)

  /** What saltelli.sample needs of a problem: one name and one non-empty interval per variable. */
  predicate WellFormedProblem(p: Problem)
  {
    && p.numVars == |p.names| == |p.bounds|
    && forall i :: 0 <= i < |p.bounds| ==> p.bounds[i].0 < p.bounds[i].1
  }

  /** A flow field of WS_eff values, indexed [y][x]. */
  type Grid = seq<seq<Float>>

  predicate Rectangular(g: Grid, ny: nat, nx: nat)
  {
    |g| == ny && forall i :: 0 <= i < ny ==> |g[i]| == nx
  }

  /** Fields of one shape, one per sample. */
  predicate AllRectangular(gs: seq<Grid>, ny: nat, nx: nat)
  {
    && (forall k :: 0 <= k < |gs| ==> |gs[k]| == ny)
    && (forall k, i :: 0 <= k < |gs| && 0 <= i < ny ==> |gs[k][i]| == nx)
  }

  /** A map of indices per parameter, indexed [parameter][y][x]. */
  predicate IndexMapShape(s: seq<Grid>, numVars: nat, ny: nat, nx: nat)
  {
    |s| == numVars && forall p :: 0 <= p < numVars ==> Rectangular(s[p], ny, nx)
  }

  /** Two maps of one shape that agree at every cell are equal. */
  lemma SameMaps(s: seq<Grid>, t: seq<Grid>, numVars: nat, ny: nat, nx: nat)
    requires IndexMapShape(s, numVars, ny, nx) && IndexMapShape(t, numVars, ny, nx)
    requires forall p, i, j :: 0 <= p < numVars && 0 <= i < ny && 0 <= j < nx ==> s[p][i][j] == t[p][i][j]
    ensures s == t
  {
    forall p | 0 <= p < numVars
      ensures s[p] == t[p]
    {
      forall i | 0 <= i < ny
        ensures s[p][i] == t[p][i]
      {
      }
    }
  }

  /** np.argmax of a non-empty vector: the first NaN if there is one, otherwise the first maximum. */
  function ArgMax(s: seq<Float>): (k: nat)
    requires |s| > 0
    ensures k < |s|
    ensures (exists i :: 0 <= i < |s| && s[i].NaN?) ==> s[k].NaN? && forall j :: 0 <= j < k ==> !s[j].NaN?
    ensures (forall i :: 0 <= i < |s| ==> !s[i].NaN?) ==>
              && (forall j :: 0 <= j < |s| ==> Le(s[j], s[k]))
              && (forall j :: 0 <= j < k ==> !Le(s[k], s[j]))
  {
    if |s| == 1 then 0
    else
      var init := s[..|s| - 1];
      assert forall j :: 0 <= j < |init| ==> init[j] == s[j];
      var k := ArgMax(init);
      var last := s[|s| - 1];
      if s[k].NaN? then k
      else if last.NaN? then |s| - 1
      else if Le(last, s[k]) then k
      else |s| - 1
  }

  /** The cells of a grid, row after row (numpy's C-order ravel). */
  function Ravel(g: Grid): (r: seq<Float>)
    ensures |r| == CellTotal(g)
  {
    if |g| == 0 then [] else Ravel(g[..|g| - 1]) + g[|g| - 1]
  }

  function CellTotal(g: Grid): nat
  {
    if |g| == 0 then 0 else CellTotal(g[..|g| - 1]) + |g[|g| - 1]|
  }

  /** Every raveled value is the value of some cell, and a non-empty grid ravels to a non-empty
      sequence. */
  lemma {:induction false} RavelCells(g: Grid, ny: nat, nx: nat)
    requires Rectangular(g, ny, nx)
    ensures |Ravel(g)| == ny * nx
    ensures forall x :: x in Ravel(g) ==> exists i, j :: 0 <= i < ny && 0 <= j < nx && x == g[i][j]
  {
    if ny > 0 {
      var init := g[..ny - 1];
      RavelCells(init, ny - 1, nx);
      assert Ravel(g) == Ravel(init) + g[ny - 1];
      forall x | x in Ravel(g)
        ensures exists i, j :: 0 <= i < ny && 0 <= j < nx && x == g[i][j]
      {
        if x in Ravel(init) {
          var i, j :| 0 <= i < ny - 1 && 0 <= j < nx && x == init[i][j];
          assert x == g[i][j];
        } else {
          var j :| 0 <= j < nx && g[ny - 1][j] == x;
        }
      }
    }
  }

  /** np.mean(S1, axis=(1, 2)): per parameter, the mean over every grid cell (NaN propagates). */
  function AverageS1(s1: seq<Grid>): (r: seq<Float>)
    ensures |r| == |s1|
    ensures forall p :: 0 <= p < |s1| ==> r[p] == Mean(Ravel(s1[p]))
  {
    seq(|s1|, p requires 0 <= p < |s1| => Mean(Ravel(s1[p])))
  }

  /** The indices of every parameter at one cell. */
  function AtCell(s1: seq<Grid>, numVars: nat, ny: nat, nx: nat, i: nat, j: nat): (r: seq<Float>)
    requires IndexMapShape(s1, numVars, ny, nx) && i < ny && j < nx
    ensures |r| == numVars && forall p :: 0 <= p < numVars ==> r[p] == s1[p][i][j]
  {
    seq(numVars, p requires 0 <= p < numVars => s1[p][i][j])
  }

  /** np.argmax(S1, axis=0): the dominant parameter of every cell. */
  function DominantMap(s1: seq<Grid>, numVars: nat, ny: nat, nx: nat): (d: seq<seq<nat>>)
    requires numVars > 0 && IndexMapShape(s1, numVars, ny, nx)
    ensures |d| == ny && forall i :: 0 <= i < ny ==> |d[i]| == nx
    ensures forall i, j :: 0 <= i < ny && 0 <= j < nx ==> d[i][j] == ArgMax(AtCell(s1, numVars, ny, nx, i, j))
    ensures forall i, j :: 0 <= i < ny && 0 <= j < nx ==> d[i][j] < numVars
  {
    seq(ny, i requires 0 <= i < ny =>
      seq(nx, j requires 0 <= j < nx => ArgMax(AtCell(s1, numVars, ny, nx, i, j))))
  }

  /** The numpy mean of finite values that lie between lo and hi is finite and lies between them. */
  lemma {:induction false} MeanOfFinite(s: seq<Float>, lo: real, hi: real)
    requires |s| > 0 && forall i :: 0 <= i < |s| ==> s[i].Fin? && lo <= s[i].v <= hi
    ensures Mean(s).Fin? && lo <= Mean(s).v <= hi
  {
    assert AllFinite(s);
    SumFinite(s);
    var xs := Values(s);
    RealSumBounds(xs, lo, hi);
    var n := |s| as real;
    var t := RealSum(xs);
    assert n * lo <= t <= n * hi;
    QuotientBounds(t, n, lo, hi);
  }

  lemma {:induction false} RealSumBounds(xs: seq<real>, lo: real, hi: real)
    requires forall i :: 0 <= i < |xs| ==> lo <= xs[i] <= hi
    ensures (|xs| as real) * lo <= RealSum(xs) <= (|xs| as real) * hi
  {
    if |xs| > 0 {
      var init := xs[..|xs| - 1];
      RealSumBounds(init, lo, hi);
      var m := |init| as real;
      assert (m + 1.0) * lo == m * lo + lo;
      assert (m + 1.0) * hi == m * hi + hi;
    }
  }

  lemma QuotientBounds(t: real, n: real, lo: real, hi: real)
    requires n > 0.0 && n * lo <= t <= n * hi
    ensures lo <= t / n <= hi
  {
    assert t / n * n == t;
  }

  /** Si of sobol.analyze: the first-order and total indices, one per parameter. */
  datatype SobolIndices = SobolIndices(s1: seq<Float>, st: seq<Float>)

  /** What sobol.analyze returns for a problem: one index of each kind per parameter. */
  ghost predicate AnalyzesProblem(analyze: (Problem, seq<Float>) -> SobolIndices, problem: Problem)
  {
    forall y :: |analyze(problem, y).s1| == problem.numVars && |analyze(problem, y).st| == problem.numVars
  }

  /** ws_eff_all[:, i, j]: the value of cell (i, j) in every sample. */
  function Column(outputs: seq<Grid>, ny: nat, nx: nat, i: nat, j: nat): (y: seq<Float>)
    requires AllRectangular(outputs, ny, nx) && i < ny && j < nx
    ensures |y| == |outputs| && forall k :: 0 <= k < |y| ==> y[k] == outputs[k][i][j]
  {
    seq(|outputs|, k requires 0 <= k < |outputs| => outputs[k][i][j])
  }

  /** The contents of a (parameter, y, x) array. */
  function Contents(a: array3<Float>): (s: seq<Grid>)
    reads a
    ensures IndexMapShape(s, a.Length0, a.Length1, a.Length2)
    ensures forall p, i, j :: 0 <= p < a.Length0 && 0 <= i < a.Length1 && 0 <= j < a.Length2 ==>
              s[p][i][j] == a[p, i, j]
  {
    seq(a.Length0, p requires 0 <= p < a.Length0 reads a =>
      seq(a.Length1, i requires 0 <= i < a.Length1 reads a =>
        seq(a.Length2, j requires 0 <= j < a.Length2 reads a => a[p, i, j])))
  }
}
