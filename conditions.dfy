/**
 * The flow-condition grid of the calibration: every wind speed paired with every turbulence
 * intensity, flattened wind-speed-major.  code_2.py builds it by extending two lists in a
 * loop (ExpandConditions); code_5.py by a list comprehension and a flatten (RepeatEach, Tile).
 */
module Conditions {

  /** np.arange(4, 11) */
  const WindSpeeds: seq<real> := [4.0, 5.0, 6.0, 7.0, 8.0, 9.0, 10.0]

  /** np.arange(0.05, 0.45, 0.05): eight values, the stop 0.45 excluded (rounding not modelled). */
  const TurbulenceIntensities: seq<real> := [0.05, 0.10, 0.15, 0.20, 0.25, 0.30, 0.35, 0.40]

  /** [x] * n */
  function Replicate(x: real, n: nat): (r: seq<real>)
    ensures |r| == n && forall i :: 0 <= i < n ==> r[i] == x
  {
    seq(n, _ => x)
  }

  /** Each wind speed repeated n times, in order: the flattened [[ws] * n for ws in WSs]. */
  function RepeatEach(ws: seq<real>, n: nat): (r: seq<real>)
    ensures |r| == |ws| * n
  {
    if |ws| == 0 then [] else RepeatEach(ws[..|ws| - 1], n) + Replicate(ws[|ws| - 1], n)
  }

  /** The intensities laid end to end m times: the flattened [TIs for _ in range(m)]. */
  function Tile(ti: seq<real>, m: nat): (r: seq<real>)
    ensures |r| == m * |ti|
  {
    if m == 0 then [] else Tile(ti, m - 1) + ti
  }

  /** Quotient and remainder of k by n when k lies in the q-th block of length n. */
  lemma DivInBlock(k: int, n: int, q: int)
    requires n > 0 && q * n <= k < q * n + n
    ensures k / n == q && k % n == k - q * n
  {
    var d, m := k / n, k % n;
    assert k == d * n + m && 0 <= m < n;
    if d < q {
      MulLe(d, q - 1, n);
      assert false;
    } else if d > q {
      MulLe(q + 1, d, n);
      assert false;
    }
  }

  lemma MulLe(a: int, b: int, n: int)
    requires a <= b && n >= 0
    ensures a * n <= b * n && (a + 1) * n == a * n + n && (b - 1) * n == b * n - n
  {
    assert b * n - a * n == (b - a) * n;
  }

  /** An index below q blocks of length n has a quotient below q. */
  lemma DivBelow(k: int, n: int, q: int)
    requires n > 0 && 0 <= k < q * n
    ensures 0 <= k / n < q
  {
  }

  /** Entry k of the repeated wind speeds is WSs[k div n]. */
  lemma {:induction false} RepeatEachAt(ws: seq<real>, n: nat, k: int)
    requires 0 <= k < |ws| * n
    ensures RepeatEach(ws, n)[k] == ws[k / n]
  {
    var init := ws[..|ws| - 1];
    if k < |init| * n {
      RepeatEachAt(init, n, k);
      DivBelow(k, n, |init|);
    } else {
      DivInBlock(k, n, |init|);
    }
  }

  /** Entry k of the tiled intensities is TIs[k mod |TIs|]. */
  lemma {:induction false} TileAt(ti: seq<real>, m: nat, k: int)
    requires 0 <= k < m * |ti|
    ensures |Tile(ti, m)| == m * |ti| && Tile(ti, m)[k] == ti[k % |ti|]
  {
    if k < (m - 1) * |ti| {
      TileAt(ti, m - 1, k);
    } else {
      DivInBlock(k, |ti|, m - 1);
    }
  }

  /** s has x at index i. */
  predicate HasAt(s: seq<real>, i: int, x: real)
  {
    0 <= i < |s| && s[i] == x
  }

  /** Entry k of the flattened wind speeds of code_5.py is WSs[k div |TIs|]. */
  lemma RepeatEachClosedForm(ws: seq<real>, n: nat)
    ensures forall k :: 0 <= k < |ws| * n ==> HasAt(ws, k / n, RepeatEach(ws, n)[k])
  {
    if n > 0 {
      forall k | 0 <= k < |ws| * n
        ensures HasAt(ws, k / n, RepeatEach(ws, n)[k])
      {
        DivBelow(k, n, |ws|);
        RepeatEachAt(ws, n, k);
      }
    }
  }

  /** Entry k of the flattened intensities of code_5.py is TIs[k mod |TIs|]. */
  lemma TileClosedForm(ti: seq<real>, m: nat)
    ensures |Tile(ti, m)| == m * |ti|
    ensures forall k :: 0 <= k < m * |ti| ==> HasAt(ti, k % |ti|, Tile(ti, m)[k])
  {
    if |ti| > 0 {
      forall k | 0 <= k < m * |ti|
        ensures HasAt(ti, k % |ti|, Tile(ti, m)[k])
      {
        TileAt(ti, m, k);
      }
    }
  }

  /** The loop of WakeModelOptimizer.__init__ (code_2.py): for each wind speed, extend full_ti
      by all intensities and full_ws by that speed repeated once per intensity. */
  method ExpandConditions(ws: seq<real>, ti: seq<real>) returns (fullWs: seq<real>, fullTi: seq<real>)
    ensures fullWs == RepeatEach(ws, |ti|) && fullTi == Tile(ti, |ws|)
    ensures |fullWs| == |fullTi| == |ws| * |ti|
    ensures forall k :: 0 <= k < |fullWs| ==> HasAt(ws, k / |ti|, fullWs[k]) && HasAt(ti, k % |ti|, fullTi[k])
  {
    fullTi, fullWs := [], [];
    var i := 0;
    while i < |ws|
      invariant 0 <= i <= |ws|
      invariant fullWs == RepeatEach(ws[..i], |ti|) && fullTi == Tile(ti, i)
    {
      assert ws[..i + 1][..i] == ws[..i];
      fullTi := fullTi + ti;
      fullWs := fullWs + Replicate(ws[i], |ti|);
      i := i + 1;
    }
    assert ws[..|ws|] == ws;
    RepeatEachClosedForm(ws, |ti|);
    TileClosedForm(ti, |ws|);
  }

  /** The calibration grid: 7 wind speeds times 8 intensities, 56 conditions; condition 8 is
      the second wind speed with the first intensity. */
  lemma CalibrationGrid()
    ensures |RepeatEach(WindSpeeds, |TurbulenceIntensities|)| == |Tile(TurbulenceIntensities, |WindSpeeds|)| == 56
    ensures RepeatEach(WindSpeeds, |TurbulenceIntensities|)[8] == 5.0
    ensures Tile(TurbulenceIntensities, |WindSpeeds|)[8] == 0.05
    ensures Tile(TurbulenceIntensities, |WindSpeeds|)[55] == 0.40
  {
    RepeatEachClosedForm(WindSpeeds, |TurbulenceIntensities|);
    TileClosedForm(TurbulenceIntensities, |WindSpeeds|);
    assert 8 / 8 == 1 && 8 % 8 == 0 && 55 % 8 == 7;
  }
}
