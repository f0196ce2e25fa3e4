/**
 * The part of bayes_opt.BayesianOptimization that the calibration relies on: a lazy probe
 * queues a point; maximize primes the queue with random points, evaluates the queue in order,
 * then asks the surrogate for n_iter further points; every evaluation appends
 * {params, target} to `res`; `max` is the entry with the greatest target.  The random stream
 * (seeded with 1) and the Gaussian-process suggestion are opaque oracles.  An exception from
 * the objective (a KeyError of the builder) leaves maximize at once.
 */
module Search {
  import opened Wrappers
  import opened Floats
  import opened WakeConfig
  import opened WakeBuilder

  datatype Entry = Entry(params: Params, target: Float)

  predicate NoNaN(res: seq<Entry>)
  {
    forall i :: 0 <= i < |res| ==> !res[i].target.NaN?
  }

  /** The objective never returns NaN (evaluate_rmse turns a NaN into -0.5). */
  ghost predicate NaNFree(f: Params -> Result<Float, BuildError>)
  {
    forall p :: f(p).Ok? ==> !f(p).value.NaN?
  }

  /** The rest of maximize once the queue is primed: pop and evaluate queued points, then
      evaluate `remaining` suggestions; stop at the first exception.  Gives the final trace,
      what is left in the queue and the exception. */
  function Drive(f: Params -> Result<Float, BuildError>, suggest: seq<Entry> -> Params,
                 queue: seq<Params>, res: seq<Entry>, remaining: nat)
    : (seq<Entry>, seq<Params>, Option<BuildError>)
    decreases |queue|, remaining
  {
    if |queue| > 0 then
      match f(queue[0])
      case Err(e) => (res, queue[1..], Some(e))
      case Ok(t) => Drive(f, suggest, queue[1..], res + [Entry(queue[0], t)], remaining)
    else if remaining > 0 then
      var p := suggest(res);
      match f(p)
      case Err(e) => (res, [], Some(e))
      case Ok(t) => Drive(f, suggest, [], res + [Entry(p, t)], remaining - 1)
    else (res, [], None)
  }

  /** The j-th random point and the next k: the queue priming of maximize. */
  function Draws(randomSample: nat -> Params, from: nat, k: nat): (r: seq<Params>)
    ensures |r| == k && forall j :: 0 <= j < k ==> r[j] == randomSample(from + j)
  {
    seq(k, j requires 0 <= j < k => randomSample(from + j))
  }

  /** _prime_queue: at least one random point when nothing is queued and nothing was evaluated. */
  function InitCount(queue: seq<Params>, res: seq<Entry>, initPoints: nat): (k: nat)
    ensures k >= initPoints
    ensures k == initPoints <==> |queue| > 0 || |res| > 0 || initPoints > 0
  {
    if |queue| == 0 && |res| == 0 && initPoints < 1 then 1 else initPoints
  }

  /** Without an exception the trace grows by one entry per queued point and per suggestion;
      the queued points come first, in order, each with its own target; an exception leaves
      a prefix of that. */
  lemma {:induction false} DriveTrace(f: Params -> Result<Float, BuildError>, suggest: seq<Entry> -> Params,
                                      queue: seq<Params>, res: seq<Entry>, remaining: nat)
    ensures var (out, rest, err) := Drive(f, suggest, queue, res, remaining);
      && |res| <= |out| <= |res| + |queue| + remaining
      && out[..|res|] == res
      && (err.None? <==> |out| == |res| + |queue| + remaining)
      && (err.None? ==> rest == [])
      && (forall i :: 0 <= i < |queue| && |res| + i < |out| ==>
            f(queue[i]).Ok? && out[|res| + i] == Entry(queue[i], f(queue[i]).value))
      && (err.Some? && |out| < |res| + |queue| ==> f(queue[|out| - |res|]) == Err(err.value))
    decreases |queue|, remaining
  {
    if |queue| > 0 {
      if f(queue[0]).Ok? {
        var res' := res + [Entry(queue[0], f(queue[0]).value)];
        DriveTrace(f, suggest, queue[1..], res', remaining);
        var (out, rest, err) := Drive(f, suggest, queue[1..], res', remaining);
        assert out[..|res|] == out[..|res'|][..|res|];
        forall i | 0 <= i < |queue| && |res| + i < |out|
          ensures f(queue[i]).Ok? && out[|res| + i] == Entry(queue[i], f(queue[i]).value)
        {
          if i > 0 {
            assert queue[1..][i - 1] == queue[i];
          } else {
            assert out[|res|] == out[..|res'|][|res|];
          }
        }
        if err.Some? && |out| < |res| + |queue| {
          assert queue[1..][|out| - |res'|] == queue[|out| - |res|];
        }
      }
    } else if remaining > 0 {
      var p := suggest(res);
      if f(p).Ok? {
        var res' := res + [Entry(p, f(p).value)];
        DriveTrace(f, suggest, [], res', remaining - 1);
        var (out, rest, err) := Drive(f, suggest, [], res', remaining - 1);
        assert out[..|res|] == out[..|res'|][..|res|];
      }
    }
  }

  /** The targets of a trace are those the objective returned, so a NaN-free objective gives
      a NaN-free trace. */
  lemma {:induction false} DriveNoNaN(f: Params -> Result<Float, BuildError>, suggest: seq<Entry> -> Params,
                                      queue: seq<Params>, res: seq<Entry>, remaining: nat)
    requires NaNFree(f) && NoNaN(res)
    ensures NoNaN(Drive(f, suggest, queue, res, remaining).0)
    decreases |queue|, remaining
  {
    if |queue| > 0 {
      if f(queue[0]).Ok? {
        DriveNoNaN(f, suggest, queue[1..], res + [Entry(queue[0], f(queue[0]).value)], remaining);
      }
    } else if remaining > 0 {
      var p := suggest(res);
      if f(p).Ok? {
        DriveNoNaN(f, suggest, [], res + [Entry(p, f(p).value)], remaining - 1);
      }
    }
  }

  /** Index of the first entry with the greatest target (numpy argmax). */
  function BestIndex(res: seq<Entry>): (k: nat)
    requires |res| > 0 && NoNaN(res)
    ensures k < |res|
    ensures forall j :: 0 <= j < |res| ==> Le(res[j].target, res[k].target)
    ensures forall j :: 0 <= j < k ==> !Le(res[k].target, res[j].target)
  {
    if |res| == 1 then 0
    else
      var init := res[..|res| - 1];
      assert forall j :: 0 <= j < |init| ==> init[j] == res[j];
      var k := BestIndex(init);
      if Le(res[|res| - 1].target, res[k].target) then k else |res| - 1
  }

  /** optimizer.max: the best entry, none for an empty trace. */
  function Max(res: seq<Entry>): (r: Option<Entry>)
    requires NoNaN(res)
    ensures r.None? <==> |res| == 0
    ensures r.Some? ==> r.value in res && forall j :: 0 <= j < |res| ==> Le(res[j].target, r.value.target)
  {
    if |res| == 0 then None else Some(res[BestIndex(res)])
  }

  class BayesianOptimization {
    const f: Params -> Result<Float, BuildError>
    const pbounds: Bounds
    /** The j-th point of the seeded uniform stream within pbounds. */
    const randomSample: nat -> Params
    /** The surrogate's proposal after a trace. */
    const suggest: seq<Entry> -> Params
    var queue: seq<Params>
    var res: seq<Entry>
    /** Random points drawn so far. */
    var drawn: nat

    constructor(f: Params -> Result<Float, BuildError>, pbounds: Bounds,
                randomSample: nat -> Params, suggest: seq<Entry> -> Params)
      ensures this.f == f && this.pbounds == pbounds
      ensures this.randomSample == randomSample && this.suggest == suggest
      ensures queue == [] && res == [] && drawn == 0
    {
      this.f := f;
      this.pbounds := pbounds;
      this.randomSample := randomSample;
      this.suggest := suggest;
      queue, res, drawn := [], [], 0;
    }

    /** probe(params, lazy=True): queue the point without evaluating it. */
    method Probe(params: Params)
      modifies this
      ensures queue == old(queue) + [params]
      ensures res == old(res) && drawn == old(drawn)
    {
      queue := queue + [params];
    }

    /** maximize(init_points, n_iter). */
    method Maximize(initPoints: nat, nIter: nat) returns (err: Option<BuildError>)
      modifies this
      ensures var k := InitCount(old(queue), old(res), initPoints);
        && drawn == old(drawn) + k
        && (res, queue, err) == Drive(f, suggest, old(queue) + Draws(randomSample, old(drawn), k), old(res), nIter)
    {
      var k := InitCount(queue, res, initPoints);
      var j := 0;
      ghost var primed := queue + Draws(randomSample, drawn, k);
      while j < k
        invariant 0 <= j <= k && drawn == old(drawn) + j
        invariant queue == old(queue) + Draws(randomSample, old(drawn), j)
        invariant res == old(res)
        invariant primed == old(queue) + Draws(randomSample, old(drawn), k)
      {
        assert Draws(randomSample, old(drawn), j + 1) == Draws(randomSample, old(drawn), j) + [randomSample(drawn)];
        queue := queue + [randomSample(drawn)];
        drawn := drawn + 1;
        j := j + 1;
      }
      ghost var goal := Drive(f, suggest, queue, res, nIter);
      var iteration := 0;
      err := None;
      while |queue| > 0 || iteration < nIter
        invariant 0 <= iteration <= nIter
        invariant Drive(f, suggest, queue, res, nIter - iteration) == goal
        invariant drawn == old(drawn) + k
        decreases |queue|, nIter - iteration
      {
        var p;
        if |queue| > 0 {
          p := queue[0];
          queue := queue[1..];
        } else {
          p := suggest(res);
          iteration := iteration + 1;
        }
        match f(p)
        case Err(e) =>
          err := Some(e);
          return;
        case Ok(t) =>
          res := res + [Entry(p, t)];
      }
    }
  }

  /** The calibration protocol on a fresh optimizer: probe the defaults lazily, then maximize. */
  function ProbeAndMaximize(f: Params -> Result<Float, BuildError>, suggest: seq<Entry> -> Params,
                            randomSample: nat -> Params, defaults: Params, initPoints: nat, nIter: nat)
    : (seq<Entry>, seq<Params>, Option<BuildError>)
  {
    Drive(f, suggest, [defaults] + Draws(randomSample, 0, InitCount([defaults], [], initPoints)), [], nIter)
  }

  /** BayesianOptimization(f, pbounds), probe(defaults, lazy=True), maximize(init_points, n_iter):
      the calibration protocol run on a fresh optimizer. */
  method ProbeAndRun(f: Params -> Result<Float, BuildError>, pbounds: Bounds, randomSample: nat -> Params,
                     suggest: seq<Entry> -> Params, defaults: Params, initPoints: nat, nIter: nat)
    returns (opt: BayesianOptimization, err: Option<BuildError>)
    ensures fresh(opt) && opt.f == f && opt.pbounds == pbounds
    ensures (opt.res, opt.queue, err) == ProbeAndMaximize(f, suggest, randomSample, defaults, initPoints, nIter)
  {
    opt := new BayesianOptimization(f, pbounds, randomSample, suggest);
    opt.Probe(defaults);
    err := opt.Maximize(initPoints, nIter);
  }

  /** The protocol of the calibration: a fresh optimizer, the defaults probed lazily, then
      maximize.  Without an exception the trace has 1 + init_points + n_iter entries and the
      first is the defaults with their own score; if the defaults raise, nothing is recorded. */
  lemma ProbeThenMaximize(f: Params -> Result<Float, BuildError>, suggest: seq<Entry> -> Params,
                          randomSample: nat -> Params, defaults: Params, initPoints: nat, nIter: nat)
    ensures var (out, _, err) := ProbeAndMaximize(f, suggest, randomSample, defaults, initPoints, nIter);
      && (err.None? ==> |out| == 1 + initPoints + nIter)
      && (f(defaults).Ok? <==> |out| > 0)
      && (|out| > 0 ==> out[0] == Entry(defaults, f(defaults).value))
      && (f(defaults).Err? ==> err == Some(f(defaults).error))
  {
    var queue := [defaults] + Draws(randomSample, 0, InitCount([defaults], [], initPoints));
    DriveTrace(f, suggest, queue, [], nIter);
    var (out, _, err) := Drive(f, suggest, queue, [], nIter);
    assert queue[0] == defaults;
    if |out| == 0 {
      assert err.Some? && f(queue[0]) == Err(err.value);
    } else {
      assert f(queue[0]).Ok? && out[0] == Entry(queue[0], f(queue[0]).value);
    }
  }

  /** Every entry of the trace records the objective's own value at its point. */
  predicate Consistent(f: Params -> Result<Float, BuildError>, res: seq<Entry>)
  {
    forall i :: 0 <= i < |res| ==> f(res[i].params) == Ok(res[i].target)
  }

  lemma {:induction false} DriveConsistent(f: Params -> Result<Float, BuildError>, suggest: seq<Entry> -> Params,
                                           queue: seq<Params>, res: seq<Entry>, remaining: nat)
    requires Consistent(f, res)
    ensures Consistent(f, Drive(f, suggest, queue, res, remaining).0)
    decreases |queue|, remaining
  {
    if |queue| > 0 {
      if f(queue[0]).Ok? {
        DriveConsistent(f, suggest, queue[1..], res + [Entry(queue[0], f(queue[0]).value)], remaining);
      }
    } else if remaining > 0 {
      var p := suggest(res);
      if f(p).Ok? {
        DriveConsistent(f, suggest, [], res + [Entry(p, f(p).value)], remaining - 1);
      }
    }
  }

  /** Because the defaults are probed first, the best target of a completed run is at least the
      defaults' own score: calibration never ends worse than the defaults. */
  lemma BestNoWorseThanDefaults(f: Params -> Result<Float, BuildError>, suggest: seq<Entry> -> Params,
                                randomSample: nat -> Params, defaults: Params, initPoints: nat, nIter: nat)
    requires NaNFree(f)
    ensures var (out, _, err) := ProbeAndMaximize(f, suggest, randomSample, defaults, initPoints, nIter);
      NoNaN(out) && (|out| > 0 ==> f(defaults).Ok? && Le(f(defaults).value, Max(out).value.target))
  {
    var queue := [defaults] + Draws(randomSample, 0, InitCount([defaults], [], initPoints));
    ProbeThenMaximize(f, suggest, randomSample, defaults, initPoints, nIter);
    DriveNoNaN(f, suggest, queue, [], nIter);
  }
}
