/**
 * WakeModelBuilder of data/calibration_prompt/claude_3.7/code_2.py: a pure dispatch from
 * (configuration, parameter vector) to the three sub-model specifications handed to the
 * simulation engine.  A dictionary lookup of a missing key raises KeyError; here it is an
 * `Err(MissingKey(name))` naming the first key read that is absent.
 */
module WakeBuilder {
  import opened Wrappers
  import opened WakeConfig

  datatype GroundModel = NoGround | Mirror

  /** Wake deficit sub-models.  TurboGaussian always uses ct2a_mom1d and the 'WS_jlk' key. */
  datatype DeficitSpec =
    | BlondelSuperGaussian(args: Params)
    | TurboGaussian(a: real, cTI: seq<real>, ctlim: real, ceps: real,
                    ground: GroundModel, gaussianOverlap: bool)

  datatype SelfSimilarityArgs = SelfSimilarityArgs(ssAlpha: real, ssBeta: real, r12p: seq<real>, ngp: seq<real>)

  /** SelfSimilarityDeficit2020 with optional parameter overrides and ground model. */
  datatype BlockageSpec = SelfSimilarity(args: Option<SelfSimilarityArgs>, ground: GroundModel)

  /** CrespoHernandez with an optional coefficient vector c. */
  datatype TurbulenceSpec = CrespoHernandez(c: Option<seq<real>>)

  /** All2AllIterative with LinearSum superposition and no deflection model. */
  datatype WindFarmSpec = All2AllIterative(deficit: DeficitSpec, blockage: BlockageSpec, turbulence: TurbulenceSpec)

  /** The KeyError of a dictionary lookup. */
  datatype BuildError = MissingKey(key: string)

  /** The unparametrised model used for the reference simulation. */
  const Baseline := All2AllIterative(BlondelSuperGaussian(map[]), SelfSimilarity(None, NoGround), CrespoHernandez(None))

  const BlondelKeys := ["a_s", "b_s", "c_s", "b_f", "c_f"]
  const TurboKeys := ["A", "cti1", "cti2", "ctlim", "ceps"]
  const BlockageKeys := ["ss_alpha", "ss_beta", "rp1", "rp2", "ng1", "ng2", "ng3", "ng4"]
  const TurbulenceKeys := ["ch1", "ch2", "ch3", "ch4"]

  predicate AllIn(p: Params, keys: seq<string>)
  {
    forall k :: k in keys ==> k in p
  }

  /** `k` is the first key of `keys` (in reading order) that `p` lacks. */
  predicate FirstMissing(p: Params, keys: seq<string>, k: string)
  {
    exists i :: 0 <= i < |keys| && keys[i] == k && k !in p && AllIn(p, keys[..i])
  }

  /** params[k] */
  function Get(p: Params, k: string): Result<real, BuildError>
  {
    if k in p then Ok(p[k]) else Err(MissingKey(k))
  }

  /** The values of `keys`, read in order; the first absent key raises. */
  function GetAll(p: Params, keys: seq<string>): (r: Result<seq<real>, BuildError>)
    ensures r.Ok? <==> AllIn(p, keys)
    ensures r.Ok? ==> |r.value| == |keys| && forall i :: 0 <= i < |keys| ==> r.value[i] == p[keys[i]]
    ensures r.Err? ==> FirstMissing(p, keys, r.error.key)
  {
    if |keys| == 0 then Ok([])
    else
      var x :- Get(p, keys[0]);
      var rest := GetAll(p, keys[1..]);
      assert keys == [keys[0]] + keys[1..];
      if rest.Err? then
        var i :| 0 <= i < |keys[1..]| && keys[1..][i] == rest.error.key && rest.error.key !in p
                 && AllIn(p, keys[1..][..i]);
        assert keys[..i + 1] == [keys[0]] + keys[1..][..i];
        Err(rest.error)
      else
        Ok([x] + rest.value)
  }

  /** `params=None` means the configuration's defaults. */
  function Resolve(c: Config, params: Option<Params>): Params
  {
    if params.Some? then params.value else c.defaults
  }

  /** build_wake_deficit_model */
  function BuildWakeDeficit(c: Config, params: Option<Params>): (r: Result<DeficitSpec, BuildError>)
    ensures var p := Resolve(c, params);
      && (!c.downwind ==> r == Ok(BlondelSuperGaussian(map[])))
      && (c.downwind && c.model == 1 ==>
            && (r.Ok? <==> AllIn(p, BlondelKeys))
            && (r.Ok? ==> && r.value.BlondelSuperGaussian?
                          && r.value.args.Keys == {"a_s", "b_s", "c_s", "b_f", "c_f"}
                          && forall k :: k in r.value.args ==> k in p && r.value.args[k] == p[k])
            && (r.Err? ==> FirstMissing(p, BlondelKeys, r.error.key)))
      && (c.downwind && c.model != 1 ==>
            && (r.Ok? <==> AllIn(p, TurboKeys))
            && (r.Ok? ==> r.value == TurboGaussian(p["A"], [p["cti1"], p["cti2"]], p["ctlim"], p["ceps"], Mirror, true))
            && (r.Err? ==> FirstMissing(p, TurboKeys, r.error.key)))
  {
    var p := Resolve(c, params);
    if c.downwind then
      if c.model == 1 then
        var vs :- GetAll(p, BlondelKeys);
        Ok(BlondelSuperGaussian(map k | k in BlondelKeys :: p[k]))
      else
        var vs :- GetAll(p, TurboKeys);
        Ok(TurboGaussian(vs[0], [vs[1], vs[2]], vs[3], vs[4], Mirror, true))
    else
      Ok(BlondelSuperGaussian(map[]))
  }

  /** build_blockage_deficit_model */
  function BuildBlockage(c: Config, params: Option<Params>): (r: Result<BlockageSpec, BuildError>)
    ensures var p := Resolve(c, params);
      && (c.downwind ==> r == Ok(SelfSimilarity(None, Mirror)))
      && (!c.downwind ==>
            && (r.Ok? <==> AllIn(p, BlockageKeys))
            && (r.Ok? ==> r.value == SelfSimilarity(
                  Some(SelfSimilarityArgs(p["ss_alpha"], p["ss_beta"], [p["rp1"], p["rp2"]],
                                          [p["ng1"], p["ng2"], p["ng3"], p["ng4"]])),
                  if c.model == 2 then Mirror else NoGround))
            && (r.Err? ==> FirstMissing(p, BlockageKeys, r.error.key)))
  {
    var p := Resolve(c, params);
    if !c.downwind then
      var vs :- GetAll(p, BlockageKeys);
      Ok(SelfSimilarity(Some(SelfSimilarityArgs(vs[0], vs[1], [vs[2], vs[3]], [vs[4], vs[5], vs[6], vs[7]])),
                        if c.model == 2 then Mirror else NoGround))
    else
      Ok(SelfSimilarity(None, Mirror))
  }

  /** build_turbulence_model */
  function BuildTurbulence(c: Config, params: Option<Params>): (r: Result<TurbulenceSpec, BuildError>)
    ensures var p := Resolve(c, params);
      && (!c.downwind ==> r == Ok(CrespoHernandez(None)))
      && (c.downwind ==>
            && (r.Ok? <==> AllIn(p, TurbulenceKeys))
            && (r.Ok? ==> r.value == CrespoHernandez(Some([p["ch1"], p["ch2"], p["ch3"], p["ch4"]])))
            && (r.Err? ==> FirstMissing(p, TurbulenceKeys, r.error.key)))
  {
    var p := Resolve(c, params);
    if c.downwind then
      var vs :- GetAll(p, TurbulenceKeys);
      assert vs == [p["ch1"], p["ch2"], p["ch3"], p["ch4"]];
      Ok(CrespoHernandez(Some(vs)))
    else
      Ok(CrespoHernandez(None))
  }

  /** The keys build_wind_farm_model reads, in the order it reads them. */
  function RequiredKeys(c: Config): seq<string>
  {
    if c.downwind then (if c.model == 1 then BlondelKeys else TurboKeys) + TurbulenceKeys
    else BlockageKeys
  }

  /** build_wind_farm_model: deficit, then blockage, then turbulence. */
  function BuildWindFarm(c: Config, params: Option<Params>): (r: Result<WindFarmSpec, BuildError>)
    ensures r.Ok? <==> AllIn(Resolve(c, params), RequiredKeys(c))
    ensures r.Err? ==> FirstMissing(Resolve(c, params), RequiredKeys(c), r.error.key)
    ensures r.Ok? ==> && BuildWakeDeficit(c, params) == Ok(r.value.deficit)
                      && BuildBlockage(c, params) == Ok(r.value.blockage)
                      && BuildTurbulence(c, params) == Ok(r.value.turbulence)
  {
    var p := Resolve(c, params);
    var d := BuildWakeDeficit(c, params);
    var b := BuildBlockage(c, params);
    var t := BuildTurbulence(c, params);
    if c.downwind then
      var keys := if c.model == 1 then BlondelKeys else TurboKeys;
      AllInAppend(p, keys, TurbulenceKeys);
      if d.Err? then
        FirstMissingAppendLeft(p, keys, TurbulenceKeys, d.error.key);
        Err(d.error)
      else if t.Err? then
        FirstMissingAppendRight(p, keys, TurbulenceKeys, t.error.key);
        Err(t.error)
      else
        Ok(All2AllIterative(d.value, b.value, t.value))
    else
      var b' :- b;
      Ok(All2AllIterative(d.value, b', t.value))
  }

  lemma AllInAppend(p: Params, a: seq<string>, b: seq<string>)
    ensures AllIn(p, a + b) <==> AllIn(p, a) && AllIn(p, b)
  {
  }

  lemma FirstMissingAppendLeft(p: Params, a: seq<string>, b: seq<string>, k: string)
    requires FirstMissing(p, a, k)
    ensures FirstMissing(p, a + b, k)
  {
    var i :| 0 <= i < |a| && a[i] == k && k !in p && AllIn(p, a[..i]);
    assert (a + b)[i] == k && (a + b)[..i] == a[..i];
  }

  lemma FirstMissingAppendRight(p: Params, a: seq<string>, b: seq<string>, k: string)
    requires AllIn(p, a) && FirstMissing(p, b, k)
    ensures FirstMissing(p, a + b, k)
  {
    var i :| 0 <= i < |b| && b[i] == k && k !in p && AllIn(p, b[..i]);
    assert (a + b)[|a| + i] == k;
    assert (a + b)[..|a| + i] == a + b[..i];
    AllInAppend(p, a, b[..i]);
  }

  /** Parameter vectors that agree on the keys a configuration reads build the same model:
      whatever else a vector holds (fg1 to fg4, say) is never read. */
  lemma BuildReadsOnlyRequired(c: Config, p: Params, q: Params)
    requires forall k :: k in RequiredKeys(c) ==> (k in p <==> k in q) && (k in p ==> p[k] == q[k])
    ensures BuildWindFarm(c, Some(p)) == BuildWindFarm(c, Some(q))
  {
    var keys := RequiredKeys(c);
    assert AllIn(p, keys) <==> AllIn(q, keys);
    if AllIn(p, keys) {
      DeficitReadsOnlyRequired(c, p, q);
      BlockageReadsOnlyRequired(c, p, q);
      TurbulenceReadsOnlyRequired(c, p, q);
    } else {
      var rp, rq := BuildWindFarm(c, Some(p)), BuildWindFarm(c, Some(q));
      FirstMissingUnique(p, q, keys, rp.error.key, rq.error.key);
    }
  }

  lemma BlockageReadsOnlyRequired(c: Config, p: Params, q: Params)
    requires AllIn(p, RequiredKeys(c)) && AllIn(q, RequiredKeys(c))
    requires forall k :: k in RequiredKeys(c) ==> p[k] == q[k]
    ensures BuildBlockage(c, Some(p)) == BuildBlockage(c, Some(q))
  {
  }

  lemma TurbulenceReadsOnlyRequired(c: Config, p: Params, q: Params)
    requires AllIn(p, RequiredKeys(c)) && AllIn(q, RequiredKeys(c))
    requires forall k :: k in RequiredKeys(c) ==> p[k] == q[k]
    ensures BuildTurbulence(c, Some(p)) == BuildTurbulence(c, Some(q))
  {
    if c.downwind {
      AllInAppend(p, if c.model == 1 then BlondelKeys else TurboKeys, TurbulenceKeys);
      AllInAppend(q, if c.model == 1 then BlondelKeys else TurboKeys, TurbulenceKeys);
    }
  }

  lemma DeficitReadsOnlyRequired(c: Config, p: Params, q: Params)
    requires AllIn(p, RequiredKeys(c)) && AllIn(q, RequiredKeys(c))
    requires forall k :: k in RequiredKeys(c) ==> p[k] == q[k]
    ensures BuildWakeDeficit(c, Some(p)) == BuildWakeDeficit(c, Some(q))
  {
    if c.downwind && c.model == 1 {
      AllInAppend(p, BlondelKeys, TurbulenceKeys);
      AllInAppend(q, BlondelKeys, TurbulenceKeys);
      var dp, dq := BuildWakeDeficit(c, Some(p)).value, BuildWakeDeficit(c, Some(q)).value;
      assert dp.args == dq.args;
    } else if c.downwind {
      AllInAppend(p, TurboKeys, TurbulenceKeys);
      AllInAppend(q, TurboKeys, TurbulenceKeys);
    }
  }

  lemma FirstMissingUnique(p: Params, q: Params, keys: seq<string>, k1: string, k2: string)
    requires forall k :: k in keys ==> (k in p <==> k in q)
    requires FirstMissing(p, keys, k1) && FirstMissing(q, keys, k2)
    ensures k1 == k2
  {
    var i :| 0 <= i < |keys| && keys[i] == k1 && k1 !in p && AllIn(p, keys[..i]);
    var j :| 0 <= j < |keys| && keys[j] == k2 && k2 !in q && AllIn(q, keys[..j]);
    assert !(keys[i] in keys[..j]) && !(keys[j] in keys[..i]);
  }

  /** Each of the three calibratable configurations builds from its own defaults, but family 2
      upwind does not: its defaults lack 'ss_alpha', the first key the upwind blockage reads. */
  lemma BuildFromDefaults(model: int, downwind: bool)
    requires model == 1 || model == 2
    ensures var r := BuildWindFarm(NewConfig(model, downwind).value, None);
      && (model == 2 && !downwind ==> r == Err(MissingKey("ss_alpha")))
      && (model == 1 || downwind ==> r.Ok?)
  {
    var c := NewConfig(model, downwind).value;
    var r := BuildWindFarm(c, None);
    if model == 2 && !downwind {
      assert "ss_alpha" !in c.defaults;
      FirstMissingHead(c.defaults, BlockageKeys, r.error.key);
    } else if model == 1 && !downwind {
      assert AllIn(c.defaults, BlockageKeys);
    } else if model == 1 {
      assert AllIn(c.defaults, RequiredKeys(c));
    } else {
      assert AllIn(c.defaults, RequiredKeys(c));
    }
  }

  lemma FirstMissingHead(p: Params, keys: seq<string>, k: string)
    requires |keys| > 0 && keys[0] !in p && FirstMissing(p, keys, k)
    ensures k == keys[0]
  {
    var i :| 0 <= i < |keys| && keys[i] == k && k !in p && AllIn(p, keys[..i]);
  }

  /** The optimizer proposes vectors with exactly the bound keys.  For family 2 upwind every
      such vector fails on 'ss_alpha'; for the other three configurations every one builds. */
  lemma BuildFromCandidates(model: int, downwind: bool, p: Params)
    requires model == 1 || model == 2
    requires p.Keys == NewConfig(model, downwind).value.pbounds.Keys
    ensures var r := BuildWindFarm(NewConfig(model, downwind).value, Some(p));
      && (model == 2 && !downwind ==> r == Err(MissingKey("ss_alpha")))
      && (model == 1 || downwind ==> r.Ok?)
  {
    var c := NewConfig(model, downwind).value;
    var r := BuildWindFarm(c, Some(p));
    if model == 2 && !downwind {
      assert "ss_alpha" !in c.pbounds;
      FirstMissingHead(p, BlockageKeys, r.error.key);
    } else {
      assert AllIn(p, RequiredKeys(c));
    }
  }
}
