# Wake-model calibration and Sobol propagation, modelled in Dafny

This project models two parts of a PyWake study.

The first part is calibration. It fits the parameters of an engineering wake model to reference wake
deficits (the DTU 10 MW dataset). It exists in two variants, both modelled:

- the class-based script `data/calibration_prompt/claude_3.7/code_2.py`. It has a configuration, a
  model builder, an optimizer wrapper and an analyzer;
- the single-class script `data/calibration_prompt/claude_3.7/code_5.py`.

The second part is Sobol propagation: the bookkeeping around `saltelli.sample` and `sobol.analyze`
when measurement uncertainty is propagated through a PyWake flow map. It also exists in two
variants, both modelled:

- the time-dependent analysis `data/propagation_prompt/claude_3.7/code_1.py`;
- the single-run sensitivity map `data/propagation_prompt/claude_3.7/code_5.py`.

Modules (one file each):

- `Wrappers` (`wrappers.dfy`): `Option` and `Result` with the error paths of the scripts.
- `Floats` (`floats.dfy`): IEEE doubles as `Fin(real) | Inf(neg) | NaN`. It holds the numpy
  mean (NaN propagates) and the xarray mean (NaN is skipped). `np.sqrt` is a parameter `sqrt`
  constrained by `IsSqrt`.
- `WakeConfig` (`config.dfy`): `WakeModelConfig`. This covers model-type validation, the region of
  interest and the default and bound tables of both model families.
- `WakeBuilder` (`builder.dfy`): `WakeModelBuilder`. A built model is a value describing its wake
  deficit, blockage and turbulence components. A missing parameter is a `KeyError`, the first key
  read that is absent.
- `Conditions` (`conditions.dfy`): the grid of wind speed × turbulence intensity conditions.
- `Search` (`search.dfy`): the part of `BayesianOptimization` the scripts rely on. This is
  `probe(lazy=True)`, `maximize`, `res` and `max`. Random draws and the Gaussian-process proposal
  are function parameters.
- `Objective` (`objective.dfy`): `evaluate_rmse`. It computes per-condition RMSE, then the mean
  over conditions, with the −0.5 sentinel for NaN. PyWake's simulation and the dataset
  interpolation are an `Engine` parameter.
- `Analysis` (`analysis.dfy`): the convergence frames of the animation, `analyze_errors` and the
  parameter comparison rows.
- `SplitCalibration` (`calibration_split.dfy`): the optimizer and analyzer classes of `code_2.py`.
- `SingleCalibration` (`calibration_single.dfy`): the `WakeModelOptimizer` class of `code_5.py`.
- `Sensitivity` (`sensitivity.dfy`): the SALib problem table, rectangular flow grids,
  `np.argmax` and spatial means. Both propagation scripts share these.
- `SobolTime` (`sobol_time.dfy`): the propagation script `code_1.py`.
- `SobolMap` (`sobol_map.dfy`): the propagation script `code_5.py`.

## Model

| member | source | states |
|---|---|---|
| WakeConfig.NewConfig | data/calibration_prompt/claude_3.7/code_2.py:26-52 | fails with ValueError exactly when the model type is not 1 or 2; otherwise the region bounds are (2, 10) downwind and (−2, −1) upwind, and the defaults and bounds form a well-formed table |
| WakeConfig.TablesWellFormed | data/calibration_prompt/claude_3.7/code_2.py:54-124 | for both model families and both directions, every default lies inside its bound and every bound has lower < upper |
| WakeConfig.Family1DownwindTable | data/calibration_prompt/claude_3.7/code_2.py:56-72 | the family-1 downwind defaults lie inside their bounds |
| WakeConfig.Family1UpwindTable | data/calibration_prompt/claude_3.7/code_2.py:73-101 | the family-1 upwind defaults lie inside their bounds |
| WakeConfig.Family2Table | data/calibration_prompt/claude_3.7/code_2.py:102-124 | the family-2 defaults lie inside their bounds in either direction |
| WakeConfig.Family2IgnoresDirection | data/calibration_prompt/claude_3.7/code_2.py:102-124 | family 2 has one table, whatever the direction |
| WakeConfig.RegionOfInterest | data/calibration_prompt/claude_3.7/code_2.py:693-695 | for any rotor diameter D: x ∈ [2D, 10D] downwind and [−2D, −D] upwind, y ∈ [−2D, 2D]; the region is non-empty, symmetric in y, past the rotor downwind (ending at 5× its start) and before it upwind (starting at 2× its end) |
| WakeConfig.RoiForHundredMetreRotor | data/calibration_prompt/claude_3.7/code_2.py:693-695 | for D = 100 m the region is x ∈ [200, 1000] downwind and [−200, −100] upwind, y ∈ [−200, 200] |
| WakeBuilder.GetAll | data/calibration_prompt/claude_3.7/code_2.py:165 | reading a list of keys succeeds iff every key is present, yields their values in order, and otherwise reports the first missing key |
| WakeBuilder.BuildWakeDeficit | data/calibration_prompt/claude_3.7/code_2.py:147-181 | upwind: the default Blondel deficit; downwind family 1: Blondel with exactly the five a_s…c_f arguments; downwind family 2: TurboGaussian from A, cti1, cti2, ctlim, ceps with the Mirror ground model; it fails iff a key is missing, reporting the first |
| WakeBuilder.BuildBlockage | data/calibration_prompt/claude_3.7/code_2.py:183-212 | downwind: self-similarity with Mirror ground; upwind: self-similarity from ss_alpha, ss_beta, rp1–rp2 and ng1–ng4, with Mirror only for family 2; fails iff a key is missing |
| WakeBuilder.BuildTurbulence | data/calibration_prompt/claude_3.7/code_2.py:214-234 | downwind: Crespo-Hernandez from ch1–ch4; upwind: the default; fails iff a key is missing |
| WakeBuilder.BuildWindFarm | data/calibration_prompt/claude_3.7/code_2.py:236-261 | succeeds iff every required key is present (None means the defaults); it reports the first missing key in the order deficit, blockage, turbulence; a success is made of the three component builds |
| WakeBuilder.BuildReadsOnlyRequired | data/calibration_prompt/claude_3.7/code_2.py:147-261 | two parameter maps that agree on the required keys build the same model, error included |
| WakeBuilder.BlockageReadsOnlyRequired | data/calibration_prompt/claude_3.7/code_2.py:183-212 | the blockage depends only on the required keys |
| WakeBuilder.TurbulenceReadsOnlyRequired | data/calibration_prompt/claude_3.7/code_2.py:214-234 | the turbulence depends only on the required keys |
| WakeBuilder.DeficitReadsOnlyRequired | data/calibration_prompt/claude_3.7/code_2.py:147-181 | the wake deficit depends only on the required keys |
| WakeBuilder.FirstMissingUnique | data/calibration_prompt/claude_3.7/code_2.py:236-251 | the reported KeyError is determined by which keys are present |
| WakeBuilder.BuildFromDefaults | data/calibration_prompt/claude_3.7/code_2.py:160-161 | building with no parameters succeeds for every configuration except upwind family 2, whose defaults lack ss_alpha (KeyError) |
| WakeBuilder.BuildFromCandidates | data/calibration_prompt/claude_3.7/code_2.py:339-350 | a candidate holding exactly the bounded keys builds, except upwind family 2, which fails on ss_alpha |
| Conditions.Replicate | data/calibration_prompt/claude_3.7/code_2.py:299 | `[ws] * n` has n copies of ws |
| Conditions.RepeatEachAt | data/calibration_prompt/claude_3.7/code_2.py:297-299 | entry k of the expanded wind speeds is wind speed k div \|ti\| |
| Conditions.TileAt | data/calibration_prompt/claude_3.7/code_2.py:297-298 | entry k of the expanded intensities is intensity k mod \|ti\| |
| Conditions.RepeatEachClosedForm | data/calibration_prompt/claude_3.7/code_5.py:80-81 | every expanded wind speed is the one at index k div n |
| Conditions.TileClosedForm | data/calibration_prompt/claude_3.7/code_5.py:77-78 | every expanded intensity is the one at index k mod \|ti\| |
| Conditions.ExpandConditions | data/calibration_prompt/claude_3.7/code_2.py:294-303 | the loop builds both arrays with equal length \|ws\|·\|ti\|, pairing every wind speed with every intensity |
| Conditions.CalibrationGrid | data/calibration_prompt/claude_3.7/code_5.py:73-83 | the 7 wind speeds and 8 intensities give 56 conditions; condition 8 is (5 m/s, 0.05) and the last intensity is 0.40 |
| Search.Draws | data/calibration_prompt/claude_3.7/code_2.py:403-410 | the initial random points are consecutive draws of the seeded generator |
| Search.InitCount | data/calibration_prompt/claude_3.7/code_2.py:410 | at least init_points random points are drawn, and one more only when nothing is queued, observed or requested |
| Search.DriveTrace | data/calibration_prompt/claude_3.7/code_2.py:409-410 | maximize keeps the earlier trace, evaluates the queue in order and then n_iter proposals; it stops at the first KeyError, which it reports |
| Search.DriveNoNaN | data/calibration_prompt/claude_3.7/code_2.py:382-385 | an objective that never returns NaN leaves a NaN-free trace |
| Search.BestIndex | data/calibration_prompt/claude_3.7/code_2.py:441-442 | optimizer.max is the first entry with the largest target |
| Search.Max | data/calibration_prompt/claude_3.7/code_5.py:325-326 | optimizer.max is absent only for an empty trace; otherwise it is an entry of the trace and no entry has a larger target |
| Search.BayesianOptimization.Probe | data/calibration_prompt/claude_3.7/code_2.py:409 | a lazy probe only queues the point |
| Search.BayesianOptimization.Maximize | data/calibration_prompt/claude_3.7/code_2.py:410 | it draws the initial points after the queue and then runs the search loop from the old trace |
| Search.ProbeThenMaximize | data/calibration_prompt/claude_3.7/code_2.py:403-410 | the defaults are evaluated first; a completed run has 1 + init_points + n_iter entries; a default that fails to build aborts the run with its KeyError |
| Search.ProbeAndRun | data/calibration_prompt/claude_3.7/code_2.py:403-410 | a fresh optimizer over the given objective and bounds whose trace, pending queue and outcome are those of probing the defaults and then maximizing |
| Search.DriveConsistent | data/calibration_prompt/claude_3.7/code_2.py:387-410 | every recorded target is the objective's value at the recorded parameters |
| Search.BestNoWorseThanDefaults | data/calibration_prompt/claude_3.7/code_5.py:312-326 | the best target is at least the target of the probed defaults |
| Objective.PredictedDeficit | data/calibration_prompt/claude_3.7/code_2.py:379 | pred = (WS − WS_eff)/WS per cell; NaN exactly where WS_eff is NaN (for WS ≠ 0) |
| Objective.Differences | data/calibration_prompt/claude_3.7/code_2.py:380 | obs − pred per cell; NaN exactly where either side is NaN or the two sides are the same infinity |
| Objective.Squares | data/calibration_prompt/claude_3.7/code_2.py:380 | squared differences are non-negative and NaN exactly where the difference is |
| Objective.ConditionRmse | data/calibration_prompt/claude_3.7/code_2.py:380 | the RMSE of one condition is non-negative; it is NaN iff every cell is NaN |
| Objective.ConditionRmses | data/calibration_prompt/claude_3.7/code_2.py:380 | one RMSE per condition, in order |
| Objective.TwoStageRmse | data/calibration_prompt/claude_3.7/code_2.py:380 | the mean over conditions is non-negative and NaN iff every cell of every condition is NaN |
| Objective.Score | data/calibration_prompt/claude_3.7/code_2.py:382-385 | the score is never NaN: −0.5 for NaN, otherwise the negated RMSE; infinity is not caught |
| Objective.ScoreFields | data/calibration_prompt/claude_3.7/code_2.py:379-385 | a score is ≤ 0 or −∞; it is −0.5 when every residual is NaN |
| Objective.ObservedAt | data/calibration_prompt/claude_3.7/code_2.py:308-337 | observation t is the dataset deficit at the operating point (CT, TI) of condition t |
| Objective.ScoreModel | data/calibration_prompt/claude_3.7/code_2.py:352-385 | on at least one condition, a simulated model's score is ≤ 0 or −∞, and it is −0.5 when every residual is NaN |
| Objective.EvaluateRmse | data/calibration_prompt/claude_3.7/code_2.py:339-385 | on a grid of at least one condition (the constructor's `xr.concat` raises on none): fails iff the model fails to build, with the build's KeyError; otherwise it is the built model's score |
| Objective.ObservedValues | data/calibration_prompt/claude_3.7/code_2.py:327-337 | the loop collects the observation of every condition, in order |
| Objective.CollectFlowMap | data/calibration_prompt/claude_3.7/code_2.py:365-376 | the concatenation loop yields every condition's field in order; it yields None only when there are no conditions |
| Objective.GridValues | data/calibration_prompt/claude_3.7/code_2.py:380 | a finite residual grid has a real value per cell |
| Objective.SquaresFinite | data/calibration_prompt/claude_3.7/code_2.py:380 | on finite residuals the squares are the real squares |
| Objective.ConditionRmseFinite | data/calibration_prompt/claude_3.7/code_2.py:380 | on finite residuals the condition RMSE is the real sqrt(mean(d²)) |
| Objective.ConditionRmsesFinite | data/calibration_prompt/claude_3.7/code_2.py:380 | on finite residuals every condition RMSE is finite and real |
| Objective.ScoreOnFiniteResiduals | data/calibration_prompt/claude_3.7/code_2.py:380-385 | on finite residuals the score is minus the real two-stage RMSE |
| Objective.ConditionRmseInfinite | data/calibration_prompt/claude_3.7/code_2.py:380 | an infinite residual among non-NaN ones gives an infinite RMSE |
| Objective.InfiniteResidualScoresMinusInfinity | data/calibration_prompt/claude_3.7/code_2.py:380-385 | an infinite residual among non-NaN ones scores −∞; the sentinel does not catch it |
| Analysis.RunningBest | data/calibration_prompt/claude_3.7/code_2.py:464-472 | the running best is never NaN |
| Analysis.LastBest | data/calibration_prompt/claude_3.7/code_2.py:468-470 | the entry shown is the last one attaining the running best; none exists only while the best is +∞ |
| Analysis.ConvergenceFrame | data/calibration_prompt/claude_3.7/code_2.py:459-472 | a frame holds frame + 1 values; value i is the running best of the first i + 1 entries, shown with that best's parameters |
| Analysis.RunningBestNonIncreasing | data/calibration_prompt/claude_3.7/code_2.py:468-472 | the convergence curve never rises |
| Analysis.RunningBestIsMinimum | data/calibration_prompt/claude_3.7/code_5.py:356-360 | the running best is at most every negated non-NaN target seen; it is one of them or +∞ |
| Analysis.RunningBestParamsLaterWins | data/calibration_prompt/claude_3.7/code_2.py:468-470 | because of `<=`, the parameters shown belong to the last entry attaining the best |
| Analysis.FinalRunningBestIsBestRmse | data/calibration_prompt/claude_3.7/code_2.py:441-442 | the end of the curve is best_rmse = −max target |
| Analysis.TieShowsLaterEntry | data/calibration_prompt/claude_3.7/code_2.py:468-470 | on a tie the animation shows the later parameters while optimizer.max keeps the earlier |
| Analysis.ParameterRows | data/calibration_prompt/claude_3.7/code_2.py:658-664 | the rows exist iff every key of best_params has a default; row i pairs best and default values of key i; otherwise KeyError on the first key without a default |
| Analysis.AbsAll | data/calibration_prompt/claude_3.7/code_2.py:578 | absolute errors are non-negative and NaN exactly where the difference is |
| Analysis.CaseMae | data/calibration_prompt/claude_3.7/code_2.py:578 | the MAE is non-negative and NaN iff every cell is NaN |
| Analysis.RealAbsAll | data/calibration_prompt/claude_3.7/code_2.py:578 | the real absolute values, element by element |
| Analysis.SumTriangle | data/calibration_prompt/claude_3.7/code_2.py:578-579 | \|Σx\| ≤ Σ\|x\| |
| Analysis.BiasBoundedByMae | data/calibration_prompt/claude_3.7/code_2.py:578-579 | whenever some cell is not NaN and those cells are finite, \|bias\| ≤ MAE; NaN cells are skipped by both |
| Analysis.ErrorStatistics | data/calibration_prompt/claude_3.7/code_2.py:559-607 | on at least one condition (`np.concatenate` of none raises): per condition the Objective's RMSE, the MAE and the bias; the means of the three lists; the pooled absolute errors |
| Analysis.CaseStatistics | data/calibration_prompt/claude_3.7/code_2.py:565-583 | one rmse, mae and bias per condition, in condition order: the Objective's RMSE of the condition, its NaN-skipping mean absolute error and its NaN-skipping mean error |
| Analysis.PooledErrors | data/calibration_prompt/claude_3.7/code_2.py:584-597 | the absolute errors of every condition, flattened and concatenated in condition order |
| Analysis.PooledCells | data/calibration_prompt/claude_3.7/code_2.py:584-597 | one non-negative pooled error per cell of every condition |
| Analysis.ModelResiduals | data/calibration_prompt/claude_3.7/code_2.py:544-574 | one residual field per condition |
| Analysis.ListMeanIsAggregate | data/calibration_prompt/claude_3.7/code_2.py:600 | when no condition is all NaN, mean_rmse equals the objective's aggregate RMSE |
| Analysis.AnalysisMatchesObjective | data/calibration_prompt/claude_3.7/code_2.py:514-607 | at the baseline operating points, mean_rmse is minus the objective's score of the same model |
| Analysis.ScoredNaNFree | data/calibration_prompt/claude_3.7/code_2.py:382-385 | the objective never yields NaN |
| Analysis.BestEntryIsScored | data/calibration_prompt/claude_3.7/code_2.py:441-442 | the best entry's parameters build, and its target is that model's score |
| Analysis.BestRmseReproduced | data/calibration_prompt/claude_3.7/code_2.py:718-733 | across the pipeline, best_rmse ≤ the defaults' RMSE; the best parameters build; and the analysis reproduces best_rmse at the baseline operating points |
| SplitCalibration.WakeModelOptimizer.constructor | data/calibration_prompt/claude_3.7/code_2.py:267-306 | stores the configuration and the expanded condition arrays |
| SplitCalibration.WakeModelOptimizer.EvaluateRmse | data/calibration_prompt/claude_3.7/code_2.py:339-385 | equals the Objective's evaluate_rmse on the optimizer's conditions |
| SplitCalibration.WakeModelOptimizer.Optimize | data/calibration_prompt/claude_3.7/code_2.py:387-412 | a fresh optimizer over evaluate_rmse and the configuration's bounds, probed with the defaults and then maximized |
| SplitCalibration.WakeModelAnalyzer.constructor | data/calibration_prompt/claude_3.7/code_2.py:418-442 | takes best_params and best_rmse from optimizer.max |
| SplitCalibration.WakeModelAnalyzer.AnalyzeErrors | data/calibration_prompt/claude_3.7/code_2.py:514-609 | on a non-empty grid, KeyError iff the best model fails to build; otherwise per-condition RMSE, MAE and bias of that model's residuals, the means of all three lists and the pooled absolute errors |
| SplitCalibration.EvaluateRmseScoresBuilds | data/calibration_prompt/claude_3.7/code_2.py:339-385 | evaluate_rmse is an objective that scores what build_wind_farm_model builds |
| SingleCalibration.SingleTablesMatchSplit | data/calibration_prompt/claude_3.7/code_5.py:115-186 | the bounds and defaults equal those of code_2.py, and every default lies inside its bound |
| SingleCalibration.SingleRegionOfInterest | data/calibration_prompt/claude_3.7/code_5.py:55-63 | the region equals the one code_2.py derives from its configuration |
| SingleCalibration.CreateWindFarmModel | data/calibration_prompt/claude_3.7/code_5.py:188-246 | builds iff every key it reads is present; otherwise KeyError on the first missing key; downwind blockage has no ground model |
| SingleCalibration.CreateMatchesSplitBuild | data/calibration_prompt/claude_3.7/code_5.py:188-246 | it builds exactly when code_2.py does, with the same deficit and turbulence; the blockage differs only downwind (no ground model against Mirror) |
| SingleCalibration.KeyOrderDiffers | data/calibration_prompt/claude_3.7/code_5.py:209-211 | with nothing given, the downwind family-2 KeyError names ch1 here but A in code_2.py |
| SingleCalibration.UnvalidatedModelType | data/calibration_prompt/claude_3.7/code_5.py:202-233 | a model type other than 1 or 2 is accepted here and behaves like family 2 downwind and family 1 upwind, while code_2.py rejects it |
| SingleCalibration.SingleEvaluateRmse | data/calibration_prompt/claude_3.7/code_5.py:248-293 | fails iff the model fails to build; otherwise the built model's score |
| SingleCalibration.SingleScoresBuilds | data/calibration_prompt/claude_3.7/code_5.py:248-293 | evaluate_rmse is an objective that scores what create_wind_farm_model builds |
| SingleCalibration.AsWrittenResiduals | data/calibration_prompt/claude_3.7/code_5.py:427-439 | one residual field per condition, predicted from the baseline flow map |
| SingleCalibration.AsWrittenIgnoresBestFlow | data/calibration_prompt/claude_3.7/code_5.py:436 | the evaluation as written does not depend on the best model's simulated flow |
| SingleCalibration.WitnessResiduals | data/calibration_prompt/claude_3.7/code_5.py:427-439 | on a one-cell example the as-written residual is 0 while the best model's is −0.1 |
| SingleCalibration.AsWrittenDiffersFromBestModel | data/calibration_prompt/claude_3.7/code_5.py:436-447 | on that example the as-written overall RMSE is sqrt(0), while the best model's own is sqrt(0.01) > 0 |
| SingleCalibration.WakeModelOptimizer.constructor | data/calibration_prompt/claude_3.7/code_5.py:26-83 | sets the region bounds by direction, the region of interest, the expanded conditions and the tables |
| SingleCalibration.WakeModelOptimizer.EvaluateRmse | data/calibration_prompt/claude_3.7/code_5.py:248-293 | equals SingleEvaluateRmse on the object's conditions |
| SingleCalibration.WakeModelOptimizer.RunOptimization | data/calibration_prompt/claude_3.7/code_5.py:295-331 | a fresh optimizer over evaluate_rmse, probed with the defaults and maximized; on success best_params and best_rmse come from optimizer.max; on KeyError they are unchanged |
| SingleCalibration.CompletedRunHasBest | data/calibration_prompt/claude_3.7/code_5.py:312-326 | a run that ends without KeyError leaves a non-empty trace with no NaN target, so optimizer.max is defined |
| SingleCalibration.WakeModelOptimizer.RmseValues | data/calibration_prompt/claude_3.7/code_5.py:425-441 | one RMSE per condition, from the given predicted flow |
| SingleCalibration.WakeModelOptimizer.EvaluateBestModelAsWritten | data/calibration_prompt/claude_3.7/code_5.py:401-456 | as written: the RMSEs of the baseline flow against the best model's observations, and their mean |
| SingleCalibration.WakeModelOptimizer.EvaluateBestModel | data/calibration_prompt/claude_3.7/code_5.py:401-456 | corrected: the RMSEs of the best model's own residuals and their mean; this is the same quantity as analyze_errors of code_2.py |
| Sensitivity.SameMaps | data/propagation_prompt/claude_3.7/code_1.py:95-96 | two index arrays of one shape that agree at every cell are equal |
| Sensitivity.ArgMax | data/propagation_prompt/claude_3.7/code_1.py:147 | np.argmax gives the first NaN if there is one, otherwise the first maximum |
| Sensitivity.Ravel | data/propagation_prompt/claude_3.7/code_1.py:294 | the C-order ravel has one entry per cell |
| Sensitivity.AverageS1 | data/propagation_prompt/claude_3.7/code_1.py:294 | the spatial mean of each parameter's S1 map, with NaN propagating |
| Sensitivity.AtCell | data/propagation_prompt/claude_3.7/code_1.py:147 | the indices of all parameters at one cell |
| Sensitivity.DominantMap | data/propagation_prompt/claude_3.7/code_1.py:147 | each cell holds the argmax of its parameters' indices, which is a valid parameter index |
| Sensitivity.MeanOfFinite | data/propagation_prompt/claude_3.7/code_1.py:294 | the mean of finite values in [lo, hi] is finite and in [lo, hi] |
| Sensitivity.Column | data/propagation_prompt/claude_3.7/code_1.py:102 | ws_eff_all[:, i, j] is cell (i, j) of every sample, in order |
| Sensitivity.Contents | data/propagation_prompt/claude_3.7/code_1.py:95-96 | the sequence view of a (parameter, y, x) array is value for value the array |
| SobolTime.SetupProblem | data/propagation_prompt/claude_3.7/code_1.py:25-37 | four named parameters, each with a non-empty interval |
| SobolTime.TimeStepProblem | data/propagation_prompt/claude_3.7/code_1.py:205-214 | wind speed ±2 and direction ±20 around nominal; TI within [0.01, 0.3] and shear within [0.01, 0.4], at most 0.1 and 0.2 wide, holding an in-range nominal |
| SobolTime.TimeStepProblemWellFormed | data/propagation_prompt/claude_3.7/code_1.py:211-212 | the clamped intervals are non-empty iff −0.04 < TI < 0.35 and −0.09 < shear < 0.5 |
| SobolTime.DailyProblemsWellFormed | data/propagation_prompt/claude_3.7/code_1.py:186-214 | every time step of the daily curves gets a well-formed problem whose TI and shear intervals hold the nominal values |
| SobolTime.Zeros | data/propagation_prompt/claude_3.7/code_1.py:75 | a zero grid of the requested shape |
| SobolTime.Outputs | data/propagation_prompt/claude_3.7/code_1.py:81-85 | one flow field per sample, in sample order |
| SobolTime.RunModelSamples | data/propagation_prompt/claude_3.7/code_1.py:55-87 | the preallocated array ends up holding every sample's field, in sample order |
| SobolTime.IndexMap | data/propagation_prompt/claude_3.7/code_1.py:90-111 | cell (i, j) of parameter p is the S1 (or ST) that sobol.analyze gives for that cell's column |
| SobolTime.CalculateSobolIndices | data/propagation_prompt/claude_3.7/code_1.py:90-111 | the two arrays built by the nested loops equal the S1 and ST index maps |
| SobolTime.StoreCell | data/propagation_prompt/claude_3.7/code_1.py:108-109 | writes S1[:, i, j] and ST[:, i, j] and nothing else |
| SobolTime.TimeDependentAnalysis | data/propagation_prompt/claude_3.7/code_1.py:199-238 | one result per time step, in order, from that step's problem, samples and index maps |
| SobolTime.AverageSensitivities | data/propagation_prompt/claude_3.7/code_1.py:290-306 | one row per time result, with its time, its nominal and the spatial mean of each S1 map |
| SobolTime.DominantParameter | data/propagation_prompt/claude_3.7/code_1.py:370-375 | one of the four report names; without NaN, one with the largest average |
| SobolTime.AverageWithinRange | data/propagation_prompt/claude_3.7/code_1.py:294 | a parameter's average lies within the range of its map's cells |
| Sensitivity.RavelCells | data/propagation_prompt/claude_3.7/code_1.py:294 | the ravel of an ny × nx grid has ny·nx entries, each a cell of the grid |
| SobolMap.MapProblem | data/propagation_prompt/claude_3.7/code_5.py:71-80 | four named parameters, each with a non-empty interval |
| SobolMap.SeqMin | data/propagation_prompt/claude_3.7/code_5.py:104 | min(x) is an element no larger than any other |
| SobolMap.SeqMax | data/propagation_prompt/claude_3.7/code_5.py:104 | max(x) is an element no smaller than any other |
| SobolMap.GridExtent | data/propagation_prompt/claude_3.7/code_5.py:103-105 | the extent contains every turbine; it is twice the turbines' span wide, around the same centre |
| SobolMap.RunSamples | data/propagation_prompt/claude_3.7/code_5.py:122-145 | one field per sample, in order; pictures after exactly the samples i with i mod 10 = 0 or i last, in increasing order |
| SobolMap.UnravelFlat | data/propagation_prompt/claude_3.7/code_5.py:176-198 | np.unravel_index inverts the flat index of a C-order reshape |
| SobolMap.FlatUnravel | data/propagation_prompt/claude_3.7/code_5.py:176-198 | every flat index below nrows·ncols comes from the cell (j div ncols, j mod ncols) |
| SobolMap.RavelAt | data/propagation_prompt/claude_3.7/code_5.py:176 | entry r·ncols + c of the raveled grid is cell (r, c) |
| SobolMap.FlatColumn | data/propagation_prompt/claude_3.7/code_5.py:187 | Y_flat[:, j] has one value per sample |
| SobolMap.FlatColumnIsCell | data/propagation_prompt/claude_3.7/code_5.py:176-187 | the flat column of a cell is that cell's column |
| SobolMap.IntendedS1 | data/propagation_prompt/claude_3.7/code_5.py:185-198 | intended map: 0 where the cell's output is constant across samples, otherwise sobol.analyze's S1 for the cell's column |
| SobolMap.SensitivityMap | data/propagation_prompt/claude_3.7/code_5.py:179-198 | corrected loop: the array ends up equal to the intended map |
| SobolMap.FlatInjective | data/propagation_prompt/claude_3.7/code_5.py:198 | distinct cells have distinct flat indices |
| SobolMap.StoreS1 | data/propagation_prompt/claude_3.7/code_5.py:197-198 | writes S1[k, r, c] for every parameter k and nothing else |
| SobolMap.AsWrittenStore | data/propagation_prompt/claude_3.7/code_5.py:198 | as written: IndexError iff j mod ncols ≥ nrows; otherwise rows j div ncols and j mod ncols are overwritten entirely |
| SobolMap.IntendedStore | data/propagation_prompt/claude_3.7/code_5.py:198 | only the cell with flat index j changes |
| SobolMap.AsWrittenStoreOverwritesRows | data/propagation_prompt/claude_3.7/code_5.py:198 | on a 2 × 2 grid, storing flat index 1 as written sets all four cells; the intended store sets one |
| SobolMap.AsWrittenStoreRaises | data/propagation_prompt/claude_3.7/code_5.py:198 | on a 1 × 2 grid, flat index 1 raises IndexError as written; the intended store writes cell (0, 1) |
| SobolMap.DominantParameterMap | data/propagation_prompt/claude_3.7/code_5.py:286 | every cell holds np.argmax over the parameter axis: with no NaN there, the first of the four parameters with the largest S1 at that cell |
| SobolMap.MostSensitive | data/propagation_prompt/claude_3.7/code_5.py:338-343 | one of the names; without NaN averages, one with the largest average |
| SobolMap.Count | data/propagation_prompt/claude_3.7/code_5.py:347 | a count is at most the number of cells, and 0 iff the value is absent |
| SobolMap.Percentage | data/propagation_prompt/claude_3.7/code_5.py:350-356 | the share is in [0, 100], and 0 iff no cell holds the parameter |
| SobolMap.Coverages | data/propagation_prompt/claude_3.7/code_5.py:350-356 | one share per parameter, in order |
| SobolMap.Coverage | data/propagation_prompt/claude_3.7/code_5.py:346-356 | the report loop computes exactly those shares |
| SobolMap.CountsCoverAllCells | data/propagation_prompt/claude_3.7/code_5.py:347-348 | when every cell names a parameter, the counts add up to the number of cells |
| SobolMap.PercentagesAddUp | data/propagation_prompt/claude_3.7/code_5.py:350-356 | the shares of the first m parameters add up to the fraction of cells they hold |
| SobolMap.CoverageSumsToHundred | data/propagation_prompt/claude_3.7/code_5.py:346-356 | the coverage figures of the report add up to 100 % |

## Left out

- PyWake itself is not modelled: the wind farm models, the simulation, `flow_map` and `HorizontalGrid`. A simulation is a function from a built model to per-condition WS_eff fields (`Objective.Engine`). The operating points (CT, TI) and the dataset lookup are functions too. A built model is a value naming its components.
- xarray's `interp`, `concat`, `sel` and coordinate alignment are not modelled. Fields are flat sequences of cells of one shape.
- `ct2a_mom1d`, the `WS_key` override, `GaussianOverlapAvgModel` and the LinearSum superposition are fixed in every build, so a built model does not record them.
- The internals of `bayes_opt` are not modelled: the Gaussian process, acquisition, duplicate-point handling and bound clipping. Random draws and proposals are function parameters.
- SALib's `saltelli.sample` and `sobol.analyze` are function parameters. Only the shape of their results is assumed.
- Floating point is exact real arithmetic with NaN and ±∞. The model has no rounding and no signed zero. `np.sqrt`, `np.sin` and `np.pi` are parameters.
- `np.arange` and `np.linspace` are modelled by their values (the 7 wind speeds and 8 intensities) and by parameters (time points and grid coordinates).
- `np.percentile` (the p90 error) is left out. The pooled absolute errors it is computed from are modelled.
- Plotting, animation, file and log writing, printing, timestamps, directories, `tqdm` and the `.npz` output are I/O and are left out.
- The scripts' `main` functions and module-level setup are not modelled as code. Their constants (ROI, grids, problem tables) are modelled.
- The plot rows of `code_5.py` `_plot_parameter_comparison` and `update_plot` are not modelled separately. They behave as in `code_2.py`, which is modelled.
- SplitCalibration.WakeModelAnalyzer.constructor: it requires a non-empty trace. `optimizer.max` on an empty trace fails in `bayes_opt`, which is not part of this model.
- An empty condition grid is a precondition, not an error path: `Objective.ScoreModel`, `Objective.EvaluateRmse`, `Analysis.ErrorStatistics` and `SplitCalibration.WakeModelAnalyzer.AnalyzeErrors` require at least one condition. The source raises ValueError on none, in `xr.concat` (code_2.py:337) or `np.concatenate` (code_2.py:596), and the optimizer classes cannot be built without one.
- Analysis.ParameterRows: the order of `best_params.keys()` is taken as a parameter (every key once), not derived from how `bayes_opt` builds the dict.
- SobolTime.RunModelSamples: it requires at least one sample. `param_values[0]` on an empty array raises IndexError, which is not modelled.
- SobolMap.GridExtent: it requires at least one turbine. `min()` of an empty sequence raises ValueError, which is not modelled.
- SobolMap.SensitivityMap: it assumes a two-dimensional WS_eff field (y, x). A flow map with an extra height or time axis is not modelled.
- SobolTime.TimeDependentAnalysis: it requires that the sampler returns at least one sample per problem and that every flow field has the grid's shape. `run_model_samples` silently relies on both.

## Findings

| source | as written | input that shows it | evidently intended | confidence | as-written member | corrected member |
|---|---|---|---|---|---|---|
| data/calibration_prompt/claude_3.7/code_5.py:436 | `evaluate_best_model` predicts from `self.flow_map`, the baseline reference flow computed in `_generate_observation_values` (line 100), not from the best model's `sim_res` | one condition, one cell, dataset deficit 0.1, baseline WS_eff 9 m/s and best model 8 m/s at 10 m/s: the reported RMSE is sqrt(0), while the best model's is sqrt(0.01) | the residuals of the best model's own simulated flow, as `analyze_errors` in code_2.py computes them | not executed | SingleCalibration.WakeModelOptimizer.EvaluateBestModelAsWritten, SingleCalibration.AsWrittenDiffersFromBestModel | SingleCalibration.WakeModelOptimizer.EvaluateBestModel |
| data/propagation_prompt/claude_3.7/code_5.py:198 | `S1_indices[k, np.unravel_index(j, original_shape)]` indexes axis 1 with the tuple (row, col) as an index array. It overwrites the whole rows `row` and `col` of plane k, and raises IndexError when `col ≥ nrows` | 2 × 2 grid, flat index 1: all four cells of the plane are set; 1 × 2 grid, flat index 1: IndexError | write only cell (j div ncols, j mod ncols), i.e. `S1_indices[(k, *np.unravel_index(j, original_shape))]` | not executed | SobolMap.AsWrittenStore, SobolMap.AsWrittenStoreOverwritesRows, SobolMap.AsWrittenStoreRaises | SobolMap.IntendedStore, SobolMap.SensitivityMap |
