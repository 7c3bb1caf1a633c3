# Golf Modeling Suite: validation, pipeline, engine catalogue and API index in Dafny

This project is a Dafny model of four pieces of the Golf Modeling Suite, with proofs about each:

- **The physics validator** (`PhysicsValidator`) checks a simulated golf swing. It covers:
  - energy and momentum conservation, as relative drift against a 0.1 % tolerance;
  - joint-limit violations, listed per timestep and per joint, with the largest overshoot compared against 1e-6;
  - numerical stability, as peak absolute velocity and acceleration against fixed limits;
  - the pairwise cross-engine comparison of trajectories and scalar series;
  - the suite runner;
  - the markdown report.
- **The analysis pipeline** runs OpenPose → OpenSim → MyoSim → physics validation. `AnalysisPipeline` owns its configuration. A run fills a `PipelineResult` in place; a stage that fails turns into the `GolfModelingError` raised at the end.
- **The engine catalogue** lists nine engines, each with its category and display information, plus the per-category queries.
- **The string logic of the API-documentation generator** covers:
  - how functions are analysed and methods classified;
  - how annotations are rendered and module constants collected;
  - the file filter and the path → module-name conversion;
  - how modules are grouped by package;
  - the markdown index.

Modules:

- Shared value types and lemmas:
  - `Wrappers`: `Option` and `Result`.
  - `Seqs`: generic sequence lemmas.
  - `Dicts`: Python dictionaries, modelled as association lists in insertion order.
  - `Text`: string helpers, including Python's `str.title`/`upper` on ASCII and `sorted` on strings.
- `Numerics` and `PhysicsValidation` (physics_validation.dfy): the per-engine checks.
- `PairSweep`: the `for i … for j > i` sweep over engine pairs.
- `EngineComparison`: `compare_engines` and its two scorers.
- `ValidationReport`: the suite runner and the report text.
- `EngineCategories`.
- `PipelineManager`: the configuration and a functional specification `Run` of one pipeline run, plus the classes `PipelineResult` and `AnalysisPipeline`. Their methods are proved against `Run`.
- `ApiAnalysis` (AST → records) and `ApiIndex` (scan, naming, grouping, index).

A configuration with only `use_physics_engine` set raises `GolfModelingError`: pose data and kinematics are both `None`, so the physics stage's `.get` fails (`PipelineManager.RaisesIff`).

## Model

| member | source | states |
|---|---|---|
| PhysicsValidation.ValidateConservationLaws | scripts/physics_validation_suite.py:34-85 | When any time or energy series is empty, or the initial energy is 0 (the division raises and the handler returns the defaults), the result is the all-false default. Otherwise the energy drift is `\|E_end − E_0\| / \|E_0\|`, and energy is conserved iff that drift is below 0.1 %. With momentum data, the last and first momentum vectors are subtracted with numpy broadcasting: when the shapes do not broadcast, the handler leaves momentum unconserved with drift 0; otherwise the drift is `\|p_end − p_0\| / (\|p_0\| + 1e-12)` and momentum is conserved iff it is below 0.1 %. Without momentum data its drift is 0. Drifts are non-negative. |
| PhysicsValidation.DriftBelowTolerance | scripts/physics_validation_suite.py:60-62 | The relative-drift test is equivalent to `\|change\| < tol · \|E_0\|`. |
| PhysicsValidation.ConstantEnergyIsConserved | scripts/physics_validation_suite.py:57-62 | When the time, kinetic, potential and total energy series are all non-empty, a trace whose final total energy equals its initial, non-zero one is reported conserved, with drift 0. |
| PhysicsValidation.ConstantMomentumIsConserved | scripts/physics_validation_suite.py:65-75 | When the energy series are all non-empty with a non-zero initial total energy, and momentum data exists, momentum whose final vector equals its initial one is reported conserved, with drift 0. |
| Numerics.BroadcastSub | scripts/physics_validation_suite.py:69 | numpy subtraction of two vectors succeeds iff the lengths are equal or one of them is 1. Equal lengths subtract entry by entry; a length-1 operand is broadcast against every entry of the other. Equal vectors subtract to zeros. |
| PhysicsValidation.Overshoot | scripts/physics_validation_suite.py:111-112 | For an out-of-range position, the violation is positive and at least the distance past the bound that was crossed. |
| PhysicsValidation.MaxViolation | scripts/physics_validation_suite.py:123-124 | The maximum violation is 0 for no violations. Otherwise it bounds every violation and is attained by one of them. |
| PhysicsValidation.ValidateJointConstraints | scripts/physics_validation_suite.py:87-137 | The nested timestep/joint loop returns exactly the specification `JointConstraints(data)`. |
| PhysicsValidation.TraceViolationsOrdered | scripts/physics_validation_suite.py:107-120 | Violations are listed by timestep and, within a timestep, by increasing joint index. |
| PhysicsValidation.TraceViolationSound | scripts/physics_validation_suite.py:107-120 | Every recorded violation names an existing sample of a limited joint that lies outside its limits, with its overshoot. |
| PhysicsValidation.TraceViolationComplete | scripts/physics_validation_suite.py:107-120 | Every out-of-range sample of a limited joint is recorded. |
| PhysicsValidation.AtMostOneRecordPerJoint | scripts/physics_validation_suite.py:107-120 | No (timestep, joint) pair is recorded twice. |
| PhysicsValidation.ViolationsExactlyOutOfRange | scripts/physics_validation_suite.py:102-120 | There is a violation for (t, j) iff sample t exists, joint j is limited and its position lies outside the limits. |
| PhysicsValidation.ConstraintsSatisfiedIff | scripts/physics_validation_suite.py:102-127 | Constraints are satisfied iff joint positions and joint limits are both present and every violation is below the 1e-6 tolerance; missing data is reported as not satisfied. |
| PhysicsValidation.SatisfiedIffAllBelowTolerance | scripts/physics_validation_suite.py:123-127 | Comparing the maximum with the tolerance is the same as comparing every violation with it. |
| PhysicsValidation.SeriesAbsMax | scripts/physics_validation_suite.py:159-164 | `np.max(np.abs(·))` is undefined exactly when there are no rows or some row is empty. Otherwise it bounds every absolute entry and is attained. |
| PhysicsValidation.ValidateNumericalStability | scripts/physics_validation_suite.py:139-183 | No velocity data, or an empty velocity row, gives the default. Integration error is always 0. When no row is empty, the maxima are the peak absolute velocity and acceleration; acceleration is 0 when absent. An empty acceleration row leaves the acceleration at 0 and the trace unstable. Stable implies both maxima are under their limits. |
| PhysicsValidation.StableIffWithinLimits | scripts/physics_validation_suite.py:154-178 | Stable iff velocities exist, no velocity or acceleration row is empty, and every absolute velocity (and every absolute acceleration, when present) is under its limit. |
| EngineComparison.RelativeError | scripts/physics_validation_suite.py:288 | The relative error is non-negative, and zero iff the two values are equal. |
| EngineComparison.CompareScalars | scripts/physics_validation_suite.py:280-296 | The scalar agreement score lies in [0, 1]. |
| EngineComparison.ScalarsIgnoreTail | scripts/physics_validation_suite.py:283-285 | Entries of the second series past the end of the first do not change the score. |
| EngineComparison.ScalarsIgnoreFirstTail | scripts/physics_validation_suite.py:283-285 | Entries of the first series past the end of the second do not change the score. |
| EngineComparison.ScalarsCommonPrefix | scripts/physics_validation_suite.py:283-285 | The score of two series is the score of their common-length prefixes. |
| EngineComparison.ScalarsPerfectIffEqual | scripts/physics_validation_suite.py:283-296 | For two non-empty series, the scalar score is 1 iff their common-length prefixes are equal. |
| EngineComparison.CompareTrajectories | scripts/physics_validation_suite.py:252-278 | The trajectory agreement score lies in [0, 1]. |
| EngineComparison.TrajectoriesIgnoreTail | scripts/physics_validation_suite.py:255-258 | Samples of the second trajectory past the end of the first do not change the score. |
| EngineComparison.TrajectoriesIgnoreFirstTail | scripts/physics_validation_suite.py:255-258 | Samples of the first trajectory past the end of the second do not change the score. |
| EngineComparison.TrajectoriesCommonPrefix | scripts/physics_validation_suite.py:255-258 | The score of two trajectories is the score of their prefixes cut to the shorter length. |
| EngineComparison.IdenticalTrajectoriesAgree | scripts/physics_validation_suite.py:267-278 | A non-empty rectangular trajectory with non-empty rows, compared with itself, scores 1. |
| EngineComparison.AgreementKeys | scripts/physics_validation_suite.py:202-234 | A metric's agreement dictionary has the key `e1_vs_e2` iff some pair i < j of engines with that name has the data the metric needs. |
| EngineComparison.AgreementValues | scripts/physics_validation_suite.py:202-234 | Each stored score is the metric applied to such a pair. |
| EngineComparison.FewEnginesNoAgreements | scripts/physics_validation_suite.py:196-199 | With fewer than two engines, nothing is compared. |
| EngineComparison.CompareEngines | scripts/physics_validation_suite.py:185-250 | The double loop returns exactly the specification `PairwiseComparison`. |
| EngineComparison.AnyAgreementIffEligiblePair | scripts/physics_validation_suite.py:202-234 | A metric has some score iff some pair of engines is eligible for it. |
| EngineComparison.OverallAgreementIff | scripts/physics_validation_suite.py:236-245 | Overall agreement holds iff some pair of engines is eligible for the position, velocity or energy comparison (so some score exists) and every position, velocity and energy score exceeds 0.9. |
| EngineComparison.ScoresInUnitInterval | scripts/physics_validation_suite.py:202-234 | Every stored score lies in [0, 1]. |
| PairSweep.AllPairsKeys | scripts/physics_validation_suite.py:202-203 | The i < j sweep stores a key iff some ordered pair with a value produces it. |
| PairSweep.AllPairsValues | scripts/physics_validation_suite.py:202-203 | Each stored value comes from a pair that produces that key. |
| ValidationReport.CheckEngine | scripts/physics_validation_suite.py:384-395 | Each engine's section is its conservation, constraint and stability results. |
| ValidationReport.RunValidationSuite | scripts/physics_validation_suite.py:374-403 | The loop returns exactly the specification `SuiteResults`. |
| ValidationReport.SuiteLayout | scripts/physics_validation_suite.py:384-400 | The result keys are the engines in order, plus `comparison` when there is more than one engine. Each engine maps to its own section, and `comparison` to the pairwise comparison. |
| ValidationReport.SuiteResultsReportable | scripts/physics_validation_suite.py:398-400 | The suite's output is a valid report input. |
| ValidationReport.GenerateValidationReport | scripts/physics_validation_suite.py:298-372 | When the `comparison` entry, if any, is a cross-engine result, the loop-built report equals the newline join of the specification `ReportLines`. Otherwise the report fails with the `KeyError` on `'engines_compared'`. |
| ValidationReport.EveryEngineHasHeading | scripts/physics_validation_suite.py:306-311 | Every engine entry other than `comparison` gets an upper-cased heading. |
| ValidationReport.PairLinesAreBullets | scripts/physics_validation_suite.py:362-369 | Every agreement line is a `-` bullet. |
| ValidationReport.CrossEngineSectionIff | scripts/physics_validation_suite.py:350-358 | The cross-engine section appears iff a `comparison` entry exists. |
| ValidationReport.EveryAgreementListed | scripts/physics_validation_suite.py:360-370 | Every position and velocity agreement is printed as `- pair: score`. |
| ValidationReport.NoEnergyAgreementSection | scripts/physics_validation_suite.py:360-370 | Energy agreement is computed but never reported. |
| ValidationReport.AgreementSectionsIff | scripts/physics_validation_suite.py:360-370 | The `### Position Agreement` heading is in the report iff a `comparison` entry exists and its position agreements are non-empty; likewise for velocity. |
| ValidationReport.CheckSectionsIff | scripts/physics_validation_suite.py:313-347 | An engine section holds the `### Conservation Laws`, `### Joint Constraints` and `### Numerical Stability` heading iff the engine's results hold that check. |
| EngineCategories.EveryMemberListed | shared/python/engine_categories.py:25-37 | Every engine is a member of the enumeration, in declaration order. |
| EngineCategories.OrdinalIsPosition | shared/python/engine_categories.py:25-37 | Declaration order is the order of iteration. |
| EngineCategories.EngineIdsDistinct | shared/python/engine_categories.py:25-37 | No two members share an engine id. |
| EngineCategories.ExactlyOneCategory | shared/python/engine_categories.py:51-64 | Each engine satisfies exactly one of the three category predicates. |
| EngineCategories.GetByCategory | shared/python/engine_categories.py:66-76 | An engine is listed iff it has that category, and the list is in declaration order. |
| EngineCategories.PhysicsMembers | shared/python/engine_categories.py:78-81 | The physics engines are MuJoCo, Drake, Pinocchio, MATLAB 2D, MATLAB 3D and the pendulum, in that order. |
| EngineCategories.BiomechanicsMembers | shared/python/engine_categories.py:83-86 | The biomechanics engines are OpenSim and MyoSim. |
| EngineCategories.InputProcessingMembers | shared/python/engine_categories.py:88-91 | The input processors are OpenPose only. |
| EngineCategories.CategoryListSizes | shared/python/engine_categories.py:78-91 | The three lists have 6, 2 and 1 entries. |
| EngineCategories.CategoryListsPartition | shared/python/engine_categories.py:78-91 | The three lists partition the engines. |
| PipelineManager.PipelineResult.constructor | shared/python/pipeline_manager.py:75-96 | A fresh result has every output absent, success true, and no errors or warnings. |
| PipelineManager.AnalysisPipeline.constructor | shared/python/pipeline_manager.py:110-117 | A fresh pipeline has no configuration. |
| PipelineManager.AnalysisPipeline.RunOpenSimStage | shared/python/pipeline_manager.py:269-293 | The stage's dictionary, and the log of analyses called with their inputs, equal those of the specification `OpenSimStage` for the stored configuration. |
| PipelineManager.AnalysisPipeline.RunFullPipeline | shared/python/pipeline_manager.py:119-182 | This stores the given configuration, or the default one for `None`. It fills a fresh result whose state, the raised message and the log of stage calls with their inputs are those of the specification `Run`. |
| PipelineManager.AnalysisPipeline.RunOpenPoseToOpenSim | shared/python/pipeline_manager.py:184-206 | The same as `RunFullPipeline`, for the OpenPose → OpenSim configuration. |
| PipelineManager.AnalysisPipeline.RunOpenSimToMuJoCo | shared/python/pipeline_manager.py:208-229 | The same as `RunFullPipeline`, for the OpenSim → MuJoCo configuration. |
| PipelineManager.OpenSimStageResults | shared/python/pipeline_manager.py:269-293 | Kinematics are present iff inverse kinematics is on. Dynamics and muscle analysis read the kinematics when present, and the stage's input otherwise. |
| PipelineManager.OpenSimStageKeys | shared/python/pipeline_manager.py:269-293 | The dictionary's keys are exactly the analyses that are switched on. Without a configuration, the dictionary is empty. |
| PipelineManager.OpenSimStageDataFlow | shared/python/pipeline_manager.py:278-291 | Each analysis is called with the input stated above. Inverse kinematics is called first. |
| PipelineManager.PartialFields | shared/python/pipeline_manager.py:143-163 | Each result field produced by stages 1–3 is present iff its stage ran, and holds that stage's output on its input. |
| PipelineManager.RunKeepsPartial | shared/python/pipeline_manager.py:165-180 | Stage 4 and the exception handler leave the outputs of stages 1–3, and the stage calls made, unchanged. |
| PipelineManager.DefaultRunIsEmpty | shared/python/pipeline_manager.py:136-140 | The default configuration runs nothing and leaves an empty, successful result. |
| PipelineManager.OutputsPresentIff | shared/python/pipeline_manager.py:143-156 | Pose data, kinematics, dynamics and muscle analysis are present iff their flags are on. |
| PipelineManager.MyoSimRunsIff | shared/python/pipeline_manager.py:159-163 | Muscle-fibre data is present iff MyoSim, OpenSim and muscle analysis are all on. |
| PipelineManager.RaisesIff | shared/python/pipeline_manager.py:166-180 | The run raises iff physics is on with neither kinematics nor pose data. It then raises `GolfModelingError` wrapping the `None.get` failure, with success false and the error recorded. |
| PipelineManager.SuccessIffNotRaised | shared/python/pipeline_manager.py:173-180 | Success holds iff nothing was raised. Validation data exists iff it was requested and nothing was raised. Errors are recorded iff something was raised. |
| PipelineManager.InverseKinematicsInput | shared/python/pipeline_manager.py:149-156 | Inverse kinematics reads the pose data when pose estimation ran, and kinematics loaded from the input path otherwise. |
| PipelineManager.PhysicsInput | shared/python/pipeline_manager.py:166-171 | Physics validation is the last stage called. It reads the kinematics when present, and the pose data otherwise. |
| PipelineManager.OpenSimToMuJoCoSucceeds | shared/python/pipeline_manager.py:208-229 | OpenSim → MuJoCo never raises. It validates the joint angles produced by inverse kinematics. |
| PipelineManager.OpenPoseToOpenSimSucceeds | shared/python/pipeline_manager.py:184-206 | OpenPose → OpenSim never raises. It yields pose data, kinematics and dynamics, but no muscle or validation data. |
| ApiAnalysis.MethodTypeOf | scripts/generate_api_docs.py:129-135 | A method is magic iff its name starts and ends with `__`, and public iff it does not start with `_`. |
| ApiAnalysis.AnnotationBracketsBalance | scripts/generate_api_docs.py:174-193 | When no name, attribute or string constant in the annotation contains a bracket, its rendering has as many `[` as `]`, one per subscript rendered. |
| ApiAnalysis.AnalyzeClass | scripts/generate_api_docs.py:105-145 | The loop over the class body returns exactly the specification `ClassInfoOf`, which classifies `async def` methods too (the corrected behaviour; see Findings). |
| ApiAnalysis.MethodsOfIff | scripts/generate_api_docs.py:124-143 | A method record exists iff some `def` or `async def` in the body produces it. |
| ApiAnalysis.MethodsClassified | scripts/generate_api_docs.py:124-137 | Every method (in the corrected model) is a method and carries its classification. |
| ApiAnalysis.AsyncMethodUntyped | scripts/generate_api_docs.py:139-143 | As written, an `async def` method is recorded without a `method_type`. |
| ApiAnalysis.AsyncMethodBreaksDoc | scripts/generate_api_docs.py:271-278 | As written, documenting a class with an async method fails on the missing key. The corrected model documents it instead. |
| ApiAnalysis.DocumentedMethodsAgree | scripts/generate_api_docs.py:271-278 | When every method is classified, the as-written filter succeeds and equals the corrected one. |
| ApiAnalysis.DocumentedMethodsIff | scripts/generate_api_docs.py:271-278 | A method is documented iff it is listed and public. |
| ApiAnalysis.ClassDocListsPublicMethods | scripts/generate_api_docs.py:271-278 | A class's documented methods are exactly its methods whose names do not start with `_`. |
| ApiAnalysis.PublicFunctions | scripts/generate_api_docs.py:307-310 | The listed functions are exactly those whose names do not start with `_`. |
| ApiAnalysis.AnalyzeModule | scripts/generate_api_docs.py:32-103 | The walk returns exactly the specification `ModuleInfoOf`, with classes classified as in `AnalyzeClass`. No top-level function is ever collected. |
| ApiAnalysis.GatherIff | scripts/generate_api_docs.py:56 | An item is collected iff some node of the walk yields it. |
| ApiAnalysis.TargetConstantsIff | scripts/generate_api_docs.py:69-77 | The constants of one assignment are exactly its upper-case name targets, at its line. |
| ApiAnalysis.ConstantRecordedIff | scripts/generate_api_docs.py:69-77 | A constant is recorded iff some assignment in the walk has an upper-case name target at that line. |
| ApiAnalysis.ClassRecordedIff | scripts/generate_api_docs.py:57-59 | A class record exists iff some class node of the walk produces it. |
| ApiIndex.FileName | scripts/generate_api_docs.py:210-211 | A file's name is a suffix of its path that contains no `/`, and it is preceded by `/` unless it is the whole path: the part after the last `/`. |
| ApiIndex.DottedPath | scripts/generate_api_docs.py:220-223 | Both path separators become `.`, character by character. |
| ApiIndex.PythonDirectoryMangled | scripts/generate_api_docs.py:219-225 | As written, the path `a/pyb/c.py` becomes `ab.c`, which does not name the file. The corrected name is `a.pyb.c`. |
| ApiIndex.ModuleNameRoundTrip | scripts/generate_api_docs.py:219-225 | For a `.py` path with no `.` or `\` before the suffix, the corrected module name maps back to the path. |
| ApiIndex.KeptFilesIff | scripts/generate_api_docs.py:206-212 | A file is kept iff its full path does not contain `__pycache__`, its name does not contain `test_`, and its name does not end in `_test.py`. |
| ApiIndex.ScanProject | scripts/generate_api_docs.py:195-237 | The scan loop returns exactly the specification `ModulesOf(KeptFiles(...))`, named with the corrected suffix-only `.py` strip (see Findings). |
| ApiIndex.ModulesOfKeys | scripts/generate_api_docs.py:215-232 | A module is recorded iff some kept file yields that name and the name does not start with `scripts.`. |
| ApiIndex.ScannedModulesIff | scripts/generate_api_docs.py:206-232 | A module is recorded iff some file passes the filter and yields that name, and the name does not start with `scripts.`. |
| ApiIndex.FirstComponent | scripts/generate_api_docs.py:359-360 | The package is the part before the first `.`, and contains no `.`. |
| ApiIndex.AddModule | scripts/generate_api_docs.py:362-364 | The module is appended to its package's list, which is created empty if absent. |
| ApiIndex.GroupByPackage | scripts/generate_api_docs.py:357-364 | The grouping loop returns exactly the specification `Grouped`. |
| ApiIndex.GroupedIff | scripts/generate_api_docs.py:357-364 | A package is present iff some module belongs to it. Its list holds exactly the modules that belong to it; a dot-free name belongs to `root`. |
| ApiIndex.IndexSectionsSorted | scripts/generate_api_docs.py:367-371 | Package names are in non-decreasing order (`Below` is ≤) across sections, and each module list is sorted. |
| ApiIndex.IndexListsEveryModule | scripts/generate_api_docs.py:357-371 | A module appears in some section iff it was scanned, and only under its own package. |
| ApiIndex.DocFileNameRoundTrip | scripts/generate_api_docs.py:375 | The link target ends in `.md` and has no `.` in the name part. For names without `_`, the module name can be recovered from it. |
| ApiIndex.FirstLine | scripts/generate_api_docs.py:378-381 | The description line is a prefix of the docstring that contains no newline, and it is followed by a newline unless it is the whole docstring: the text up to the first newline. |
| ApiIndex.IndexLinksEveryModule | scripts/generate_api_docs.py:347-381 | Every scanned module's link line appears in the index. |
| Text.Sort | scripts/generate_api_docs.py:367-371 | `sorted` yields a sorted permutation of its input. |

## Left out

- File reading, logging, writing the report and the documentation files, `main`, `example_usage`, and the mock data generators (`physics_validation_suite.py:406-492`, `pipeline_manager.py:420-461`, `engine_categories.py:94-111`): these are I/O, or demonstrations built on the modelled functions.
- Floating point: numbers are reals, so NaN, infinities and rounding are not modelled. `np.sqrt` is a parameter of which only `sqrt(0) = 0` and non-negative results are assumed (the identity on non-negatives also meets this), so no property here depends on it being the square root. Number formatting in the report (`:.6f`, `:.3f`, `:.2e`) is a parameter `format`.
- Upper-casing and title-casing, and `str.isupper` for constant names (`Text.IsUpper`), are ASCII only; Python's Unicode case mapping and character classes are not modelled.
- The report's pass and fail marks are modelled as the mis-decoded code points the source file holds, not as the intended check-mark glyphs.
- ValidationReport.SuiteLayout: requires that no engine is named `comparison`. With a single engine of that name, its per-engine results stay under `comparison` and the report raises `KeyError: 'engines_compared'` (line 353; `GenerateValidationReport` returns that failure). With several engines, the cross-engine result overwrites that engine's entry.
- PhysicsValidation.ValidateConservationLaws: a zero initial energy is modelled as Python float division, which raises `ZeroDivisionError` and returns the defaults. With numpy `float64` energies, as the suite's data holds, the division yields `inf` or `nan` with a warning and the momentum check still runs; that path is not modelled.
- ValidationReport.RunValidationSuite, EngineComparison.CompareEngines: require distinct engine names, because Python dictionaries cannot hold duplicate keys and the model uses association lists.
- ApiAnalysis.Constant: float, complex, bytes and `Ellipsis` constants are not modelled, because rendering them with `str` would need Python's float and bytes formatting.
- ApiAnalysis.AnalyzeClass, ApiAnalysis.AnalyzeModule: use the corrected classification, in which `async def` methods get a `method_type`. The as-written behaviour, which leaves it out, is `ApiAnalysis.AsyncMethodUntyped`.
- ApiIndex.ScanProject: uses the corrected module naming, which strips only the `.py` suffix. The as-written `.replace(".py", "")` is `ApiIndex.PythonDirectoryMangled`.
- The string values of `EngineCategory` (`"physics"`, `"biomechanics"`, `"input_processing"`) are not used by any modelled operation and are not modelled.
- Python's AST is an abstract datatype given in `ast.walk` order. Parsing, `ast.get_docstring`, and the `except Exception` path when a file cannot be read or parsed (`generate_api_docs.py:45-48, 100-101`) are not modelled.
- Top-level functions are never collected by `analyze_module`, because the `hasattr(node, "parent")` test never holds. The model keeps this, so module function lists are always empty (`ApiAnalysis.AnalyzeModule`).
- `generate_module_doc` is modelled only through its member filters (public methods, public functions). Its remaining markdown layout and `generate_docs`' orchestration are not modelled.
- The index's per-module lookup `project_info["modules"][module_name]` always finds the module, so the index never meets a missing key.
- The external engines (OpenPose, OpenSim, MyoSim, MuJoCo) are modelled by the placeholder functions in `pipeline_manager.py`. `PipelineStage`, the engine manager and the logging calls are not part of this model.
- PipelineManager.AnalysisPipeline.RunFullPipeline: the raised `GolfModelingError` is an out-parameter returned alongside the partly filled result, instead of an exception that unwinds.
- PipelineManager.AnalysisPipeline.PoseEstimationBlock, OpenSimBlock and MyoSimBlock are helpers that split `run_full_pipeline`'s body stage by stage; they are not separate source operations.
- ApiIndex.ModuleNameRoundTrip: proved for paths without `.` or `\` before the suffix. Those characters are also turned into, or are already, `.`, so no name can map back.
- ApiIndex.DocFileNameRoundTrip: module names holding `_` cannot be recovered from the doc file name, because `.` and `_` both become `_`.

## Findings

| source | as written | input that shows it | evidently intended | confidence | as-written member | corrected member |
|---|---|---|---|---|---|---|
| scripts/generate_api_docs.py:219-225 | `.replace(".py", "")` removes every occurrence of `.py`, not only the extension | `shared/python/core.py` becomes `sharedthon.core` (in general `a/pyb/c.py` becomes `ab.c`) | strip the `.py` suffix only, giving `shared.python.core` | not executed | ApiIndex.PythonDirectoryMangled | ApiIndex.ModuleNameRoundTrip |
| scripts/generate_api_docs.py:139-143 | an `async def` method is recorded without `method_type`, and `generate_module_doc` (lines 276-277) then reads `method["method_type"]` | a class whose body holds `async def fetch(self)` | classify async methods like other methods | not executed | ApiAnalysis.AsyncMethodBreaksDoc | ApiAnalysis.ClassDocListsPublicMethods |
