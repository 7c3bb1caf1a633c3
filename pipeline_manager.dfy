/**
  The multi-engine analysis pipeline: up to four stages (pose estimation,
  OpenSim biomechanics, MyoSim muscle fibres, physics validation), each
  switched on by a configuration flag, filling the fields of a result record
  one after another. The stage bodies are fixed placeholder records; the
  engine manager the pipeline is built with is never used by them.
 */
module PipelineManager {
  import opened Wrappers
  import opened Dicts

  // ----- Payloads -----

  /** A value inside a stage's result dictionary. */
  datatype Value = Real(r: real) | Int(n: int) | Str(s: string) | List(items: seq<Value>)

  /** A stage's result dictionary (`dict[str, Any]`). */
  type Payload = Dict<string, Value>

  /** Python truthiness of an optional dictionary: present and non-empty. */
  predicate Truthy(p: Option<Payload>) {
    p.Some? && p.value != []
  }

  /** `a or b` for optional dictionaries. */
  function Or(a: Option<Payload>, b: Option<Payload>): Option<Payload> {
    if Truthy(a) then a else b
  }

  function Names(names: seq<string>): Value {
    List(seq(|names|, i requires 0 <= i < |names| => Str(names[i])))
  }

  // ----- Configuration -----

  datatype PipelineConfig = PipelineConfig(
    useOpenpose: bool,
    openposeModel: string,
    useOpensim: bool,
    opensimModelPath: Option<string>,
    runInverseKinematics: bool,
    runInverseDynamics: bool,
    runMuscleAnalysis: bool,
    useMyosim: bool,
    myosimParameters: Option<Payload>,
    usePhysicsEngine: bool,
    physicsEngineType: string,
    saveIntermediateResults: bool,
    outputFormat: string)

  /** `PipelineConfig()`: every stage off, inverse kinematics and dynamics on. */
  const DefaultConfig: PipelineConfig := PipelineConfig(
    false, "body_25",
    false, None, true, true, false,
    false, None,
    false, "mujoco",
    true, "json")

  /** The configuration `run_openpose_to_opensim` passes on. */
  function OpenPoseToOpenSimConfig(opensimModelPath: string): PipelineConfig {
    DefaultConfig.(useOpenpose := true, useOpensim := true, opensimModelPath := Some(opensimModelPath),
                   runInverseKinematics := true, runInverseDynamics := true)
  }

  /** The configuration `run_opensim_to_mujoco` passes on. */
  function OpenSimToMuJoCoConfig(opensimModelPath: string): PipelineConfig {
    DefaultConfig.(useOpensim := true, opensimModelPath := Some(opensimModelPath),
                   usePhysicsEngine := true, physicsEngineType := "mujoco")
  }

  // ----- Placeholder stages -----

  const PoseJointNames: seq<string> := [
    "neck", "right_shoulder", "right_elbow", "right_wrist",
    "left_shoulder", "left_elbow", "left_wrist",
    "right_hip", "right_knee", "right_ankle",
    "left_hip", "left_knee", "left_ankle"]

  const CoordinateNames: seq<string> := [
    "pelvis_tx", "pelvis_ty", "pelvis_tz", "pelvis_tilt", "pelvis_list", "pelvis_rotation",
    "hip_flexion_r", "knee_angle_r", "ankle_angle_r",
    "shoulder_flexion_r", "elbow_flexion_r", "wrist_flexion_r"]

  const MuscleNames: seq<string> := [
    "glut_max_r", "iliopsoas_r", "rect_fem_r", "vasti_r",
    "bifemsh_r", "gastroc_r", "soleus_r", "tib_ant_r"]

  /** `_run_openpose_stage`: keypoints and confidences of 100 frames at 30 fps for 13 joints. */
  function OpenPoseStage(videoPath: string): Payload {
    [("keypoints", List([])), ("confidence", List([])), ("frame_rate", Real(30.0)),
     ("num_frames", Int(100)), ("joint_names", Names(PoseJointNames))]
  }

  /** `_load_kinematics`. */
  function LoadKinematics(filePath: string): Payload {
    [("joint_angles", List([])), ("time", List([]))]
  }

  /** `_opensim_inverse_kinematics`: joint angles over 12 coordinates. */
  function InverseKinematics(poseData: Payload): Payload {
    [("joint_angles", List([])), ("coordinate_names", Names(CoordinateNames)), ("marker_errors", List([]))]
  }

  /** `_opensim_inverse_dynamics`. */
  function InverseDynamics(kinematics: Payload): Payload {
    [("joint_moments", List([])), ("ground_reactions", List([])), ("center_of_mass", List([]))]
  }

  /** `_opensim_muscle_analysis`: states of 8 muscles. */
  function MuscleAnalysis(kinematics: Payload): Payload {
    [("muscle_forces", List([])), ("muscle_lengths", List([])), ("muscle_velocities", List([])),
     ("muscle_activations", List([])), ("muscle_names", Names(MuscleNames))]
  }

  /** `_run_myosim_stage`. */
  function MyoSimStage(muscleData: Payload): Payload {
    [("fiber_forces", List([])), ("crossbridge_states", List([])), ("calcium_concentrations", List([]))]
  }

  /** The message of the AttributeError raised by `None.get`. */
  const NoneHasNoGet: string := "'NoneType' object has no attribute 'get'"

  /**
    `_run_physics_validation`: the measured trajectory is the input's joint
    angles (an empty list when it has none). Called with None, the
    `kinematics.get` lookup raises.
   */
  function PhysicsValidationStage(kinematics: Option<Payload>, engineType: string): Result<Payload, string> {
    match kinematics
    case None => Failure(NoneHasNoGet)
    case Some(k) =>
      Success([("simulated_trajectory", List([])),
               ("measured_trajectory", Get(k, "joint_angles").GetOr(List([]))),
               ("rmse", Real(0.0)), ("max_error", Real(0.0))])
  }

  // ----- What a run does -----

  /** The stages that receive a dictionary from an earlier stage. */
  datatype Stage = InverseKinematicsStage | InverseDynamicsStage | MuscleAnalysisStage | MyoSimFibreStage | PhysicsStage

  /** A stage called on an input. */
  datatype StageCall = StageCall(stage: Stage, input: Option<Payload>)

  /** What `_run_opensim_stage` returns, with the calls it makes in order. */
  datatype StageRun = StageRun(results: Dict<string, Payload>, calls: seq<StageCall>)

  /**
    `_run_opensim_stage`: inverse kinematics, inverse dynamics and muscle
    analysis, each when the pipeline's configuration asks for it; the last two
    are given the kinematics when they were computed, the pose data otherwise.
   */
  function OpenSimStage(config: Option<PipelineConfig>, poseData: Payload): StageRun {
    var ik := config.Some? && config.value.runInverseKinematics;
    var id := config.Some? && config.value.runInverseDynamics;
    var ma := config.Some? && config.value.runMuscleAnalysis;
    var r1: Dict<string, Payload> := if ik then Put([], "kinematics", InverseKinematics(poseData)) else [];
    var downstream := Get(r1, "kinematics").GetOr(poseData);
    var r2 := if id then Put(r1, "dynamics", InverseDynamics(downstream)) else r1;
    var r3 := if ma then Put(r2, "muscle_analysis", MuscleAnalysis(downstream)) else r2;
    StageRun(r3,
      (if ik then [StageCall(InverseKinematicsStage, Some(poseData))] else [])
      + (if id then [StageCall(InverseDynamicsStage, Some(downstream))] else [])
      + (if ma then [StageCall(MuscleAnalysisStage, Some(downstream))] else []))
  }

  /** The call log of `OpenSimStage`, assembled one analysis at a time. */
  lemma OpenSimStageCalls(config: Option<PipelineConfig>, poseData: Payload, r1: Dict<string, Payload>,
                          c1: seq<StageCall>, c2: seq<StageCall>, c3: seq<StageCall>)
    requires var ik := config.Some? && config.value.runInverseKinematics;
      r1 == (if ik then Put([], "kinematics", InverseKinematics(poseData)) else [])
      && c1 == (if ik then [] + [StageCall(InverseKinematicsStage, Some(poseData))] else [])
    requires var downstream := Get(r1, "kinematics").GetOr(poseData);
      c2 == if config.Some? && config.value.runInverseDynamics then c1 + [StageCall(InverseDynamicsStage, Some(downstream))] else c1
    requires var downstream := Get(r1, "kinematics").GetOr(poseData);
      c3 == if config.Some? && config.value.runMuscleAnalysis then c2 + [StageCall(MuscleAnalysisStage, Some(downstream))] else c2
    ensures c3 == OpenSimStage(config, poseData).calls
  {
    assert [] + [StageCall(InverseKinematicsStage, Some(poseData))] == [StageCall(InverseKinematicsStage, Some(poseData))];
  }

  /** The fields of a `PipelineResult`. */
  datatype ResultState = ResultState(
    poseData: Option<Payload>,
    kinematics: Option<Payload>,
    dynamics: Option<Payload>,
    muscleAnalysis: Option<Payload>,
    muscleFiberData: Option<Payload>,
    physicsValidation: Option<Payload>,
    success: bool,
    errors: Option<seq<string>>,
    warnings: Option<seq<string>>)

  /** The fields of a new `PipelineResult`: every output None and `success` true. */
  const EmptyResult: ResultState := ResultState(None, None, None, None, None, None, true, None, None)

  /** A run: the final fields, the message of the exception raised (if any), and the stage calls. */
  datatype Outcome = Outcome(state: ResultState, raised: Option<string>, calls: seq<StageCall>)

  /** The prefix of the GolfModelingError message wrapping a stage's exception. */
  const FailurePrefix: string := "Pipeline execution failed: "

  /** Stage 1: the pose data, when pose estimation is on. */
  function PoseStep(config: PipelineConfig, inputPath: string): Option<Payload> {
    if config.useOpenpose then Some(OpenPoseStage(inputPath)) else None
  }

  /**
    Stage 2: the OpenSim results, when OpenSim is on, computed from the pose
    data when truthy and from kinematics loaded from the input otherwise.
   */
  function OpenSimStep(config: PipelineConfig, inputPath: string, pose: Option<Payload>): StageRun {
    if config.useOpensim then OpenSimStage(Some(config), Or(pose, Some(LoadKinematics(inputPath))).value)
    else StageRun([], [])
  }

  /** Stage 3: the muscle fibre data, when MyoSim is on and the muscle analysis is truthy. */
  function MyoSimStep(config: PipelineConfig, muscles: Option<Payload>): Option<Payload> {
    if config.useMyosim && Truthy(muscles) then Some(MyoSimStage(muscles.value)) else None
  }

  /** The fields after stages 1 to 3, none of which can raise. */
  function Partial(config: PipelineConfig, inputPath: string): ResultState {
    var pose := PoseStep(config, inputPath);
    var opensim := OpenSimStep(config, inputPath, pose);
    var muscles := Get(opensim.results, "muscle_analysis");
    ResultState(pose, Get(opensim.results, "kinematics"), Get(opensim.results, "dynamics"), muscles,
                MyoSimStep(config, muscles), None, true, None, None)
  }

  /** The stage calls of stages 1 to 3. */
  function PartialCalls(config: PipelineConfig, inputPath: string): seq<StageCall> {
    var state := Partial(config, inputPath);
    OpenSimStep(config, inputPath, state.poseData).calls
    + if state.muscleFiberData.Some? then [StageCall(MyoSimFibreStage, state.muscleAnalysis)] else []
  }

  /**
    `run_full_pipeline(input_path, config)`. The one stage that can raise is
    the physics validation (stage 4), which reads the kinematics when truthy
    and the pose data otherwise; when it raises, `success` turns false,
    `errors` holds the message, and the run raises a wrapped message.
   */
  function Run(config: PipelineConfig, inputPath: string): Outcome {
    var partial := Partial(config, inputPath);
    var callsBefore := PartialCalls(config, inputPath);
    if !config.usePhysicsEngine then
      Outcome(partial, None, callsBefore)
    else
      var physicsInput := Or(partial.kinematics, partial.poseData);
      var calls := callsBefore + [StageCall(PhysicsStage, physicsInput)];
      match PhysicsValidationStage(physicsInput, config.physicsEngineType)
      case Success(validation) =>
        Outcome(partial.(physicsValidation := Some(validation)), None, calls)
      case Failure(message) =>
        Outcome(partial.(success := false, errors := Some([message])), Some(FailurePrefix + message), calls)
  }

  // ----- What a run promises -----

  /**
    What the OpenSim stage stores under each key: each analysis exactly when
    the configuration asks for it, dynamics and muscle analysis computed from
    the kinematics when those were computed and from the pose data otherwise.
   */
  lemma OpenSimStageResults(config: PipelineConfig, poseData: Payload)
    ensures var results := OpenSimStage(Some(config), poseData).results;
      var downstream := if config.runInverseKinematics then InverseKinematics(poseData) else poseData;
      Get(results, "kinematics") == (if config.runInverseKinematics then Some(InverseKinematics(poseData)) else None) &&
      Get(results, "dynamics") == (if config.runInverseDynamics then Some(InverseDynamics(downstream)) else None) &&
      Get(results, "muscle_analysis") == (if config.runMuscleAnalysis then Some(MuscleAnalysis(downstream)) else None)
  {
    var r1: Dict<string, Payload> := if config.runInverseKinematics then Put([], "kinematics", InverseKinematics(poseData)) else [];
    assert Get(r1, "kinematics") == (if config.runInverseKinematics then Some(InverseKinematics(poseData)) else None);
    assert Get(r1, "dynamics") == None && Get(r1, "muscle_analysis") == None;
  }

  /** The OpenSim stage's result keys are exactly the analyses the configuration asks for. */
  lemma OpenSimStageKeys(config: Option<PipelineConfig>, poseData: Payload, key: string)
    ensures key in Keys(OpenSimStage(config, poseData).results) <==>
      config.Some? &&
      ((key == "kinematics" && config.value.runInverseKinematics) ||
       (key == "dynamics" && config.value.runInverseDynamics) ||
       (key == "muscle_analysis" && config.value.runMuscleAnalysis))
  {
    if config.Some? {
      OpenSimStageResults(config.value, poseData);
    }
  }

  /** The fields stages 1 to 3 leave, stage by stage. */
  lemma PartialFields(config: PipelineConfig, inputPath: string)
    ensures var state := Partial(config, inputPath);
      var opensimInput := if config.useOpenpose then OpenPoseStage(inputPath) else LoadKinematics(inputPath);
      var downstream := if config.runInverseKinematics then InverseKinematics(opensimInput) else opensimInput;
      state.poseData == (if config.useOpenpose then Some(OpenPoseStage(inputPath)) else None) &&
      state.kinematics == (if config.useOpensim && config.runInverseKinematics then Some(InverseKinematics(opensimInput)) else None) &&
      state.dynamics == (if config.useOpensim && config.runInverseDynamics then Some(InverseDynamics(downstream)) else None) &&
      state.muscleAnalysis == (if config.useOpensim && config.runMuscleAnalysis then Some(MuscleAnalysis(downstream)) else None) &&
      state.muscleFiberData == (if config.useMyosim && state.muscleAnalysis.Some? then Some(MyoSimStage(state.muscleAnalysis.value)) else None)
  {
    var opensimInput := if config.useOpenpose then OpenPoseStage(inputPath) else LoadKinematics(inputPath);
    assert Or(PoseStep(config, inputPath), Some(LoadKinematics(inputPath))).value == opensimInput;
    OpenSimStageResults(config, opensimInput);
  }

  /**
    Inverse dynamics and muscle analysis are given the kinematics inverse
    kinematics computed, or the pose data when it did not run.
   */
  lemma OpenSimStageDataFlow(config: PipelineConfig, poseData: Payload)
    ensures var run := OpenSimStage(Some(config), poseData);
      var downstream := if config.runInverseKinematics then InverseKinematics(poseData) else poseData;
      (config.runInverseDynamics ==> StageCall(InverseDynamicsStage, Some(downstream)) in run.calls) &&
      (config.runMuscleAnalysis ==> StageCall(MuscleAnalysisStage, Some(downstream)) in run.calls) &&
      (config.runInverseKinematics ==> run.calls[0] == StageCall(InverseKinematicsStage, Some(poseData)))
  {
  }

  /** Stage 4 changes only the validation data, `success` and `errors`. */
  lemma RunKeepsPartial(config: PipelineConfig, inputPath: string)
    ensures Run(config, inputPath).state.(physicsValidation := None, success := true, errors := None) == Partial(config, inputPath)
    ensures Run(config, inputPath).calls[..|PartialCalls(config, inputPath)|] == PartialCalls(config, inputPath)
  {
  }

  /** With the default configuration nothing runs, nothing fails, and nothing is raised. */
  lemma DefaultRunIsEmpty(inputPath: string)
    ensures Run(DefaultConfig, inputPath) == Outcome(EmptyResult, None, [])
  {
  }

  /** Each OpenSim output is present exactly when OpenSim runs and that analysis is switched on. */
  lemma OutputsPresentIff(config: PipelineConfig, inputPath: string)
    ensures var state := Run(config, inputPath).state;
      (state.poseData.Some? <==> config.useOpenpose) &&
      (state.kinematics.Some? <==> config.useOpensim && config.runInverseKinematics) &&
      (state.dynamics.Some? <==> config.useOpensim && config.runInverseDynamics) &&
      (state.muscleAnalysis.Some? <==> config.useOpensim && config.runMuscleAnalysis)
  {
    PartialFields(config, inputPath);
    RunKeepsPartial(config, inputPath);
  }

  /** Muscle fibres are simulated exactly when MyoSim is on and the muscle analysis ran. */
  lemma MyoSimRunsIff(config: PipelineConfig, inputPath: string)
    ensures Run(config, inputPath).state.muscleFiberData.Some? <==>
      config.useMyosim && config.useOpensim && config.runMuscleAnalysis
  {
    PartialFields(config, inputPath);
    RunKeepsPartial(config, inputPath);
  }

  /**
    A run raises exactly when physics validation is on with neither
    kinematics nor pose data to validate; the result then records the failure.
   */
  lemma RaisesIff(config: PipelineConfig, inputPath: string)
    ensures var outcome := Run(config, inputPath);
      (outcome.raised.Some? <==>
        config.usePhysicsEngine && !(config.useOpensim && config.runInverseKinematics) && !config.useOpenpose) &&
      (outcome.raised.Some? ==>
        outcome.raised == Some(FailurePrefix + NoneHasNoGet) &&
        !outcome.state.success && outcome.state.errors == Some([NoneHasNoGet]) &&
        outcome.state.physicsValidation.None?)
  {
    PartialFields(config, inputPath);
  }

  /** `success` is true exactly when nothing was raised, and validation data exists exactly when it was asked for and succeeded. */
  lemma SuccessIffNotRaised(config: PipelineConfig, inputPath: string)
    ensures var outcome := Run(config, inputPath);
      (outcome.state.success <==> outcome.raised.None?) &&
      (outcome.state.physicsValidation.Some? <==> config.usePhysicsEngine && outcome.raised.None?) &&
      (outcome.state.errors.Some? <==> outcome.raised.Some?) &&
      outcome.state.warnings.None?
  {
  }

  /**
    Inverse kinematics, the first stage called on a dictionary, reads the pose
    data when pose estimation ran and kinematics loaded from the input otherwise.
   */
  lemma InverseKinematicsInput(config: PipelineConfig, inputPath: string)
    requires config.useOpensim && config.runInverseKinematics
    ensures Run(config, inputPath).calls[0] ==
      StageCall(InverseKinematicsStage, Some(if config.useOpenpose then OpenPoseStage(inputPath) else LoadKinematics(inputPath)))
  {
    var opensimInput := if config.useOpenpose then OpenPoseStage(inputPath) else LoadKinematics(inputPath);
    assert Or(PoseStep(config, inputPath), Some(LoadKinematics(inputPath))).value == opensimInput;
    assert OpenSimStep(config, inputPath, PoseStep(config, inputPath)).calls[0] == StageCall(InverseKinematicsStage, Some(opensimInput));
    RunKeepsPartial(config, inputPath);
  }

  /**
    Physics validation, when on, is the last stage called, on the kinematics
    when they were computed and on the pose data otherwise.
   */
  lemma PhysicsInput(config: PipelineConfig, inputPath: string)
    requires config.usePhysicsEngine
    ensures var outcome := Run(config, inputPath);
      outcome.calls[|outcome.calls| - 1] ==
      StageCall(PhysicsStage, if outcome.state.kinematics.Some? then outcome.state.kinematics else outcome.state.poseData)
  {
    PartialFields(config, inputPath);
    RunKeepsPartial(config, inputPath);
  }

  /**
    `run_opensim_to_mujoco` never raises: the physics stage validates the
    inverse kinematics' joint angles.
   */
  lemma OpenSimToMuJoCoSucceeds(opensimModelPath: string, kinematicsPath: string)
    ensures var outcome := Run(OpenSimToMuJoCoConfig(opensimModelPath), kinematicsPath);
      outcome.raised.None? && outcome.state.success &&
      outcome.state.physicsValidation.Some? &&
      Get(outcome.state.physicsValidation.value, "measured_trajectory") ==
        Get(InverseKinematics(LoadKinematics(kinematicsPath)), "joint_angles")
  {
  }

  /** `run_openpose_to_opensim` never raises and yields pose data, kinematics and dynamics but no muscle analysis. */
  lemma OpenPoseToOpenSimSucceeds(opensimModelPath: string, videoPath: string)
    ensures var state := Run(OpenPoseToOpenSimConfig(opensimModelPath), videoPath).state;
      state.success && state.poseData == Some(OpenPoseStage(videoPath)) &&
      state.kinematics == Some(InverseKinematics(OpenPoseStage(videoPath))) &&
      state.dynamics == Some(InverseDynamics(InverseKinematics(OpenPoseStage(videoPath)))) &&
      state.muscleAnalysis.None? && state.physicsValidation.None?
  {
  }

  // ----- The objects -----

  /** `PipelineResult`: a record whose fields the stages fill in place. */
  class PipelineResult {
    var poseData: Option<Payload>
    var kinematics: Option<Payload>
    var dynamics: Option<Payload>
    var muscleAnalysis: Option<Payload>
    var muscleFiberData: Option<Payload>
    var physicsValidation: Option<Payload>
    var success: bool
    var errors: Option<seq<string>>
    var warnings: Option<seq<string>>

    /** `PipelineResult()`: every output None and `success` true. */
    constructor ()
      ensures State() == EmptyResult
    {
      poseData, kinematics, dynamics, muscleAnalysis := None, None, None, None;
      muscleFiberData, physicsValidation := None, None;
      success, errors, warnings := true, None, None;
    }

    function State(): ResultState
      reads this
    {
      ResultState(poseData, kinematics, dynamics, muscleAnalysis, muscleFiberData, physicsValidation, success, errors, warnings)
    }
  }

  /** `AnalysisPipeline`: remembers the configuration of the last run. */
  class AnalysisPipeline {
    var config: Option<PipelineConfig>

    constructor ()
      ensures config == None
    {
      config := None;
    }

    /**
      `_run_opensim_stage`, reading the configuration stored by the current
      run. The ghost `calls` logs each analysis with the input it is given.
     */
    method RunOpenSimStage(poseData: Payload) returns (results: Dict<string, Payload>, ghost calls: seq<StageCall>)
      ensures results == OpenSimStage(config, poseData).results
      ensures calls == OpenSimStage(config, poseData).calls
    {
      results, calls := [], [];
      if config.Some? && config.value.runInverseKinematics {
        calls := calls + [StageCall(InverseKinematicsStage, Some(poseData))];
        results := Put(results, "kinematics", InverseKinematics(poseData));
      }
      ghost var r1, c1 := results, calls;
      if config.Some? && config.value.runInverseDynamics {
        var input := Get(results, "kinematics").GetOr(poseData);
        calls := calls + [StageCall(InverseDynamicsStage, Some(input))];
        results := Put(results, "dynamics", InverseDynamics(input));
      }
      ghost var c2 := calls;
      assert Get(results, "kinematics") == Get(r1, "kinematics") by {
        assert "dynamics"[0] != "kinematics"[0];
      }
      if config.Some? && config.value.runMuscleAnalysis {
        var input := Get(results, "kinematics").GetOr(poseData);
        calls := calls + [StageCall(MuscleAnalysisStage, Some(input))];
        results := Put(results, "muscle_analysis", MuscleAnalysis(input));
      }
      OpenSimStageCalls(config, poseData, r1, c1, c2, calls);
    }

    /**
      `run_full_pipeline`: stores the configuration (the default one when none
      is given), fills a fresh result stage by stage, and on an exception
      records it and reports the wrapped message in `raised`. The ghost
      `calls` logs every stage that is given an earlier stage's output, with
      that input.
     */
    method RunFullPipeline(inputPath: string, config: Option<PipelineConfig>)
      returns (result: PipelineResult, raised: Option<string>, ghost calls: seq<StageCall>)
      modifies this
      ensures this.config == Some(config.GetOr(DefaultConfig))
      ensures fresh(result)
      ensures result.State() == Run(config.GetOr(DefaultConfig), inputPath).state
      ensures raised == Run(config.GetOr(DefaultConfig), inputPath).raised
      ensures calls == Run(config.GetOr(DefaultConfig), inputPath).calls
    {
      var cfg := config.GetOr(DefaultConfig);
      this.config := Some(cfg);
      result := new PipelineResult();
      raised := None;
      PoseEstimationBlock(result, cfg, inputPath);
      ghost var opensimCalls := OpenSimBlock(result, cfg, inputPath);
      ghost var myosimCalls := MyoSimBlock(result, cfg, inputPath);
      calls := opensimCalls + myosimCalls;
      if cfg.usePhysicsEngine {
        var physicsInput := Or(result.kinematics, result.poseData);
        calls := calls + [StageCall(PhysicsStage, physicsInput)];
        var validation := PhysicsValidationStage(physicsInput, cfg.physicsEngineType);
        if validation.Failure? {
          result.success := false;
          result.errors := Some([validation.error]);
          raised := Some(FailurePrefix + validation.error);
          return;
        }
        result.physicsValidation := Some(validation.value);
      }
      result.success := true;
    }

    /** Stage 1 of `run_full_pipeline`: pose estimation. */
    method PoseEstimationBlock(result: PipelineResult, cfg: PipelineConfig, inputPath: string)
      requires result.State() == EmptyResult
      modifies result
      ensures result.State() == EmptyResult.(poseData := PoseStep(cfg, inputPath))
    {
      if cfg.useOpenpose {
        result.poseData := Some(OpenPoseStage(inputPath));
      }
    }

    /** Stage 2 of `run_full_pipeline`: OpenSim biomechanics on the pose data or loaded kinematics. */
    method OpenSimBlock(result: PipelineResult, cfg: PipelineConfig, inputPath: string) returns (ghost calls: seq<StageCall>)
      requires config == Some(cfg)
      requires result.State() == EmptyResult.(poseData := PoseStep(cfg, inputPath))
      modifies result
      ensures result.State() == Partial(cfg, inputPath).(muscleFiberData := None)
      ensures calls == OpenSimStep(cfg, inputPath, PoseStep(cfg, inputPath)).calls
    {
      calls := [];
      if cfg.useOpensim {
        var opensimInput := Or(result.poseData, Some(LoadKinematics(inputPath))).value;
        var opensimResults;
        opensimResults, calls := RunOpenSimStage(opensimInput);
        result.kinematics := Get(opensimResults, "kinematics");
        result.dynamics := Get(opensimResults, "dynamics");
        result.muscleAnalysis := Get(opensimResults, "muscle_analysis");
      }
    }

    /** Stage 3 of `run_full_pipeline`: MyoSim on a truthy muscle analysis. */
    method MyoSimBlock(result: PipelineResult, cfg: PipelineConfig, inputPath: string) returns (ghost calls: seq<StageCall>)
      requires result.State() == Partial(cfg, inputPath).(muscleFiberData := None)
      modifies result
      ensures result.State() == Partial(cfg, inputPath)
      ensures calls == PartialCalls(cfg, inputPath)[|OpenSimStep(cfg, inputPath, PoseStep(cfg, inputPath)).calls|..]
    {
      calls := [];
      if cfg.useMyosim && Truthy(result.muscleAnalysis) {
        calls := [StageCall(MyoSimFibreStage, result.muscleAnalysis)];
        result.muscleFiberData := Some(MyoSimStage(result.muscleAnalysis.value));
      }
    }

    /** `run_openpose_to_opensim`: video to pose to biomechanics. */
    method RunOpenPoseToOpenSim(videoPath: string, opensimModelPath: string) 
      returns (result: PipelineResult, raised: Option<string>, ghost calls: seq<StageCall>)
      modifies this
      ensures this.config == Some(OpenPoseToOpenSimConfig(opensimModelPath))
      ensures fresh(result)
      ensures result.State() == Run(OpenPoseToOpenSimConfig(opensimModelPath), videoPath).state
      ensures raised == Run(OpenPoseToOpenSimConfig(opensimModelPath), videoPath).raised
      ensures calls == Run(OpenPoseToOpenSimConfig(opensimModelPath), videoPath).calls
    {
      result, raised, calls := RunFullPipeline(videoPath, Some(OpenPoseToOpenSimConfig(opensimModelPath)));
    }

    /** `run_opensim_to_mujoco`: kinematics to OpenSim to MuJoCo validation. */
    method RunOpenSimToMuJoCo(kinematicsPath: string, opensimModelPath: string) 
      returns (result: PipelineResult, raised: Option<string>, ghost calls: seq<StageCall>)
      modifies this
      ensures this.config == Some(OpenSimToMuJoCoConfig(opensimModelPath))
      ensures fresh(result)
      ensures result.State() == Run(OpenSimToMuJoCoConfig(opensimModelPath), kinematicsPath).state
      ensures raised == Run(OpenSimToMuJoCoConfig(opensimModelPath), kinematicsPath).raised
      ensures calls == Run(OpenSimToMuJoCoConfig(opensimModelPath), kinematicsPath).calls
    {
      result, raised, calls := RunFullPipeline(kinematicsPath, Some(OpenSimToMuJoCoConfig(opensimModelPath)));
    }
  }
}
