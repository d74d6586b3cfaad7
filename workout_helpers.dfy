/** workout_helpers.py: builders of distance-based `ExecutableStep` records
    (swimming distance uses end condition id 3) and of the effort target that
    a swim step can carry as its secondary target. Every builder returns a
    fresh record made from its arguments and constants. */
module WorkoutHelpers {
  import opened Py

  /** A Python value of type `Any` inside a caller-supplied target dict. */
  datatype Json =
    | JNone
    | JBool(b: bool)
    | JInt(i: int)
    | JFloat(f: real)
    | JStr(s: string)
    | JList(items: seq<Json>)
    | JDict(entries: map<string, Json>)

  type Dict = map<string, Json>

  // Constants of garminconnect.workout's StepType and TargetType classes.
  const STEP_TYPE_WARMUP: int := 1
  const STEP_TYPE_COOLDOWN: int := 2
  const STEP_TYPE_INTERVAL: int := 3
  const STEP_TYPE_RECOVERY: int := 4
  const TARGET_TYPE_NO_TARGET: int := 1

  datatype StepKind = Warmup | Cooldown | Interval | Recovery

  /** The `stepType` sub-record. */
  datatype StepType = StepType(stepTypeId: int, stepTypeKey: string, displayOrder: int)

  /** The `endCondition` sub-record. */
  datatype EndCondition = EndCondition(
    conditionTypeId: int, conditionTypeKey: string, displayOrder: int, displayable: bool)

  /** The fields of garminconnect's `ExecutableStep` that the builders set. */
  datatype ExecutableStep = ExecutableStep(
    stepOrder: int,
    stepType: StepType,
    endCondition: EndCondition,
    endConditionValue: real,
    targetType: Dict,
    secondaryTargetType: Option<Dict>,
    secondaryTargetValueOne: Option<real>,
    secondaryTargetValueTwo: Option<real>,
    description: Option<string>)

  /** The dict `create_effort_target` returns, one field per key. */
  datatype EffortTarget = EffortTarget(
    targetType: Dict,
    secondaryTargetType: Dict,
    secondaryTargetValueOne: real,
    secondaryTargetValueTwo: real)

  /** A target-type dict with its three keys. */
  function TargetTypeDict(id: int, key: string, displayOrder: int): Dict {
    map["workoutTargetTypeId" := JInt(id), "workoutTargetTypeKey" := JStr(key),
        "displayOrder" := JInt(displayOrder)]
  }

  /** The default target: no target. */
  const NO_TARGET: Dict := TargetTypeDict(TARGET_TYPE_NO_TARGET, "no.target", 1)

  /** The secondary target of an effort step: a swim instruction. */
  const SWIM_INSTRUCTION: Dict := TargetTypeDict(18, "swim.instruction", 18)

  /** Distance as the end condition: id 3 (not the library's DISTANCE constant). */
  const DISTANCE_CONDITION: EndCondition := EndCondition(3, "distance", 3, true)

  /** The step-type sub-record of each kind. */
  function StepTypeOf(kind: StepKind): StepType {
    match kind
    case Warmup => StepType(STEP_TYPE_WARMUP, "warmup", 1)
    case Cooldown => StepType(STEP_TYPE_COOLDOWN, "cooldown", 2)
    case Interval => StepType(STEP_TYPE_INTERVAL, "interval", 3)
    case Recovery => StepType(STEP_TYPE_RECOVERY, "recovery", 4)
  }

  /** Reads the kind back from a step-type sub-record's key. */
  function KindOf(t: StepType): Option<StepKind> {
    match t.stepTypeKey
    case "warmup" => Some(Warmup)
    case "cooldown" => Some(Cooldown)
    case "interval" => Some(Interval)
    case "recovery" => Some(Recovery)
    case _ => None
  }

  /** Each kind has its own step type, and the kind can be read back from it. */
  lemma StepTypeIdentifiesKind(kind: StepKind, other: StepKind)
    ensures KindOf(StepTypeOf(kind)) == Some(kind)
    ensures StepTypeOf(kind) == StepTypeOf(other) ==> kind == other
  {
  }

  /** Python truthiness of `target_type: dict | None`: None and `{}` are false. */
  predicate IsTruthy(targetType: Option<Dict>) {
    targetType.Some? && targetType.value != map[]
  }

  /** `target_type or {no target}`. */
  function TargetOrDefault(targetType: Option<Dict>): (d: Dict)
    ensures IsTruthy(targetType) ==> d == targetType.value
    ensures !IsTruthy(targetType) ==> d == NO_TARGET
    ensures d != map[]
  {
    if IsTruthy(targetType) then targetType.value
    else assert "displayOrder" in NO_TARGET; NO_TARGET
  }

  /** The step's kind, end condition, order, distance and description are the
      ones asked for. */
  predicate IsDistanceStep(s: ExecutableStep, kind: StepKind, distance: real, stepOrder: int,
                           description: Option<string>) {
    && s.stepType == StepTypeOf(kind)
    && s.endCondition == DISTANCE_CONDITION
    && s.endConditionValue == distance
    && s.stepOrder == stepOrder
    && s.description == description
  }

  /** The effort level a step's secondary target carries, if it has one. */
  function EffortLevelOf(s: ExecutableStep): Option<real> {
    if s.secondaryTargetType == Some(SWIM_INSTRUCTION) && s.secondaryTargetValueTwo == Some(0.0)
    then s.secondaryTargetValueOne
    else None
  }

  /** The body shared by the four `create_*_step_distance` builders. */
  function DistanceStep(kind: StepKind, distance: real, stepOrder: int,
                        targetType: Option<Dict>, description: Option<string>): (s: ExecutableStep)
    ensures IsDistanceStep(s, kind, distance, stepOrder, description)
    ensures s.targetType == TargetOrDefault(targetType)
    ensures EffortLevelOf(s) == None
  {
    ExecutableStep(stepOrder, StepTypeOf(kind), DISTANCE_CONDITION, distance,
                   TargetOrDefault(targetType), None, None, None, description)
  }

  function CreateWarmupStepDistance(distance: real, stepOrder: int := 1,
                                    targetType: Option<Dict> := None,
                                    description: Option<string> := None): (s: ExecutableStep)
    ensures IsDistanceStep(s, Warmup, distance, stepOrder, description)
    ensures s.targetType == TargetOrDefault(targetType) && EffortLevelOf(s) == None
  {
    DistanceStep(Warmup, distance, stepOrder, targetType, description)
  }

  function CreateIntervalStepDistance(distance: real, stepOrder: int,
                                      targetType: Option<Dict> := None,
                                      description: Option<string> := None): (s: ExecutableStep)
    ensures IsDistanceStep(s, Interval, distance, stepOrder, description)
    ensures s.targetType == TargetOrDefault(targetType) && EffortLevelOf(s) == None
  {
    DistanceStep(Interval, distance, stepOrder, targetType, description)
  }

  function CreateRecoveryStepDistance(distance: real, stepOrder: int,
                                      targetType: Option<Dict> := None,
                                      description: Option<string> := None): (s: ExecutableStep)
    ensures IsDistanceStep(s, Recovery, distance, stepOrder, description)
    ensures s.targetType == TargetOrDefault(targetType) && EffortLevelOf(s) == None
  {
    DistanceStep(Recovery, distance, stepOrder, targetType, description)
  }

  function CreateCooldownStepDistance(distance: real, stepOrder: int,
                                      targetType: Option<Dict> := None,
                                      description: Option<string> := None): (s: ExecutableStep)
    ensures IsDistanceStep(s, Cooldown, distance, stepOrder, description)
    ensures s.targetType == TargetOrDefault(targetType) && EffortLevelOf(s) == None
  {
    DistanceStep(Cooldown, distance, stepOrder, targetType, description)
  }

  /** `create_effort_target(effort_level)`. The documented range 1-5 is not
      checked, so every integer is accepted and carried unchanged as a real.
      Python's `float(effort_level)` rounds above 2^53 and raises OverflowError
      past the float range; neither is modelled. */
  function CreateEffortTarget(effortLevel: int): (t: EffortTarget)
    ensures t.targetType == NO_TARGET && t.secondaryTargetType == SWIM_INSTRUCTION
    ensures t.secondaryTargetValueOne == effortLevel as real && t.secondaryTargetValueTwo == 0.0
  {
    EffortTarget(NO_TARGET, SWIM_INSTRUCTION, effortLevel as real, 0.0)
  }

  /** Splicing `**effort_config` into an `ExecutableStep` call. */
  function WithEffort(s: ExecutableStep, t: EffortTarget): ExecutableStep {
    s.(targetType := t.targetType,
       secondaryTargetType := Some(t.secondaryTargetType),
       secondaryTargetValueOne := Some(t.secondaryTargetValueOne),
       secondaryTargetValueTwo := Some(t.secondaryTargetValueTwo))
  }

  /** The body shared by the four `create_*_step_distance_effort` builders. */
  function DistanceEffortStep(kind: StepKind, distance: real, stepOrder: int, effortLevel: int,
                              description: Option<string>): (s: ExecutableStep)
    ensures IsDistanceStep(s, kind, distance, stepOrder, description)
    ensures EffortLevelOf(s) == Some(effortLevel as real)
  {
    var effort := CreateEffortTarget(effortLevel);
    ExecutableStep(stepOrder, StepTypeOf(kind), DISTANCE_CONDITION, distance,
                   effort.targetType, Some(effort.secondaryTargetType),
                   Some(effort.secondaryTargetValueOne), Some(effort.secondaryTargetValueTwo),
                   description)
  }

  function CreateWarmupStepDistanceEffort(distance: real, stepOrder: int, effortLevel: int,
                                          description: Option<string> := None): (s: ExecutableStep)
    ensures IsDistanceStep(s, Warmup, distance, stepOrder, description)
    ensures EffortLevelOf(s) == Some(effortLevel as real)
  {
    DistanceEffortStep(Warmup, distance, stepOrder, effortLevel, description)
  }

  function CreateIntervalStepDistanceEffort(distance: real, stepOrder: int, effortLevel: int,
                                            description: Option<string> := None): (s: ExecutableStep)
    ensures IsDistanceStep(s, Interval, distance, stepOrder, description)
    ensures EffortLevelOf(s) == Some(effortLevel as real)
  {
    DistanceEffortStep(Interval, distance, stepOrder, effortLevel, description)
  }

  function CreateRecoveryStepDistanceEffort(distance: real, stepOrder: int, effortLevel: int,
                                            description: Option<string> := None): (s: ExecutableStep)
    ensures IsDistanceStep(s, Recovery, distance, stepOrder, description)
    ensures EffortLevelOf(s) == Some(effortLevel as real)
  {
    DistanceEffortStep(Recovery, distance, stepOrder, effortLevel, description)
  }

  function CreateCooldownStepDistanceEffort(distance: real, stepOrder: int, effortLevel: int,
                                            description: Option<string> := None): (s: ExecutableStep)
    ensures IsDistanceStep(s, Cooldown, distance, stepOrder, description)
    ensures EffortLevelOf(s) == Some(effortLevel as real)
  {
    DistanceEffortStep(Cooldown, distance, stepOrder, effortLevel, description)
  }

  /** An effort step is its plain counterpart without a target, with the
      effort target spliced in: the same step type and end condition, and
      target fields exactly those of `create_effort_target(effort_level)`. */
  lemma EffortStepExtendsPlainStep(kind: StepKind, distance: real, stepOrder: int, effortLevel: int,
                                   description: Option<string>)
    ensures DistanceEffortStep(kind, distance, stepOrder, effortLevel, description)
            == WithEffort(DistanceStep(kind, distance, stepOrder, None, description),
                          CreateEffortTarget(effortLevel))
  {
  }

  /** The effort level of a step can be read back exactly; steps built with
      different effort levels differ. */
  lemma EffortLevelRoundTrip(kind: StepKind, distance: real, stepOrder: int, e1: int, e2: int,
                             description: Option<string>)
    ensures EffortLevelOf(DistanceEffortStep(kind, distance, stepOrder, e1, description)).value.Floor == e1
    ensures (DistanceEffortStep(kind, distance, stepOrder, e1, description)
             == DistanceEffortStep(kind, distance, stepOrder, e2, description)) ==> e1 == e2
  {
  }
}
