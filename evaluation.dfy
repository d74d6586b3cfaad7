/** `WahooToGarminConverter.evaluate_workout`: the persisted artifact is one
    Python expression, evaluated with `eval` in a namespace of 19 names; the
    result must be one of five workout classes, convert with `to_dict`, and
    have a name and at least one segment. Every failure becomes a message.

    `eval` is modelled on a small expression language (names, literals, list
    displays, calls with positional and keyword arguments) evaluated left to
    right as Python does. What the garminconnect constructors and `to_dict`
    do is library code, given by a Runtime. */
module Evaluation {
  import opened Py

  // ---------------------------------------------------------------------------
  // The namespace
  // ---------------------------------------------------------------------------

  /** The 19 names bound in the evaluation namespace. */
  datatype Symbol =
    | SwimmingWorkoutClass | RunningWorkoutClass | CyclingWorkoutClass
    | WalkingWorkoutClass | HikingWorkoutClass | WorkoutSegmentClass
    | CreateWarmupStep | CreateWarmupStepDistance | CreateWarmupStepDistanceEffort
    | CreateIntervalStep | CreateIntervalStepDistance | CreateIntervalStepDistanceEffort
    | CreateRecoveryStep | CreateRecoveryStepDistance | CreateRecoveryStepDistanceEffort
    | CreateCooldownStep | CreateCooldownStepDistance | CreateCooldownStepDistanceEffort
    | CreateRepeatGroup
  {
    /** Bound to a (pydantic model) class rather than to a function. */
    predicate IsClass() {
      || SwimmingWorkoutClass? || RunningWorkoutClass? || CyclingWorkoutClass?
      || WalkingWorkoutClass? || HikingWorkoutClass? || WorkoutSegmentClass?
    }
  }

  function SymbolName(s: Symbol): string {
    match s
    case SwimmingWorkoutClass => "SwimmingWorkout"
    case RunningWorkoutClass => "RunningWorkout"
    case CyclingWorkoutClass => "CyclingWorkout"
    case WalkingWorkoutClass => "WalkingWorkout"
    case HikingWorkoutClass => "HikingWorkout"
    case WorkoutSegmentClass => "WorkoutSegment"
    case CreateWarmupStep => "create_warmup_step"
    case CreateWarmupStepDistance => "create_warmup_step_distance"
    case CreateWarmupStepDistanceEffort => "create_warmup_step_distance_effort"
    case CreateIntervalStep => "create_interval_step"
    case CreateIntervalStepDistance => "create_interval_step_distance"
    case CreateIntervalStepDistanceEffort => "create_interval_step_distance_effort"
    case CreateRecoveryStep => "create_recovery_step"
    case CreateRecoveryStepDistance => "create_recovery_step_distance"
    case CreateRecoveryStepDistanceEffort => "create_recovery_step_distance_effort"
    case CreateCooldownStep => "create_cooldown_step"
    case CreateCooldownStepDistance => "create_cooldown_step_distance"
    case CreateCooldownStepDistanceEffort => "create_cooldown_step_distance_effort"
    case CreateRepeatGroup => "create_repeat_group"
  }

  /** The keys of the namespace dict. */
  const NAMESPACE: set<string> := {
    "SwimmingWorkout", "RunningWorkout", "CyclingWorkout", "WalkingWorkout", "HikingWorkout",
    "WorkoutSegment",
    "create_warmup_step", "create_warmup_step_distance", "create_warmup_step_distance_effort",
    "create_interval_step", "create_interval_step_distance", "create_interval_step_distance_effort",
    "create_recovery_step", "create_recovery_step_distance", "create_recovery_step_distance_effort",
    "create_cooldown_step", "create_cooldown_step_distance", "create_cooldown_step_distance_effort",
    "create_repeat_group"
  }

  /** Looking a name up in the namespace. */
  function Lookup(name: string): (r: Option<Symbol>)
    ensures r.Some? <==> name in NAMESPACE
    ensures r.Some? ==> SymbolName(r.value) == name
  {
    match name
    case "SwimmingWorkout" => Some(SwimmingWorkoutClass)
    case "RunningWorkout" => Some(RunningWorkoutClass)
    case "CyclingWorkout" => Some(CyclingWorkoutClass)
    case "WalkingWorkout" => Some(WalkingWorkoutClass)
    case "HikingWorkout" => Some(HikingWorkoutClass)
    case "WorkoutSegment" => Some(WorkoutSegmentClass)
    case "create_warmup_step" => Some(CreateWarmupStep)
    case "create_warmup_step_distance" => Some(CreateWarmupStepDistance)
    case "create_warmup_step_distance_effort" => Some(CreateWarmupStepDistanceEffort)
    case "create_interval_step" => Some(CreateIntervalStep)
    case "create_interval_step_distance" => Some(CreateIntervalStepDistance)
    case "create_interval_step_distance_effort" => Some(CreateIntervalStepDistanceEffort)
    case "create_recovery_step" => Some(CreateRecoveryStep)
    case "create_recovery_step_distance" => Some(CreateRecoveryStepDistance)
    case "create_recovery_step_distance_effort" => Some(CreateRecoveryStepDistanceEffort)
    case "create_cooldown_step" => Some(CreateCooldownStep)
    case "create_cooldown_step_distance" => Some(CreateCooldownStepDistance)
    case "create_cooldown_step_distance_effort" => Some(CreateCooldownStepDistanceEffort)
    case "create_repeat_group" => Some(CreateRepeatGroup)
    case _ => None
  }

  /** Every one of the 19 symbols is found under its own name. */
  lemma LookupFindsEverySymbol(s: Symbol)
    ensures SymbolName(s) in NAMESPACE && Lookup(SymbolName(s)) == Some(s)
  {
  }

  // ---------------------------------------------------------------------------
  // Values and expressions
  // ---------------------------------------------------------------------------

  /** The five workout classes the validator recognises. */
  datatype WorkoutKind = Swimming | Running | Cycling | Walking | Hiking

  function KindClassName(k: WorkoutKind): string {
    match k
    case Swimming => "SwimmingWorkout"
    case Running => "RunningWorkout"
    case Cycling => "CyclingWorkout"
    case Walking => "WalkingWorkout"
    case Hiking => "HikingWorkout"
  }

  /** A Python object an expression can evaluate to. */
  datatype Value =
    | Bound(symbol: Symbol)
    | WorkoutObject(workout: Workout)
    | ListObject(items: seq<Value>)
    | Instance(moduleName: string, className: string, repr: string)

  /** An instance of one of the five workout classes, with the attributes the
      validator reads. */
  datatype Workout = Workout(
    kind: WorkoutKind,
    workoutName: string,
    workoutSegments: seq<Value>,
    estimatedDurationInSecs: int)

  /** `type(v).__module__` and `type(v).__name__`. */
  function TypeModule(v: Value): string {
    match v
    case Bound(s) => if s.IsClass() then "pydantic._internal._model_construction" else "builtins"
    case WorkoutObject(_) => "garminconnect.workout"
    case ListObject(_) => "builtins"
    case Instance(m, _, _) => m
  }

  function TypeName(v: Value): string {
    match v
    case Bound(s) => if s.IsClass() then "ModelMetaclass" else "function"
    case WorkoutObject(w) => KindClassName(w.kind)
    case ListObject(_) => "list"
    case Instance(_, c, _) => c
  }

  /** `str(type(v))`, e.g. `<class 'int'>`. */
  function TypeRepr(v: Value): string {
    var m := TypeModule(v);
    "<class '" + (if m == "builtins" then "" else m + ".") + TypeName(v) + "'>"
  }

  /** A single Python expression of the shape the artifact is asked to be. */
  datatype Expr =
    | Name(id: string)
    | Literal(className: string, repr: string)
    | ListDisplay(items: seq<Expr>)
    | Call(callee: Expr, args: seq<Expr>, keywords: seq<Keyword>)

  datatype Keyword = Keyword(name: string, value: Expr)

  /** The library code `eval` reaches: compiling the artifact, calling a bound
      class or function, and `Workout.to_dict()` (None when it returns). */
  datatype Runtime = Runtime(
    compile: string -> Completion<Expr>,
    construct: (Symbol, seq<Value>, seq<(string, Value)>) -> Completion<Value>,
    toDictFailure: Workout -> Option<Exception>)

  /** The NameError a name outside the namespace raises. */
  function UndefinedName(id: string): Exception {
    Exception(NameErrorFamily, "NameError", "name '" + id + "' is not defined")
  }

  /** The TypeError calling a value that is not a function or class raises. */
  function NotCallable(v: Value): Exception {
    Exception(TypeErrorFamily, "TypeError", "'" + TypeName(v) + "' object is not callable")
  }

  /** Evaluating an expression: callee first, then the arguments left to
      right, then the call; the first exception ends the evaluation. */
  function Eval(rt: Runtime, e: Expr): Completion<Value>
    decreases e
  {
    match e
    case Name(id) =>
      (match Lookup(id)
       case Some(s) => Normal(Bound(s))
       case None => Raised(UndefinedName(id)))
    case Literal(c, r) => Normal(Instance("builtins", c, r))
    case ListDisplay(items) =>
      (match EvalList(rt, items)
       case Raised(x) => Raised(x)
       case Normal(vs) => Normal(ListObject(vs)))
    case Call(callee, args, keywords) =>
      match Eval(rt, callee)
      case Raised(x) => Raised(x)
      case Normal(f) =>
        match EvalList(rt, args)
        case Raised(x) => Raised(x)
        case Normal(vs) =>
          match EvalKeywords(rt, keywords)
          case Raised(x) => Raised(x)
          case Normal(kvs) =>
            if f.Bound? then rt.construct(f.symbol, vs, kvs) else Raised(NotCallable(f))
  }

  function EvalList(rt: Runtime, es: seq<Expr>): Completion<seq<Value>>
    decreases es
  {
    if es == [] then Normal([])
    else
      match Eval(rt, es[0])
      case Raised(x) => Raised(x)
      case Normal(v) =>
        match EvalList(rt, es[1..])
        case Raised(x) => Raised(x)
        case Normal(vs) => Normal([v] + vs)
  }

  function EvalKeywords(rt: Runtime, ks: seq<Keyword>): Completion<seq<(string, Value)>>
    decreases ks
  {
    if ks == [] then Normal([])
    else
      match Eval(rt, ks[0].value)
      case Raised(x) => Raised(x)
      case Normal(v) =>
        match EvalKeywords(rt, ks[1..])
        case Raised(x) => Raised(x)
        case Normal(kvs) => Normal([(ks[0].name, v)] + kvs)
  }

  /** `eval(workout_code, namespace)`. */
  function EvalArtifact(rt: Runtime, code: string): Completion<Value> {
    match rt.compile(code)
    case Raised(x) => Raised(x)
    case Normal(e) => Eval(rt, e)
  }

  // ---------------------------------------------------------------------------
  // Names outside the namespace
  // ---------------------------------------------------------------------------

  /** The expression mentions a name that is not in the namespace. */
  predicate MentionsUnknownName(e: Expr)
    decreases e
  {
    match e
    case Name(id) => id !in NAMESPACE
    case Literal(_, _) => false
    case ListDisplay(items) => exists i :: 0 <= i < |items| && MentionsUnknownName(items[i])
    case Call(callee, args, keywords) =>
      || MentionsUnknownName(callee)
      || (exists i :: 0 <= i < |args| && MentionsUnknownName(args[i]))
      || (exists i :: 0 <= i < |keywords| && MentionsUnknownName(keywords[i].value))
  }

  /** Nothing in the library raises a NameError of its own. */
  ghost predicate LibraryRaisesNoNameError(rt: Runtime) {
    forall s, args, kws :: rt.construct(s, args, kws).Raised? ==>
      rt.construct(s, args, kws).exception.family != NameErrorFamily
  }

  /** Every sub-expression is evaluated unless an earlier one raised, so an
      expression that mentions an unknown name never yields a value. */
  lemma {:induction false} UnknownNameNeverEvaluates(rt: Runtime, e: Expr)
    requires MentionsUnknownName(e)
    ensures Eval(rt, e).Raised?
    decreases e
  {
    match e
    case Name(id) =>
    case ListDisplay(items) =>
      UnknownNameInListNeverEvaluates(rt, items);
    case Call(callee, args, keywords) =>
      if MentionsUnknownName(callee) {
        UnknownNameNeverEvaluates(rt, callee);
      } else if Eval(rt, callee).Normal? {
        if exists i :: 0 <= i < |args| && MentionsUnknownName(args[i]) {
          UnknownNameInListNeverEvaluates(rt, args);
        } else if EvalList(rt, args).Normal? {
          UnknownNameInKeywordsNeverEvaluates(rt, keywords);
        }
      }
  }

  lemma {:induction false} UnknownNameInListNeverEvaluates(rt: Runtime, es: seq<Expr>)
    requires exists i :: 0 <= i < |es| && MentionsUnknownName(es[i])
    ensures EvalList(rt, es).Raised?
    decreases es
  {
    if MentionsUnknownName(es[0]) {
      UnknownNameNeverEvaluates(rt, es[0]);
    } else {
      var i :| 0 <= i < |es| && MentionsUnknownName(es[i]);
      assert es[1..][i - 1] == es[i];
      UnknownNameInListNeverEvaluates(rt, es[1..]);
    }
  }

  lemma {:induction false} UnknownNameInKeywordsNeverEvaluates(rt: Runtime, ks: seq<Keyword>)
    requires exists i :: 0 <= i < |ks| && MentionsUnknownName(ks[i].value)
    ensures EvalKeywords(rt, ks).Raised?
    decreases ks
  {
    if MentionsUnknownName(ks[0].value) {
      UnknownNameNeverEvaluates(rt, ks[0].value);
    } else {
      var i :| 0 <= i < |ks| && MentionsUnknownName(ks[i].value);
      assert ks[1..][i - 1] == ks[i];
      UnknownNameInKeywordsNeverEvaluates(rt, ks[1..]);
    }
  }

  /** Conversely, a NameError comes only from a name outside the namespace
      when the library raises none of its own. */
  lemma {:induction false} NameErrorOnlyFromUnknownName(rt: Runtime, e: Expr)
    requires LibraryRaisesNoNameError(rt) && !MentionsUnknownName(e)
    ensures Eval(rt, e).Raised? ==> Eval(rt, e).exception.family != NameErrorFamily
    decreases e
  {
    match e
    case Name(id) =>
    case Literal(_, _) =>
    case ListDisplay(items) =>
      NoNameErrorInList(rt, items);
    case Call(callee, args, keywords) =>
      NameErrorOnlyFromUnknownName(rt, callee);
      NoNameErrorInList(rt, args);
      NoNameErrorInKeywords(rt, keywords);
  }

  lemma {:induction false} NoNameErrorInList(rt: Runtime, es: seq<Expr>)
    requires LibraryRaisesNoNameError(rt)
    requires forall i :: 0 <= i < |es| ==> !MentionsUnknownName(es[i])
    ensures EvalList(rt, es).Raised? ==> EvalList(rt, es).exception.family != NameErrorFamily
    decreases es
  {
    if es != [] {
      NameErrorOnlyFromUnknownName(rt, es[0]);
      assert forall i :: 0 <= i < |es| - 1 ==> es[1..][i] == es[i + 1];
      NoNameErrorInList(rt, es[1..]);
    }
  }

  lemma {:induction false} NoNameErrorInKeywords(rt: Runtime, ks: seq<Keyword>)
    requires LibraryRaisesNoNameError(rt)
    requires forall i :: 0 <= i < |ks| ==> !MentionsUnknownName(ks[i].value)
    ensures EvalKeywords(rt, ks).Raised? ==> EvalKeywords(rt, ks).exception.family != NameErrorFamily
    decreases ks
  {
    if ks != [] {
      NameErrorOnlyFromUnknownName(rt, ks[0].value);
      assert forall i :: 0 <= i < |ks| - 1 ==> ks[1..][i] == ks[i + 1];
      NoNameErrorInKeywords(rt, ks[1..]);
    }
  }

  // ---------------------------------------------------------------------------
  // The outcome of evaluate_workout
  // ---------------------------------------------------------------------------

  /** Which check turned the artifact down: one per `except` clause, then the
      three structural checks. */
  datatype FailureKind =
    | SyntaxFailure | NameFailure | TypeFailure | OtherFailure
    | NotAWorkout | MissingName | NoSegments

  /** `(True, "", workout)` or `(False, message, None)`; a rejection also
      records which check produced the message. */
  datatype Verdict = Accepted(workout: Workout) | Rejected(kind: FailureKind, message: string)
  {
    /** The tuple `evaluate_workout` returns. */
    function Success(): bool { Accepted? }
    function ErrorMessage(): string { if Accepted? then "" else message }
    function Object(): Option<Workout> { if Accepted? then Some(workout) else None }
  }

  // The two longer prefixes are written as a short head plus the rest so that
  // the verifier sees their first character, which WordingNamesKind relies on.
  const SYNTAX_PREFIX := "Syntax error in generated code: "
  const NAME_PREFIX := "Name error " + "(missing import or undefined name): "
  const TYPE_PREFIX := "Type error in workout construction: "
  const OTHER_PREFIX := "Error evaluating workout: "
  const NOT_A_WORKOUT_PREFIX := "Generated object " + "is not a valid workout type: "
  const MISSING_NAME_MESSAGE := "Workout is missing workoutName"
  const NO_SEGMENTS_MESSAGE := "Workout has no segments"

  /** The message of the `except` clause that catches `x`. */
  function ExceptionVerdict(x: Exception): (v: Verdict)
    ensures v.Rejected?
    ensures v.kind == SyntaxFailure <==> x.family == SyntaxErrorFamily
    ensures v.kind == NameFailure <==> x.family == NameErrorFamily
    ensures v.kind == TypeFailure <==> x.family == TypeErrorFamily
    ensures v.kind == OtherFailure <==> x.family == OtherFamily
    ensures EndsWith(v.message, x.text)
    ensures x.family == OtherFamily ==> OccursAt(v.message, x.className, |OTHER_PREFIX|)
  {
    match x.family
    case SyntaxErrorFamily => Rejected(SyntaxFailure, SYNTAX_PREFIX + x.text)
    case NameErrorFamily => Rejected(NameFailure, NAME_PREFIX + x.text)
    case TypeErrorFamily => Rejected(TypeFailure, TYPE_PREFIX + x.text)
    case OtherFamily => Rejected(OtherFailure, OTHER_PREFIX + x.className + ": " + x.text)
  }

  /** The checks applied to the value `eval` produced, in source order: the
      class, `to_dict()`, the name, the segments. */
  function CheckWorkout(rt: Runtime, v: Value): Verdict {
    if !v.WorkoutObject? then
      Rejected(NotAWorkout, NOT_A_WORKOUT_PREFIX + TypeRepr(v))
    else
      match rt.toDictFailure(v.workout)
      case Some(x) => ExceptionVerdict(x)
      case None =>
        if v.workout.workoutName == "" then Rejected(MissingName, MISSING_NAME_MESSAGE)
        else if v.workout.workoutSegments == [] then Rejected(NoSegments, NO_SEGMENTS_MESSAGE)
        else Accepted(v.workout)
  }

  /** `evaluate_workout` applied to the file's contents. */
  function Validate(rt: Runtime, code: string): (v: Verdict)
    ensures v.Accepted? ==> v.workout.workoutName != "" && |v.workout.workoutSegments| > 0
  {
    match EvalArtifact(rt, code)
    case Raised(x) => ExceptionVerdict(x)
    case Normal(value) => CheckWorkout(rt, value)
  }

  /** An artifact is accepted exactly when it evaluates to a workout whose
      `to_dict` returns and which has a name and at least one segment. */
  lemma AcceptedExactly(rt: Runtime, code: string, w: Workout)
    ensures Validate(rt, code) == Accepted(w) <==>
            && EvalArtifact(rt, code) == Normal(WorkoutObject(w))
            && rt.toDictFailure(w).None?
            && w.workoutName != ""
            && w.workoutSegments != []
  {
  }

  /** The checks run in a fixed order: an exception during `eval` decides the
      verdict before anything is checked; a non-workout is rejected before
      `to_dict` is called; a failing `to_dict` is reported even when the name
      or the segments are missing; a missing name is reported even when the
      segments are missing too. */
  lemma ChecksInOrder(rt: Runtime, code: string)
    ensures EvalArtifact(rt, code).Raised? ==>
              Validate(rt, code) == ExceptionVerdict(EvalArtifact(rt, code).exception)
    ensures EvalArtifact(rt, code).Normal? && !EvalArtifact(rt, code).value.WorkoutObject? ==>
              Validate(rt, code).Rejected? && Validate(rt, code).kind == NotAWorkout
    ensures EvalArtifact(rt, code).Normal? && EvalArtifact(rt, code).value.WorkoutObject?
            && rt.toDictFailure(EvalArtifact(rt, code).value.workout).Some? ==>
              Validate(rt, code)
              == ExceptionVerdict(rt.toDictFailure(EvalArtifact(rt, code).value.workout).value)
    ensures Validate(rt, code).Rejected? && Validate(rt, code).kind == NoSegments ==>
              && EvalArtifact(rt, code).Normal? && EvalArtifact(rt, code).value.WorkoutObject?
              && EvalArtifact(rt, code).value.workout.workoutName != ""
    ensures Validate(rt, code).Rejected? && Validate(rt, code).kind in {NotAWorkout, MissingName, NoSegments} ==>
              EvalArtifact(rt, code).Normal?
  {
  }

  /** An artifact that mentions a name outside the namespace is never accepted. */
  lemma UnknownNameRejected(rt: Runtime, code: string)
    requires rt.compile(code).Normal? && MentionsUnknownName(rt.compile(code).value)
    ensures Validate(rt, code).Rejected?
    ensures Validate(rt, code).kind in {SyntaxFailure, NameFailure, TypeFailure, OtherFailure}
  {
    UnknownNameNeverEvaluates(rt, rt.compile(code).value);
  }

  /** A bare name outside the namespace is reported as a name error naming it. */
  lemma UnknownNameMessage(rt: Runtime, code: string, id: string)
    requires rt.compile(code) == Normal(Name(id)) && id !in NAMESPACE
    ensures Validate(rt, code)
            == Rejected(NameFailure, NAME_PREFIX + "name '" + id + "' is not defined")
  {
  }

  // ---------------------------------------------------------------------------
  // Reading the check back from the message
  // ---------------------------------------------------------------------------

  /** Which check a rejection message comes from, read off its wording. */
  function MessageKind(message: string): Option<FailureKind> {
    if StartsWith(message, SYNTAX_PREFIX) then Some(SyntaxFailure)
    else if StartsWith(message, NAME_PREFIX) then Some(NameFailure)
    else if StartsWith(message, TYPE_PREFIX) then Some(TypeFailure)
    else if StartsWith(message, OTHER_PREFIX) then Some(OtherFailure)
    else if StartsWith(message, NOT_A_WORKOUT_PREFIX) then Some(NotAWorkout)
    else if message == MISSING_NAME_MESSAGE then Some(MissingName)
    else if message == NO_SEGMENTS_MESSAGE then Some(NoSegments)
    else None
  }

  /** A message that starts with `p` does not start with a prefix whose first
      character differs. */
  lemma DifferentFirstChar(s: string, p: string, q: string)
    requires StartsWith(s, p) && |p| > 0 && |q| > 0 && p[0] != q[0]
    ensures !StartsWith(s, q)
  {
    assert s[0] == s[..|p|][0];
  }

  /** The wording each check gives its message. */
  predicate Worded(kind: FailureKind, message: string) {
    match kind
    case SyntaxFailure => StartsWith(message, SYNTAX_PREFIX)
    case NameFailure => StartsWith(message, NAME_PREFIX)
    case TypeFailure => StartsWith(message, TYPE_PREFIX)
    case OtherFailure => StartsWith(message, OTHER_PREFIX)
    case NotAWorkout => StartsWith(message, NOT_A_WORKOUT_PREFIX)
    case MissingName => message == MISSING_NAME_MESSAGE
    case NoSegments => message == NO_SEGMENTS_MESSAGE
  }

  /** Every rejection carries the wording of the check that produced it. */
  lemma RejectionsAreWorded(rt: Runtime, code: string)
    requires Validate(rt, code).Rejected?
    ensures Worded(Validate(rt, code).kind, Validate(rt, code).message)
  {
    var v := Validate(rt, code);
    var m := v.message;
    match v.kind
    case SyntaxFailure => assert m[..|SYNTAX_PREFIX|] == SYNTAX_PREFIX;
    case NameFailure => assert m[..|NAME_PREFIX|] == NAME_PREFIX;
    case TypeFailure => assert m[..|TYPE_PREFIX|] == TYPE_PREFIX;
    case OtherFailure => assert m[..|OTHER_PREFIX|] == OTHER_PREFIX;
    case NotAWorkout => assert m[..|NOT_A_WORKOUT_PREFIX|] == NOT_A_WORKOUT_PREFIX;
    case MissingName =>
    case NoSegments =>
  }

  /** The wordings of the seven checks are told apart by MessageKind. */
  lemma WordingNamesKind(kind: FailureKind, m: string)
    requires Worded(kind, m)
    ensures MessageKind(m) == Some(kind)
  {
    assert SYNTAX_PREFIX[0] == 'S' && NAME_PREFIX[0] == 'N' && TYPE_PREFIX[0] == 'T';
    assert OTHER_PREFIX[0] == 'E' && NOT_A_WORKOUT_PREFIX[0] == 'G';
    match kind
    case SyntaxFailure =>
    case NameFailure =>
      DifferentFirstChar(m, NAME_PREFIX, SYNTAX_PREFIX);
    case TypeFailure =>
      DifferentFirstChar(m, TYPE_PREFIX, SYNTAX_PREFIX);
      DifferentFirstChar(m, TYPE_PREFIX, NAME_PREFIX);
    case OtherFailure =>
      DifferentFirstChar(m, OTHER_PREFIX, SYNTAX_PREFIX);
      DifferentFirstChar(m, OTHER_PREFIX, NAME_PREFIX);
      DifferentFirstChar(m, OTHER_PREFIX, TYPE_PREFIX);
    case NotAWorkout =>
      DifferentFirstChar(m, NOT_A_WORKOUT_PREFIX, SYNTAX_PREFIX);
      DifferentFirstChar(m, NOT_A_WORKOUT_PREFIX, NAME_PREFIX);
      DifferentFirstChar(m, NOT_A_WORKOUT_PREFIX, TYPE_PREFIX);
      DifferentFirstChar(m, NOT_A_WORKOUT_PREFIX, OTHER_PREFIX);
    case MissingName =>
      assert m[..|m|] == m;
      DifferentFirstChar(m, m, SYNTAX_PREFIX);
      DifferentFirstChar(m, m, NAME_PREFIX);
      DifferentFirstChar(m, m, TYPE_PREFIX);
      DifferentFirstChar(m, m, OTHER_PREFIX);
      DifferentFirstChar(m, m, NOT_A_WORKOUT_PREFIX);
    case NoSegments =>
      assert m[..|m|] == m;
      DifferentFirstChar(m, m, SYNTAX_PREFIX);
      DifferentFirstChar(m, m, NAME_PREFIX);
      DifferentFirstChar(m, m, TYPE_PREFIX);
      DifferentFirstChar(m, m, OTHER_PREFIX);
      DifferentFirstChar(m, m, NOT_A_WORKOUT_PREFIX);
      assert m[8] != MISSING_NAME_MESSAGE[8];
  }

  /** The message alone tells which check failed, so no information beyond the
      message is needed to tell the kinds of failure apart. */
  lemma MessageNamesItsCheck(rt: Runtime, code: string)
    requires Validate(rt, code).Rejected?
    ensures MessageKind(Validate(rt, code).message) == Some(Validate(rt, code).kind)
  {
    RejectionsAreWorded(rt, code);
    WordingNamesKind(Validate(rt, code).kind, Validate(rt, code).message);
  }

  /** The tuple `evaluate_workout` returns is one of its two shapes: success
      comes with an empty message and an object, failure with a non-empty
      message and None. */
  lemma TupleShape(rt: Runtime, code: string)
    ensures var v := Validate(rt, code);
      && (v.Success() <==> v.ErrorMessage() == "")
      && (v.Success() <==> v.Object().Some?)
  {
    var v := Validate(rt, code);
    if v.Rejected? {
      RejectionsAreWorded(rt, code);
      assert |v.message| > 0 by {
        match v.kind
        case SyntaxFailure =>
        case NameFailure =>
        case TypeFailure =>
        case OtherFailure =>
        case NotAWorkout =>
        case MissingName =>
        case NoSegments =>
      }
    }
  }
}
