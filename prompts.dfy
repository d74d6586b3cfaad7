/** The requests the converter sends to the model and the clean-up of its
    replies: `_generate_workout_code` (first attempt),
    `_generate_workout_code_with_error` (every retry) and the removal of a
    closing code fence from the reply. */
module Prompts {
  import opened Py

  /** One `converse` call: the user turn, the assistant turn that primes the
      reply to start as code, and the inference settings. The system prompt is
      fixed for the converter's lifetime and is not part of the model. */
  datatype Request = Request(userMessage: string, prefill: string, maxTokens: nat, temperature: real)

  const PREFILL := "```python"
  const MAX_TOKENS: nat := 4096
  const TEMPERATURE: real := 0.1
  const FENCE := "```"

  /** Python truthiness of `workout_type: str | None`. */
  predicate IsTruthy(workoutType: Option<string>) {
    workoutType.Some? && workoutType.value != ""
  }

  const NAMED := "creates a "
  const NAMED_TAIL := "Workout object"
  const AUTO_INSTRUCTION :=
    "creates the appropriate Workout object (SwimmingWorkout, RunningWorkout, or CyclingWorkout)"

  /** What the reply must create: the named workout class, or any of three. */
  function WorkoutInstruction(workoutType: Option<string>): string {
    if IsTruthy(workoutType) then NAMED + Capitalize(workoutType.value) + NAMED_TAIL
    else AUTO_INSTRUCTION
  }

  const TYPED_HEAD := "Convert this "
  const TYPED_TAIL := " workout to Python code:\n\n"
  const AUTO_INTRO :=
    "Convert this workout to Python code (auto-detect the workout type from the content):\n\n"
  const GENERATE := "\n\nGenerate the Python code that "

  /** The user message of the first attempt, which names the type when one
      is given. */
  function InitialMessage(wahooText: string, workoutType: Option<string>): string {
    if IsTruthy(workoutType) then
      TYPED_HEAD + workoutType.value + TYPED_TAIL + wahooText
      + GENERATE + NAMED + Capitalize(workoutType.value) + NAMED_TAIL + "."
    else
      AUTO_INTRO + wahooText + GENERATE + AUTO_INSTRUCTION + "."
  }

  /** Where the workout text starts in the first request. */
  function TextOffset(workoutType: Option<string>): nat {
    if IsTruthy(workoutType) then |TYPED_HEAD| + |workoutType.value| + |TYPED_TAIL| else |AUTO_INTRO|
  }

  const ERROR_HEAD := "The previous workout conversion failed with this error:\n\nERROR: "
  const CODE_HEAD := "\n\nPREVIOUS CODE:\n```python\n"
  const TEXT_HEAD := "\n```\n\nORIGINAL WORKOUT:\n"
  const FIX := "\n\nPlease fix the error and generate corrected Python code that "

  /** The user message of a retry: the previous error and code, verbatim,
      then the original workout text. */
  function RetryMessage(wahooText: string, workoutType: Option<string>,
                        errorMessage: string, previousCode: string): string {
    ERROR_HEAD + errorMessage + CODE_HEAD + previousCode + TEXT_HEAD + wahooText
    + FIX + WorkoutInstruction(workoutType) + "."
  }

  function InitialRequest(wahooText: string, workoutType: Option<string>): Request {
    Request(InitialMessage(wahooText, workoutType), PREFILL, MAX_TOKENS, TEMPERATURE)
  }

  function RetryRequest(wahooText: string, workoutType: Option<string>,
                        errorMessage: string, previousCode: string): Request {
    Request(RetryMessage(wahooText, workoutType, errorMessage, previousCode),
            PREFILL, MAX_TOKENS, TEMPERATURE)
  }

  /** Which of the two requests an attempt sends: the first one, or the
      retry that reports the previous attempt's error and code. */
  datatype Prompt = FirstPrompt | RetryPrompt(errorMessage: string, previousCode: string)

  /** The request a prompt stands for. */
  function RequestFor(wahooText: string, workoutType: Option<string>, p: Prompt): Request {
    match p
    case FirstPrompt => InitialRequest(wahooText, workoutType)
    case RetryPrompt(errorMessage, previousCode) =>
      RetryRequest(wahooText, workoutType, errorMessage, previousCode)
  }

  /** Where each part sits in a concatenation of nine parts. */
  lemma PartsOfNine(a: string, b: string, c: string, d: string, e: string, f: string,
                    g: string, h: string, i: string)
    ensures var m := a + b + c + d + e + f + g + h + i;
      && OccursAt(m, b, |a|)
      && OccursAt(m, d, |a| + |b| + |c|)
      && OccursAt(m, f, |a| + |b| + |c| + |d| + |e|)
      && EndsWith(m, h + i) && EndsWith(m, g + h + i) && EndsWith(m, f + g + h + i)
  {
    var m := a + b + c + d + e + f + g + h + i;
    assert m[|a|..|a| + |b|] == b;
    assert m[|a| + |b| + |c|..|a| + |b| + |c| + |d|] == d;
    assert m[|a| + |b| + |c| + |d| + |e|..|a| + |b| + |c| + |d| + |e| + |f|] == f;
    assert m[|m| - |h + i|..] == h + i;
    assert m[|m| - |g + h + i|..] == g + h + i;
    assert m[|m| - |f + g + h + i|..] == f + g + h + i;
  }

  /** Where each part sits in a concatenation of five parts. */
  lemma PartsOfFive(a: string, b: string, c: string, d: string, e: string)
    ensures var m := a + b + c + d + e;
      && StartsWith(m, a) && OccursAt(m, b, |a|) && EndsWith(m, d + e)
  {
    var m := a + b + c + d + e;
    assert m[..|a|] == a;
    assert m[|a|..|a| + |b|] == b;
    assert m[|m| - |d + e|..] == d + e;
  }

  /** A retry request carries the previous error, the previous code and the
      original workout text verbatim, at fixed places, and ends by asking for
      the object to create. */
  lemma RetryMessageCarriesFeedback(wahooText: string, workoutType: Option<string>,
                                    errorMessage: string, previousCode: string)
    ensures var m := RetryMessage(wahooText, workoutType, errorMessage, previousCode);
      && OccursAt(m, errorMessage, |ERROR_HEAD|)
      && OccursAt(m, previousCode, |ERROR_HEAD| + |errorMessage| + |CODE_HEAD|)
      && OccursAt(m, wahooText, |ERROR_HEAD| + |errorMessage| + |CODE_HEAD| + |previousCode| + |TEXT_HEAD|)
      && EndsWith(m, WorkoutInstruction(workoutType) + ".")
  {
    PartsOfNine(ERROR_HEAD, errorMessage, CODE_HEAD, previousCode, TEXT_HEAD, wahooText,
                FIX, WorkoutInstruction(workoutType), ".");
  }

  /** The request of a retry prompt carries the error and the code it
      reports and the original workout text, verbatim and at fixed places. */
  lemma RetryPromptCarriesFeedback(wahooText: string, workoutType: Option<string>,
                                   errorMessage: string, previousCode: string)
    ensures var m := RequestFor(wahooText, workoutType, RetryPrompt(errorMessage, previousCode)).userMessage;
      && OccursAt(m, errorMessage, |ERROR_HEAD|)
      && OccursAt(m, previousCode, |ERROR_HEAD| + |errorMessage| + |CODE_HEAD|)
      && OccursAt(m, wahooText, |ERROR_HEAD| + |errorMessage| + |CODE_HEAD| + |previousCode| + |TEXT_HEAD|)
  {
    RetryMessageCarriesFeedback(wahooText, workoutType, errorMessage, previousCode);
  }

  /** With a type given, the first request carries the type and the workout
      text, and ends by asking for the capitalised class. */
  lemma TypedInitialMessage(wahooText: string, workoutType: Option<string>)
    requires IsTruthy(workoutType)
    ensures var m := InitialMessage(wahooText, workoutType);
      && OccursAt(m, workoutType.value, |TYPED_HEAD|)
      && OccursAt(m, wahooText, TextOffset(workoutType))
      && EndsWith(m, WorkoutInstruction(workoutType) + ".")
      && EndsWith(m, Capitalize(workoutType.value) + NAMED_TAIL + ".")
  {
    var t := workoutType.value;
    PartsOfNine(TYPED_HEAD, t, TYPED_TAIL, wahooText, GENERATE, NAMED, Capitalize(t), NAMED_TAIL, ".");
  }

  /** With no type, or the empty type, the first request is the auto-detect
      request: the same for both, carrying the workout text right after its
      fixed introduction and asking for any of the three classes. */
  lemma AutoInitialMessage(wahooText: string, workoutType: Option<string>)
    requires !IsTruthy(workoutType)
    ensures var m := InitialMessage(wahooText, workoutType);
      && m == InitialMessage(wahooText, None)
      && StartsWith(m, AUTO_INTRO)
      && OccursAt(m, wahooText, TextOffset(workoutType))
      && EndsWith(m, WorkoutInstruction(workoutType) + ".")
  {
    PartsOfFive(AUTO_INTRO, wahooText, GENERATE, AUTO_INSTRUCTION, ".");
  }

  /** Both requests end by asking for the same object. */
  lemma RequestsAskForSameObject(wahooText: string, workoutType: Option<string>,
                                 errorMessage: string, previousCode: string)
    ensures var ask := WorkoutInstruction(workoutType) + ".";
      && EndsWith(InitialMessage(wahooText, workoutType), ask)
      && EndsWith(RetryMessage(wahooText, workoutType, errorMessage, previousCode), ask)
  {
    if IsTruthy(workoutType) {
      TypedInitialMessage(wahooText, workoutType);
    } else {
      AutoInitialMessage(wahooText, workoutType);
    }
    RetryMessageCarriesFeedback(wahooText, workoutType, errorMessage, previousCode);
  }

  /** Removing a closing code fence from the reply. */
  function StripClosingFence(content: string): string {
    if EndsWith(content, FENCE) then RStrip(content[..|content| - |FENCE|]) else content
  }

  /** A reply ending in three backquotes loses them and the whitespace before
      them, and nothing else; any other reply is kept as it is. */
  lemma StripClosingFenceSpec(content: string)
    ensures var r := StripClosingFence(content);
      && (!EndsWith(content, FENCE) ==> r == content)
      && (EndsWith(content, FENCE) ==>
            && |r| <= |content| - |FENCE|
            && r == content[..|r|]
            && AllSpace(content[|r|..|content| - |FENCE|])
            && (r == [] || !IsSpace(r[|r| - 1])))
  {
    if EndsWith(content, FENCE) {
      var body := content[..|content| - |FENCE|];
      RStripSpec(body);
      var r := RStrip(body);
      assert content[|r|..|content| - |FENCE|] == body[|r|..];
    }
  }

  /** The post-processed reply of one `converse` call; an exception from the
      call propagates unchanged. */
  function CleanReply(reply: Completion<string>): (r: Completion<string>)
    ensures r.Raised? <==> reply.Raised?
    ensures r.Raised? ==> r == reply
    ensures r.Normal? ==> r.value == StripClosingFence(reply.value)
  {
    match reply
    case Raised(x) => Raised(x)
    case Normal(content) => Normal(StripClosingFence(content))
  }
}
