/** The `WahooToGarminConverter` class: the methods that talk to the model,
    write the output file and read it back, and the retry loop that drives
    them. The model is the function `model` applied to the number of
    `converse` calls made so far; the output file is the field `outputFile`,
    which every save overwrites. */
module Converter {
  import opened Py
  import opened Prompts
  import opened Evaluation
  import opened Pipeline

  class WahooToGarminConverter {
    /** The Bedrock model, with the system prompt fixed at construction. */
    const model: Model
    /** What `eval` and the workout library do with an artifact. */
    const runtime: Runtime
    /** The number of `converse` calls made so far. */
    var calls: nat
    /** The contents of the output file. */
    var outputFile: string

    constructor(model: Model, runtime: Runtime, outputFile: string)
      ensures this.model == model && this.runtime == runtime
      ensures calls == 0 && this.outputFile == outputFile
    {
      this.model := model;
      this.runtime := runtime;
      calls := 0;
      this.outputFile := outputFile;
    }

    /** One `converse` call and the removal of a closing fence from its
        reply. */
    method Generate(request: Request) returns (code: Completion<string>)
      modifies this
      ensures code == CleanReply(Converse(model, old(calls), request))
      ensures calls == old(calls) + 1 && outputFile == old(outputFile)
    {
      var response := Converse(model, calls, request);
      calls := calls + 1;
      match response
      case Raised(x) =>
        code := Raised(x);
      case Normal(content) =>
        if EndsWith(content, FENCE) {
          content := RStrip(content[..|content| - |FENCE|]);
        }
        code := Normal(content);
    }

    /** `_generate_workout_code`. */
    method GenerateWorkoutCode(wahooText: string, workoutType: Option<string>)
      returns (code: Completion<string>)
      modifies this
      ensures code == CleanReply(Converse(model, old(calls), InitialRequest(wahooText, workoutType)))
      ensures calls == old(calls) + 1 && outputFile == old(outputFile)
    {
      code := Generate(InitialRequest(wahooText, workoutType));
    }

    /** `_generate_workout_code_with_error`. */
    method GenerateWorkoutCodeWithError(wahooText: string, workoutType: Option<string>,
                                        errorMessage: string, previousCode: string)
      returns (code: Completion<string>)
      modifies this
      ensures code == CleanReply(Converse(model, old(calls),
                                       RetryRequest(wahooText, workoutType, errorMessage, previousCode)))
      ensures calls == old(calls) + 1 && outputFile == old(outputFile)
    {
      code := Generate(RetryRequest(wahooText, workoutType, errorMessage, previousCode));
    }

    /** `_save_workout_code`: the file holds the code without surrounding
        whitespace, whatever it held before. */
    method SaveWorkoutCode(pythonCode: string)
      modifies this
      ensures outputFile == Strip(pythonCode) && Trimmed(outputFile)
      ensures calls == old(calls)
    {
      StripSpec(pythonCode);
      outputFile := Strip(pythonCode);
    }

    /** `convert_workout`: generate, then save; the code is returned as
        generated, before `strip()`. The type defaults to "swimming". */
    method ConvertWorkout(wahooText: string, workoutType: Option<string> := Some("swimming"))
      returns (code: Completion<string>)
      modifies this
      ensures code == CleanReply(Converse(model, old(calls), InitialRequest(wahooText, workoutType)))
      ensures calls == old(calls) + 1
      ensures outputFile == if code.Normal? then Strip(code.value) else old(outputFile)
    {
      code := GenerateWorkoutCode(wahooText, workoutType);
      if code.Normal? {
        SaveWorkoutCode(code.value);
      }
    }

    /** `retry_with_error`: generate with feedback, then save. */
    method RetryWithError(wahooText: string, workoutType: Option<string>,
                          errorMessage: string, previousCode: string)
      returns (code: Completion<string>)
      modifies this
      ensures code == CleanReply(Converse(model, old(calls),
                                       RetryRequest(wahooText, workoutType, errorMessage, previousCode)))
      ensures calls == old(calls) + 1
      ensures outputFile == if code.Normal? then Strip(code.value) else old(outputFile)
    {
      code := GenerateWorkoutCodeWithError(wahooText, workoutType, errorMessage, previousCode);
      if code.Normal? {
        SaveWorkoutCode(code.value);
      }
    }

    /** `evaluate_workout(output_file)`: the verdict on the file's contents, as
        the tuple `(success, error_message, workout)`. */
    method EvaluateWorkout() returns (success: bool, message: string, workout: Option<Workout>)
      ensures var v := Validate(runtime, outputFile);
        success == v.Success() && message == v.ErrorMessage() && workout == v.Object()
    {
      var v := Validate(runtime, outputFile);
      success, message, workout := v.Success(), v.ErrorMessage(), v.Object();
    }

    /** `convert_with_retry(wahoo_text, workout_type, output_file,
        max_retries)`: the outcome of the run Pipeline.Conversion describes,
        with one `converse` call per generation and the file holding the
        stripped code of the last attempt. By default no type is given and
        three attempts are allowed. */
    method ConvertWithRetry(wahooText: string, workoutType: Option<string> := None,
                            maxRetries: int := 3)
      returns (outcome: Outcome)
      modifies this
      ensures var r := Conversion(Asker(model, wahooText, workoutType), Judger(runtime), old(calls), maxRetries);
        && outcome == r.outcome
        && calls == old(calls) + Generations(r)
        && outputFile == FileAfter(old(outputFile), r.attempts)
    {
      AskerSends(model, wahooText, workoutType);
      JudgerJudges(runtime);
      outcome := RetryLoop(wahooText, workoutType, maxRetries,
                           Asker(model, wahooText, workoutType), Judger(runtime));
    }

    /** One pass of the loop body of `convert_with_retry`: attempt `|done|`
        generates (the first request, or the retry carrying the previous
        error and code), saves, and evaluates unless the call raised. */
    method Round(wahooText: string, workoutType: Option<string>, attempt: nat,
                 errorMessage: Option<string>, previousCode: Option<string>,
                 ghost ask: Ask, ghost judge: Judge, ghost base: nat, ghost done: seq<Attempt>)
      returns (code: Completion<string>, success: bool, message: string, workout: Option<Workout>,
               ghost a: Attempt)
      requires Sends(ask, model, wahooText, workoutType) && Judges(judge, runtime)
      requires attempt == |done| && calls == base + attempt
      requires Carried(done, errorMessage, previousCode)
      modifies this
      ensures calls == old(calls) + 1
      ensures code.Raised? ==> Reply(ask, base + |done|, PromptAfter(Last(done))) == code
      ensures code.Raised? ==> outputFile == old(outputFile)
      ensures code.Normal? ==>
        && AttemptFollows(ask, judge, base, |done|, Last(done), a)
        && a.code == code.value && outputFile == Strip(a.code)
        && success == a.verdict.Success() && message == a.verdict.ErrorMessage() && workout == a.verdict.Object()
    {
      success, message, workout := false, "", None;
      a := Attempt(PromptAfter(Last(done)), "", Rejected(OtherFailure, ""));
      if attempt == 0 {
        code := ConvertWorkout(wahooText, workoutType);
      } else {
        assert Last(done) == Some(done[|done| - 1]);
        code := RetryWithError(wahooText, workoutType, errorMessage.value, previousCode.value);
      }
      if code.Normal? {
        success, message, workout := EvaluateWorkout();
        a := Attempt(PromptAfter(Last(done)), code.value, Validate(runtime, outputFile));
      }
    }

    /** The loop of `convert_with_retry`, proved for any `ask` and `judge`
        that agree with this converter's requests and evaluation. */
    method RetryLoop(wahooText: string, workoutType: Option<string>, maxRetries: int,
                     ghost ask: Ask, ghost judge: Judge)
      returns (outcome: Outcome)
      requires Sends(ask, model, wahooText, workoutType) && Judges(judge, runtime)
      modifies this
      ensures var r := Conversion(ask, judge, old(calls), maxRetries);
        && outcome == r.outcome
        && calls == old(calls) + Generations(r)
        && outputFile == FileAfter(old(outputFile), r.attempts)
    {
      ghost var base := calls;
      ghost var done: seq<Attempt> := [];
      var errorMessage: Option<string> := None;
      var previousCode: Option<string> := None;
      var attempt := 0;
      while attempt < maxRetries
        invariant attempt == |done| && (attempt == 0 || attempt <= maxRetries)
        invariant Conversion(ask, judge, base, maxRetries) == RunFrom(ask, judge, base, maxRetries, done)
        invariant calls == base + attempt
        invariant Carried(done, errorMessage, previousCode)
        invariant outputFile == FileAfter(old(outputFile), done)
        decreases maxRetries - attempt
      {
        var code, success, message, workout, a :=
          Round(wahooText, workoutType, attempt, errorMessage, previousCode, ask, judge, base, done);
        if code.Raised? {
          RaisedStep(ask, judge, base, maxRetries, done);
          return Threw(code.exception);
        }
        if success {
          AcceptedStep(ask, judge, base, maxRetries, done, a);
          return Returned(true, SUCCESS_MESSAGE, workout);
        }
        RejectedStep(ask, judge, base, maxRetries, done, a);
        done := done + [a];
        errorMessage := Some(message);
        previousCode := Some(code.value);
        attempt := attempt + 1;
      }
      FinalStep(ask, judge, base, maxRetries, done);
      if errorMessage.None? {
        return Threw(UNBOUND_ERROR);
      }
      return Returned(false, ExhaustedMessage(maxRetries, errorMessage.value), None);
    }
  }
}
