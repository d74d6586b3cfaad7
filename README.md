# garmin-workout: the convert-validate-retry core, in Dafny

This project models the part of garmin-workout that turns the text of a Wahoo
workout into a validated garminconnect workout object. The model is asked for
the code of one Python expression, the code is saved to a file, the file is
evaluated and checked, and on failure the model is asked again with the
error and the failed code. The step builders of `workout_helpers.py`, which
the namespace of `evaluate_workout` exposes to the generated code, are
modelled on their own, as functions.

Modules, one per concern of `wahoo_to_garmin_converter.py` and
`workout_helpers.py`:

- `Py` (py.dfy): the Python built-ins the converter relies on.
  - values of type `X | None`;
  - exceptions as values;
  - `str.isspace` and `endswith` as predicates;
  - `rstrip()` and `strip()`, with the lemmas that characterise them;
  - `capitalize()` and `str(int)`, with contracts on their results.
- `WorkoutHelpers` (workout_helpers.dfy): the eight `create_*_step_distance[_effort]` builders and `create_effort_target`, as functions returning `ExecutableStep` records.
- `Prompts` (prompts.dfy): the two user messages, the `converse` request (prefill, token limit, temperature) and the removal of a closing code fence from the reply.
- `Evaluation` (evaluation.dfy): `evaluate_workout`.
  - `eval` works on a small expression language (names, literals, list displays, calls with positional and keyword arguments), evaluated left to right.
  - Names are looked up in the 19-name namespace.
  - The outcome is mapped to the `(success, error_message, workout)` tuple, in the source's order of checks.
- `Pipeline` (pipeline.dfy): what `convert_with_retry` computes, as the function `Conversion`.
  - It is stated for any way of asking (`Ask`) and of judging (`Judge`).
  - It comes with an attempt-by-attempt characterisation (`Explains`) that pins it down exactly, and with the properties the loop promises.
- `Converter` (converter.dfy): the class `WahooToGarminConverter` and its methods, written imperatively.
  - The Bedrock model is a function of the number of `converse` calls made so far (`calls`) and of the request.
  - The output file is the field `outputFile`, which every save overwrites.
  - `RetryLoop` is the source's `for` loop, written as a `while` loop over any way of asking and judging that agrees with the converter's requests and with `evaluate_workout`.
  - `ConvertWithRetry` passes it the converter's own request builder and `evaluate_workout`. Its contract ties the returned tuple, the number of calls made and the final file contents to `Conversion`.

Notes on the code's behaviour:
- Running out of attempts returns `"Failed after N attempts. Last error: " + error`, not the last error alone.
- A rate-limit failure of the model is not told apart from any other exception: every exception escapes the loop unchanged.
- With `max_retries <= 0` the loop never runs and the final `return` raises `UnboundLocalError` (a NameError), because `error_message` was never bound.
- The validator calls `to_dict()` between the type check and the name check, and it has a catch-all clause for other exceptions.

## Model

| member | source | states |
|---|---|---|
| Py.EndsWith | wahoo_to_garmin_converter.py:158 | no contract of its own: the suffix is no longer than the string and is its tail; StripClosingFenceSpec and ExhaustedMessageParts state their results with it |
| Py.RStrip | wahoo_to_garmin_converter.py:159 | no contract of its own; RStripSpec and RStripPadded characterise it |
| Py.Strip | wahoo_to_garmin_converter.py:234 | no contract of its own; StripSpec and StripUnique characterise it, and StripIdempotent follows |
| Py.RStripSpec | wahoo_to_garmin_converter.py:159 | `rstrip()` keeps the prefix that does not end in whitespace and is followed only by whitespace |
| Py.LStripSpec | wahoo_to_garmin_converter.py:234 | the left half of `strip()` keeps the suffix that does not start with whitespace and is preceded only by whitespace |
| Py.StripSpec | wahoo_to_garmin_converter.py:234 | `strip()` returns the core of the string between a whitespace head and a whitespace tail, and that core neither starts nor ends with whitespace |
| Py.RStripPadded | wahoo_to_garmin_converter.py:159 | `rstrip()` removes exactly a whitespace tail that follows a non-space |
| Py.LStripPadded | wahoo_to_garmin_converter.py:234 | the left half of `strip()` removes exactly a whitespace head that precedes a non-space |
| Py.StripUnique | wahoo_to_garmin_converter.py:234 | the two properties of StripSpec determine `strip()`'s result uniquely |
| Py.StripIdempotent | wahoo_to_garmin_converter.py:234 | stripping twice is stripping once |
| Py.Capitalize | wahoo_to_garmin_converter.py:126 | `capitalize()` keeps the length, upper-cases the first character and lower-cases every other one |
| Py.NatToString | wahoo_to_garmin_converter.py:378 | `str(n)` for `n >= 0` is a non-empty run of decimal digits with no leading zero |
| Py.NatToStringRoundTrip | wahoo_to_garmin_converter.py:378 | the digits `str(n)` prints denote `n` |
| Py.IntToString | wahoo_to_garmin_converter.py:378 | `str(n)` is the digits of `n`, with a leading minus sign when `n < 0` |
| WorkoutHelpers.StepTypeIdentifiesKind | workout_helpers.py:32-36 | each of the four kinds has its own step-type record (ids and display orders 1-4), and the kind can be read back from its key |
| WorkoutHelpers.TargetOrDefault | workout_helpers.py:44-49 | a truthy caller target is kept; `None` or `{}` gives the `no.target` record; the result is never empty |
| WorkoutHelpers.DistanceStep | workout_helpers.py:30-51 | the step has the kind's step type, the distance end condition (id 3), the given distance, order and description, the defaulted target and no effort |
| WorkoutHelpers.CreateWarmupStepDistance | workout_helpers.py:14-51 | a warmup distance step with the given distance, order (default 1) and description, the target or its default, and no effort |
| WorkoutHelpers.CreateIntervalStepDistance | workout_helpers.py:54-91 | an interval distance step with the given fields, the target or its default, and no effort |
| WorkoutHelpers.CreateRecoveryStepDistance | workout_helpers.py:94-131 | a recovery distance step with the given fields, the target or its default, and no effort |
| WorkoutHelpers.CreateCooldownStepDistance | workout_helpers.py:134-171 | a cooldown distance step with the given fields, the target or its default, and no effort |
| WorkoutHelpers.CreateEffortTarget | workout_helpers.py:175-197 | primary target `no.target`, secondary target `swim.instruction` (id 18), value one the effort level as a float, value two 0.0; no range check |
| WorkoutHelpers.DistanceEffortStep | workout_helpers.py:200-232 | a distance step of the kind whose secondary target carries the effort level |
| WorkoutHelpers.CreateWarmupStepDistanceEffort | workout_helpers.py:200-232 | a warmup distance step with the given fields whose secondary target carries the effort level |
| WorkoutHelpers.CreateIntervalStepDistanceEffort | workout_helpers.py:235-267 | an interval distance step with the given fields whose secondary target carries the effort level |
| WorkoutHelpers.CreateRecoveryStepDistanceEffort | workout_helpers.py:270-302 | a recovery distance step with the given fields whose secondary target carries the effort level |
| WorkoutHelpers.CreateCooldownStepDistanceEffort | workout_helpers.py:305-337 | a cooldown distance step with the given fields whose secondary target carries the effort level |
| WorkoutHelpers.WithEffort | workout_helpers.py:214-231 | no contract of its own; EffortStepExtendsPlainStep states that each effort builder is its plain counterpart passed through it |
| WorkoutHelpers.EffortStepExtendsPlainStep | workout_helpers.py:214-231 | an effort step is its plain counterpart with the fields of `create_effort_target(effort_level)` spliced in |
| WorkoutHelpers.EffortLevelRoundTrip | workout_helpers.py:195-196 | the effort level is read back exactly from the step, and different levels give different steps |
| Prompts.WorkoutInstruction | wahoo_to_garmin_converter.py:177-180 | no contract of its own; TypedInitialMessage and RequestsAskForSameObject state that both messages end by asking for it |
| Prompts.InitialMessage | wahoo_to_garmin_converter.py:121-132 | no contract of its own; TypedInitialMessage and AutoInitialMessage characterise it |
| Prompts.RetryMessage | wahoo_to_garmin_converter.py:182-194 | no contract of its own; RetryMessageCarriesFeedback characterises it |
| Prompts.InitialRequest | wahoo_to_garmin_converter.py:134-151 | no contract of its own: the first message with the prefill, 4096 tokens and temperature 0.1; AskerSends states that the converter sends it for the first prompt |
| Prompts.RetryRequest | wahoo_to_garmin_converter.py:196-213 | no contract of its own: the retry message with the same prefill and settings; AskerSends and RetryPromptCarriesFeedback state what it carries |
| Prompts.StripClosingFence | wahoo_to_garmin_converter.py:157-159 | no contract of its own; StripClosingFenceSpec characterises it, for the same code at lines 219-221 too |
| Prompts.RetryMessageCarriesFeedback | wahoo_to_garmin_converter.py:182-194 | the retry message holds the error, the previous code and the workout text verbatim at fixed offsets, and ends by asking for the workout object |
| Prompts.RetryPromptCarriesFeedback | wahoo_to_garmin_converter.py:177-194 | the request of a retry prompt carries its error, its code and the workout text verbatim |
| Prompts.TypedInitialMessage | wahoo_to_garmin_converter.py:121-126 | with a truthy type, the first message holds the type and the text, and ends by asking for `capitalize(type) + "Workout"` |
| Prompts.AutoInitialMessage | wahoo_to_garmin_converter.py:127-132 | with `None` or `""`, the first message is the auto-detect message, the same for both, carrying the text after its introduction |
| Prompts.RequestsAskForSameObject | wahoo_to_garmin_converter.py:121-194 | the first message and the retry message end by asking for the same object |
| Prompts.StripClosingFenceSpec | wahoo_to_garmin_converter.py:157-159 | a reply ending in three backquotes loses them and the whitespace before them and nothing else; any other reply is unchanged |
| Prompts.CleanReply | wahoo_to_garmin_converter.py:153-161 | an exception from `converse` propagates unchanged; a reply comes back with its closing fence removed |
| Evaluation.Eval | wahoo_to_garmin_converter.py:278 | no contract of its own; UnknownNameNeverEvaluates and NameErrorOnlyFromUnknownName characterise when it raises a NameError |
| Evaluation.EvalArtifact | wahoo_to_garmin_converter.py:278 | no contract of its own: compile, then Eval; AcceptedExactly and ChecksInOrder state what Validate makes of it |
| Evaluation.CheckWorkout | wahoo_to_garmin_converter.py:281-294 | no contract of its own; ChecksInOrder and AcceptedExactly state its checks and their order |
| Evaluation.TypeRepr | wahoo_to_garmin_converter.py:282 | no contract of its own: the text after the not-a-workout prefix, which RejectionsAreWorded places |
| Evaluation.Lookup | wahoo_to_garmin_converter.py:255-275 | a name is found exactly when it is one of the 19 keys of the namespace, and it is found under its own name |
| Evaluation.LookupFindsEverySymbol | wahoo_to_garmin_converter.py:255-275 | each of the 19 bound objects is found under its key |
| Evaluation.UnknownNameNeverEvaluates | wahoo_to_garmin_converter.py:278 | an expression that mentions a name outside the namespace always raises |
| Evaluation.UnknownNameInListNeverEvaluates | wahoo_to_garmin_converter.py:278 | a list of expressions one of which mentions an unknown name raises |
| Evaluation.UnknownNameInKeywordsNeverEvaluates | wahoo_to_garmin_converter.py:278 | keyword arguments one of which mentions an unknown name raise |
| Evaluation.NameErrorOnlyFromUnknownName | wahoo_to_garmin_converter.py:298-299 | if the library raises no NameError of its own, a NameError comes only from a name outside the namespace |
| Evaluation.NoNameErrorInList | wahoo_to_garmin_converter.py:298-299 | the same for a list of expressions |
| Evaluation.NoNameErrorInKeywords | wahoo_to_garmin_converter.py:298-299 | the same for keyword arguments |
| Evaluation.ExceptionVerdict | wahoo_to_garmin_converter.py:296-303 | every caught exception becomes a rejection of the `except` clause for its family (syntax, name, type, other), and the message ends with `str(e)` whole; for other exceptions the class name follows the prefix |
| Evaluation.Validate | wahoo_to_garmin_converter.py:249-303 | an accepted workout has a non-empty name and at least one segment |
| Evaluation.AcceptedExactly | wahoo_to_garmin_converter.py:278-294 | the artifact is accepted with `w` exactly when it evaluates to workout `w`, `w.to_dict()` returns, and `w` has a name and segments |
| Evaluation.ChecksInOrder | wahoo_to_garmin_converter.py:278-303 | an `eval` exception decides the verdict first; then the type check, then `to_dict`, then the name, then the segments |
| Evaluation.UnknownNameRejected | wahoo_to_garmin_converter.py:255-303 | an artifact that mentions a name outside the namespace is rejected by one of the `except` clauses |
| Evaluation.UnknownNameMessage | wahoo_to_garmin_converter.py:298-299 | a bare unknown name is reported as a name error that names it |
| Evaluation.RejectionsAreWorded | wahoo_to_garmin_converter.py:282-303 | every rejection message has the wording of the check that produced it |
| Evaluation.WordingNamesKind | wahoo_to_garmin_converter.py:282-303 | the seven wordings are told apart by their text |
| Evaluation.MessageNamesItsCheck | wahoo_to_garmin_converter.py:282-303 | the message alone tells which check rejected the artifact |
| Evaluation.TupleShape | wahoo_to_garmin_converter.py:282-303 | success comes with an empty message and an object; failure comes with a non-empty message and None |
| Pipeline.AskerSends | wahoo_to_garmin_converter.py:134-151 | the converter's way of asking sends the first request for the first prompt and the retry request, built from the prompt's error and code, for a retry prompt |
| Pipeline.JudgerJudges | wahoo_to_garmin_converter.py:356 | the converter's way of judging is `evaluate_workout` |
| Pipeline.ExhaustedMessage | wahoo_to_garmin_converter.py:378 | no contract of its own; ExhaustedMessageParts characterises it |
| Pipeline.RunFrom | wahoo_to_garmin_converter.py:325-378 | no contract of its own; RaisedStep, AcceptedStep, RejectedStep and FinalStep give it step by step, and RunFromExplained and ExplainedRunContinues relate it to Explains |
| Pipeline.Conversion | wahoo_to_garmin_converter.py:305-378 | no contract of its own; ExplainsExactly characterises it attempt by attempt |
| Pipeline.ExhaustedMessageParts | wahoo_to_garmin_converter.py:378 | the exhaustion message names `max_retries` and ends with the last error, whole |
| Pipeline.ChainExtends | wahoo_to_garmin_converter.py:325-369 | an attempt that follows the last one extends the chain of attempts |
| Pipeline.ExtendHistory | wahoo_to_garmin_converter.py:366-369 | a rejected attempt extends a history of rejected attempts |
| Pipeline.ExhaustionExplained | wahoo_to_garmin_converter.py:378 | using up the attempts after rejected ones is an explained run |
| Pipeline.FailedCallExplained | wahoo_to_garmin_converter.py:337-348 | a `converse` call that raises after rejected attempts is an explained run |
| Pipeline.AcceptanceExplained | wahoo_to_garmin_converter.py:358-365 | an accepted attempt after rejected ones is an explained run |
| Pipeline.RaisedStep | wahoo_to_garmin_converter.py:337-348 | when the next call raises, the run stops there with that exception |
| Pipeline.AcceptedStep | wahoo_to_garmin_converter.py:358-365 | when the next attempt is accepted, the run returns its workout with the success message |
| Pipeline.FinalStep | wahoo_to_garmin_converter.py:378 | with no attempt left, the run raises `UnboundLocalError` if there was none, and otherwise returns the exhaustion message |
| Pipeline.RejectedStep | wahoo_to_garmin_converter.py:366-369 | after a rejected attempt the run goes on from the longer history |
| Pipeline.RunFromExplained | wahoo_to_garmin_converter.py:325-378 | continuing after rejected attempts gives an explained run that begins with them |
| Pipeline.ConversionExplained | wahoo_to_garmin_converter.py:325-378 | every conversion is explained attempt by attempt |
| Pipeline.StoppedRunContinues | wahoo_to_garmin_converter.py:325-378 | an explained run with no attempt beyond `done` stopped right after `done` |
| Pipeline.NextAttempt | wahoo_to_garmin_converter.py:332-356 | in an explained run, the attempt after `done` follows `done` |
| Pipeline.AcceptedRunContinues | wahoo_to_garmin_converter.py:358-365 | an explained run whose next attempt was accepted stops there |
| Pipeline.ExplainedRunContinues | wahoo_to_garmin_converter.py:325-378 | an explained run that begins with rejected attempts is the run that continues after them |
| Pipeline.ExplainsExactly | wahoo_to_garmin_converter.py:325-378 | a run is explained attempt by attempt exactly when it is the conversion |
| Pipeline.AttemptBound | wahoo_to_garmin_converter.py:325 | at most `max_retries` calls, none when `max_retries <= 0`; a run that returns evaluated every reply it got |
| Pipeline.SuccessAfterExactlyK | wahoo_to_garmin_converter.py:358-365 | success at attempt k means exactly k calls, attempts 1..k-1 rejected, attempt k accepted, and its workout returned with the success message |
| Pipeline.SuccessIffAccepted | wahoo_to_garmin_converter.py:356-365 | the run succeeds exactly when one of its attempts was accepted |
| Pipeline.PromptChain | wahoo_to_garmin_converter.py:332-348 | attempt 0 sends the first prompt; every later attempt sends the retry prompt built from the previous attempt's error and code |
| Pipeline.ReplyChain | wahoo_to_garmin_converter.py:337-356 | attempt j keeps the fence-stripped reply of call `base + j` to its own prompt and is judged on its `strip()`ped form |
| Pipeline.FeedbackCarried | wahoo_to_garmin_converter.py:182-194 | the request after an attempt repeats that attempt's error and code and the workout text |
| Pipeline.RetriesCarryFeedback | wahoo_to_garmin_converter.py:342-348 | every retry request of a run repeats the previous attempt's error and code and the workout text verbatim |
| Pipeline.SuccessYieldsValidWorkout | wahoo_to_garmin_converter.py:281-294 | a successful conversion returns a workout that the last artifact evaluated to, whose `to_dict()` returned, with a name and segments |
| Pipeline.ExhaustionKeepsLastError | wahoo_to_garmin_converter.py:366-378 | a failed run without exception made `max_retries` attempts, all rejected, and reports only the last error |
| Pipeline.ExceptionsPropagate | wahoo_to_garmin_converter.py:325-378 | an exception escapes exactly when there was no attempt to make or a `converse` call raised, and then it is that call's exception |
| Converter.WahooToGarminConverter.constructor | wahoo_to_garmin_converter.py:33-58 | a new converter has made no call yet |
| Converter.WahooToGarminConverter.Generate | wahoo_to_garmin_converter.py:134-161 | one `converse` call, counted; its reply with the closing fence removed; the file untouched |
| Converter.WahooToGarminConverter.GenerateWorkoutCode | wahoo_to_garmin_converter.py:111-161 | the cleaned reply to the first request, from one call |
| Converter.WahooToGarminConverter.GenerateWorkoutCodeWithError | wahoo_to_garmin_converter.py:163-223 | the cleaned reply to the retry request, from one call |
| Converter.WahooToGarminConverter.SaveWorkoutCode | wahoo_to_garmin_converter.py:225-238 | the file holds `strip()` of the code, whatever it held before |
| Converter.WahooToGarminConverter.ConvertWorkout | wahoo_to_garmin_converter.py:60-79 | the reply to the first request (type "swimming" by default), returned as generated; the file holds its `strip()`; on an exception nothing is saved |
| Converter.WahooToGarminConverter.RetryWithError | wahoo_to_garmin_converter.py:81-109 | the reply to the retry request, returned as generated; the file holds its `strip()`; on an exception nothing is saved |
| Converter.WahooToGarminConverter.EvaluateWorkout | wahoo_to_garmin_converter.py:240-303 | the tuple is the verdict on the file's current contents |
| Converter.WahooToGarminConverter.Round | wahoo_to_garmin_converter.py:331-369 | one attempt: one call with the prompt that follows the previous attempt, the file saved and evaluated unless the call raised |
| Converter.WahooToGarminConverter.RetryLoop | wahoo_to_garmin_converter.py:325-378 | the loop returns the outcome of `Conversion`, makes one call per generation, and leaves the `strip()` of the last attempt's code in the file |
| Converter.WahooToGarminConverter.ConvertWithRetry | wahoo_to_garmin_converter.py:305-378 | the converter's result, call count and final file are those of `Conversion` for its own requests and `evaluate_workout`; by default no type and three attempts |

## Left out

- The Bedrock client and the system prompt. `boto3`, the model id, and the prompt read from `system_prompt.txt` with the garminconnect source spliced in are left out. The model is a function of the call number and of the request, so any sequence of replies and exceptions can be described.
- The parse of the Bedrock response. `response["output"]["message"]["content"][0]["text"]` is the text the model returns; a malformed response counts as an exception of the call.
- File I/O. The file is one string field. Its path, its encoding and the errors `open` can raise are not modelled. The file is written and read back in text mode, so on the read-back `"\r\n"` and `"\r"` become `"\n"`; the runtime's `compile` is read as compiling that read-back text, not `strip()` of the code byte for byte. Neither is reading a file that no attempt has written yet, which cannot happen inside `convert_with_retry`.
- `eval`. It is modelled on a language of names, literals, list displays and calls.
  - Parsing is a function of the runtime (`compile`) that yields an expression or a SyntaxError.
  - Python's built-ins, which `eval` also exposes, are treated as unknown names.
  - What the garminconnect constructors and `to_dict()` do is library code, given as functions of the runtime.
  - Calls to the eight `workout_helpers` builders inside `eval` also go through the runtime's `construct`. Module `WorkoutHelpers` is not connected to `Evaluation`, so nothing ties a step an artifact builds to the `Create*` functions and their lemmas.
  - `eval` and `to_dict()` are assumed to raise only subclasses of `Exception`. An exception that derives only from `BaseException` (`SystemExit`, `KeyboardInterrupt`, `GeneratorExit`) escapes the `except Exception` clause at wahoo_to_garmin_converter.py:302 and the whole loop. The model instead turns it into the "Error evaluating workout" rejection, through `OtherFamily`.
- Evaluation.Validate: `type(workout)` is rendered as `<class 'module.Name'>` from the value's class, not from the real class object.
- Py.Capitalize: upper- and lower-cases ASCII letters only; Unicode case mapping is not modelled.
- `verbose` printing in `convert_with_retry` is left out; the prints are assumed not to raise. In Python a print of "✓" or "✗" to a stream that cannot encode them raises `UnicodeEncodeError`, which would escape the loop.
- `upload_workout` is a type dispatch onto remote API calls and is left out.
- main.py (login, MFA, token storage, command line) is not part of this model.
- Distances and effort values are floats in Python. They are `real` here: they are only passed through and converted from `int`. Python's `float(effort_level)` rounds integers above 2^53 and raises OverflowError past the float range; neither is modelled.
- WorkoutHelpers.EffortLevelRoundTrip: distinct levels give distinct steps only over reals; in Python `2**53` and `2**53 + 1` give the same float.
- The text of the `UnboundLocalError` is the one Python 3.11 and later give; Python 3.10 words it differently.
- The garminconnect constants `StepType.*` and `TargetType.NO_TARGET` are written as the integers 1-4 and 1.
- `ExecutableStep` is modelled with the fields the builders set; its other fields keep their library defaults, which are not modelled.
- Converter.WahooToGarminConverter.RetryLoop: proved for any asking and judging functions that agree with the converter's requests and with `evaluate_workout`. ConvertWithRetry passes the converter's own.
