/** What `convert_with_retry` does, as a function of the model's replies and
    of the verdicts on the saved artifacts: attempt 0 sends the first request,
    every later attempt sends the previous error and code back, each reply is
    stripped of its closing fence, saved (after `strip()`) and evaluated, and
    the first accepted artifact ends the run. The class in module Converter
    performs these steps in place; this module says what they add up to. */
module Pipeline {
  import opened Py
  import opened Prompts
  import opened Evaluation

  /** The model behind `converse`: the reply to the n-th call made by the
      converter (counting from 0) for a request, or the exception the call
      raises. */
  type Model = (nat, Request) -> Completion<string>

  /** Building the request for a prompt and making the n-th `converse` call. */
  type Ask = (nat, Prompt) -> Completion<string>

  /** `evaluate_workout` on the contents of the output file. */
  type Judge = string -> Verdict

  /** The n-th `converse` call, sending `request`. */
  function Converse(model: Model, n: nat, request: Request): Completion<string> {
    model(n, request)
  }

  /** The converter's own way of asking: the request `RequestFor` builds from
      the workout text, the type hint and the prompt. */
  function Asker(model: Model, wahooText: string, workoutType: Option<string>): Ask {
    (n: nat, p: Prompt) => Converse(model, n, RequestFor(wahooText, workoutType, p))
  }

  /** The reply to the n-th call, asking for prompt `p`, with its closing
      fence removed. */
  function Reply(ask: Ask, n: nat, p: Prompt): Completion<string> {
    CleanReply(ask(n, p))
  }

  /** The converter's own way of judging: `evaluate_workout`. */
  function Judger(rt: Runtime): Judge {
    (contents: string) => Validate(rt, contents)
  }

  /** `ask` answers the first prompt with the reply to the first request,
      and a retry prompt with the reply to the retry request built from its
      error and code. */
  ghost predicate Sends(ask: Ask, model: Model, wahooText: string, workoutType: Option<string>) {
    && (forall n: nat {:trigger Converse(model, n, InitialRequest(wahooText, workoutType))} ::
          Reply(ask, n, FirstPrompt) == CleanReply(Converse(model, n, InitialRequest(wahooText, workoutType))))
    && (forall n: nat, e: string, c: string
          {:trigger Converse(model, n, RetryRequest(wahooText, workoutType, e, c))} ::
          Reply(ask, n, RetryPrompt(e, c))
          == CleanReply(Converse(model, n, RetryRequest(wahooText, workoutType, e, c))))
  }

  lemma AskerSends(model: Model, wahooText: string, workoutType: Option<string>)
    ensures Sends(Asker(model, wahooText, workoutType), model, wahooText, workoutType)
  {
    var ask := Asker(model, wahooText, workoutType);
    forall n: nat
      ensures Reply(ask, n, FirstPrompt) == CleanReply(Converse(model, n, InitialRequest(wahooText, workoutType)))
    {
      assert ask(n, FirstPrompt) == Converse(model, n, RequestFor(wahooText, workoutType, FirstPrompt));
    }
    forall n: nat, e: string, c: string
      ensures Reply(ask, n, RetryPrompt(e, c))
              == CleanReply(Converse(model, n, RetryRequest(wahooText, workoutType, e, c)))
    {
      assert ask(n, RetryPrompt(e, c)) == Converse(model, n, RequestFor(wahooText, workoutType, RetryPrompt(e, c)));
    }
  }

  /** `judge` gives the verdict `evaluate_workout` gives. */
  ghost predicate Judges(judge: Judge, rt: Runtime) {
    forall contents {:trigger Validate(rt, contents)} :: judge(contents) == Validate(rt, contents)
  }

  lemma JudgerJudges(rt: Runtime)
    ensures Judges(Judger(rt), rt)
  {
  }

  /** One generate-save-evaluate round: the prompt sent, the code kept from
      the reply (fence removed, not yet `strip()`ped) and the verdict on the
      saved artifact. */
  datatype Attempt = Attempt(prompt: Prompt, code: string, verdict: Verdict)

  /** What `convert_with_retry` ends with: the tuple it returns, or the
      exception that escapes it. */
  datatype Outcome =
    | Returned(success: bool, message: string, workout: Option<Workout>)
    | Threw(exception: Exception)

  /** A whole run: the completed attempts, the prompt whose `converse` call
      raised (if one did) and the outcome. */
  datatype Run = Run(attempts: seq<Attempt>, unanswered: Option<Prompt>, outcome: Outcome)

  const SUCCESS_MESSAGE := "Workout converted and validated successfully!"
  const EXHAUSTED_HEAD := "Failed after "
  const EXHAUSTED_MIDDLE := " attempts. Last error: "

  /** The message of a run that used up its attempts. */
  function ExhaustedMessage(maxRetries: int, lastError: string): string {
    EXHAUSTED_HEAD + IntToString(maxRetries) + EXHAUSTED_MIDDLE + lastError
  }

  /** The message names the number of attempts and ends with the last error,
      whole. */
  lemma ExhaustedMessageParts(maxRetries: int, lastError: string)
    ensures var m := ExhaustedMessage(maxRetries, lastError);
      && OccursAt(m, IntToString(maxRetries), |EXHAUSTED_HEAD|)
      && EndsWith(m, EXHAUSTED_MIDDLE + lastError)
  {
    var m := ExhaustedMessage(maxRetries, lastError);
    var count := IntToString(maxRetries);
    assert m[|EXHAUSTED_HEAD|..|EXHAUSTED_HEAD| + |count|] == count;
    assert m[|m| - |EXHAUSTED_MIDDLE + lastError|..] == EXHAUSTED_MIDDLE + lastError;
  }

  /** With `max_retries <= 0` the loop body never runs and the final return
      reads `error_message` before any assignment. UnboundLocalError derives
      from NameError; the text is the one Python 3.11 and later give. */
  const UNBOUND_ERROR := Exception(NameErrorFamily, "UnboundLocalError",
    "cannot access local variable 'error_message' where it is not associated with a value")

  /** The attempt before attempt `j`, if there is one. */
  function Before(done: seq<Attempt>, j: nat): Option<Attempt>
    requires j <= |done|
  {
    if j == 0 then None else Some(done[j - 1])
  }

  /** The last of the attempts, if any. */
  function Last(done: seq<Attempt>): Option<Attempt> {
    Before(done, |done|)
  }

  /** `error_message` after the attempt `previous` (empty before any). */
  function LastError(previous: Option<Attempt>): string {
    if previous.None? then "" else previous.value.verdict.ErrorMessage()
  }

  /** The prompt of the attempt after `previous`: the first prompt, or the
      retry built from the previous attempt's error and code. */
  function PromptAfter(previous: Option<Attempt>): Prompt {
    if previous.None? then FirstPrompt
    else RetryPrompt(LastError(previous), previous.value.code)
  }

  /** The loop variables `error_message` and `previous_code` after the
      attempts `done`: unset before the first, then the last error and code. */
  predicate Carried(done: seq<Attempt>, errorMessage: Option<string>, previousCode: Option<string>) {
    if done == [] then errorMessage.None? && previousCode.None?
    else errorMessage == Some(LastError(Last(done))) && previousCode == Some(done[|done| - 1].code)
  }

  /** The output file after the attempts `done`: the `strip()`ped code of the
      last one, or what it held before the run. */
  function FileAfter(initial: string, done: seq<Attempt>): string {
    if done == [] then initial else Strip(done[|done| - 1].code)
  }

  /** `convert_with_retry` continued after the rejected attempts `done`; the
      converter's call counter stood at `base` when the run began. */
  function RunFrom(ask: Ask, judge: Judge, base: nat, maxRetries: int, done: seq<Attempt>): Run
    decreases maxRetries - |done|
  {
    if |done| >= maxRetries then
      if done == [] then Run([], None, Threw(UNBOUND_ERROR))
      else Run(done, None, Returned(false, ExhaustedMessage(maxRetries, LastError(Last(done))), None))
    else
      var prompt := PromptAfter(Last(done));
      match Reply(ask, base + |done|, prompt)
      case Raised(x) => Run(done, Some(prompt), Threw(x))
      case Normal(code) =>
        var verdict := judge(Strip(code));
        var done' := done + [Attempt(prompt, code, verdict)];
        if verdict.Accepted? then
          Run(done', None, Returned(true, SUCCESS_MESSAGE, Some(verdict.workout)))
        else
          RunFrom(ask, judge, base, maxRetries, done')
  }

  /** `convert_with_retry(wahoo_text, workout_type, output_file, max_retries)`. */
  function Conversion(ask: Ask, judge: Judge, base: nat, maxRetries: int): Run {
    RunFrom(ask, judge, base, maxRetries, [])
  }

  /** The number of `converse` calls a run made. */
  function Generations(r: Run): nat {
    |r.attempts| + if r.unanswered.Some? then 1 else 0
  }

  // ---------------------------------------------------------------------------
  // A run described attempt by attempt
  // ---------------------------------------------------------------------------

  /** Attempt `a`, number `j`, made after the attempt `previous`, sent the
      prompt that attempt calls for, kept the fence-stripped reply, and
      judged its `strip()`ped form. */
  predicate AttemptFollows(ask: Ask, judge: Judge, base: nat, j: nat, previous: Option<Attempt>, a: Attempt) {
    && a.prompt == PromptAfter(previous)
    && Reply(ask, base + j, a.prompt) == Normal(a.code)
    && a.verdict == judge(Strip(a.code))
  }

  /** Every attempt of `done` followed from the one before it. */
  predicate Chained(ask: Ask, judge: Judge, base: nat, done: seq<Attempt>) {
    forall j {:trigger Before(done, j)} :: 0 <= j < |done| ==>
      AttemptFollows(ask, judge, base, j, Before(done, j), done[j])
  }

  /** Attempts that each followed from the one before and were all rejected. */
  predicate RejectedHistory(ask: Ask, judge: Judge, base: nat, done: seq<Attempt>) {
    && Chained(ask, judge, base, done)
    && forall j :: 0 <= j < |done| ==> done[j].verdict.Rejected?
  }

  /** The run `r` is one `convert_with_retry` can produce: at most
      `max_retries` attempts, each following from the one before, every
      attempt but the last rejected, and then exactly one way to stop: a
      `converse` call raised, the last attempt was accepted, or the attempts
      ran out. */
  predicate Explains(ask: Ask, judge: Judge, base: nat, maxRetries: int, r: Run) {
    if maxRetries <= 0 then r == Run([], None, Threw(UNBOUND_ERROR))
    else
      var n := |r.attempts|;
      && n <= maxRetries
      && Chained(ask, judge, base, r.attempts)
      && (forall j :: 0 <= j < n - 1 ==> r.attempts[j].verdict.Rejected?)
      && match r.unanswered
         case Some(prompt) =>
           && n < maxRetries
           && (n == 0 || r.attempts[n - 1].verdict.Rejected?)
           && prompt == PromptAfter(Last(r.attempts))
           && Reply(ask, base + n, prompt).Raised?
           && r.outcome == Threw(Reply(ask, base + n, prompt).exception)
         case None =>
           && n > 0
           && if r.attempts[n - 1].verdict.Accepted? then
                r.outcome == Returned(true, SUCCESS_MESSAGE, Some(r.attempts[n - 1].verdict.workout))
              else
                && n == maxRetries
                && r.outcome == Returned(false, ExhaustedMessage(maxRetries, LastError(Last(r.attempts))), None)
  }

  /** An attempt that follows the last one extends a chain. */
  lemma ChainExtends(ask: Ask, judge: Judge, base: nat, done: seq<Attempt>, a: Attempt)
    requires Chained(ask, judge, base, done)
    requires AttemptFollows(ask, judge, base, |done|, Last(done), a)
    ensures Chained(ask, judge, base, done + [a])
  {
    var done' := done + [a];
    forall j | 0 <= j < |done'|
      ensures AttemptFollows(ask, judge, base, j, Before(done', j), done'[j])
    {
      assert Before(done', j) == Before(done, j);
    }
  }

  /** A rejected attempt after rejected ones extends the history. */
  lemma ExtendHistory(ask: Ask, judge: Judge, base: nat, done: seq<Attempt>, a: Attempt)
    requires RejectedHistory(ask, judge, base, done)
    requires AttemptFollows(ask, judge, base, |done|, Last(done), a)
    requires a.verdict.Rejected?
    ensures RejectedHistory(ask, judge, base, done + [a])
  {
    ChainExtends(ask, judge, base, done, a);
    var done' := done + [a];
    assert forall j :: 0 <= j < |done| ==> done'[j] == done[j];
  }

  /** Running out of attempts after rejected ones is explained. */
  lemma ExhaustionExplained(ask: Ask, judge: Judge, base: nat, maxRetries: int, done: seq<Attempt>)
    requires 0 < maxRetries == |done|
    requires RejectedHistory(ask, judge, base, done)
    ensures Explains(ask, judge, base, maxRetries,
                     Run(done, None, Returned(false, ExhaustedMessage(maxRetries, LastError(Last(done))), None)))
  {
    assert done[|done| - 1].verdict.Rejected?;
  }

  /** A `converse` call that raises after rejected attempts is explained. */
  lemma FailedCallExplained(ask: Ask, judge: Judge, base: nat, maxRetries: int, done: seq<Attempt>)
    requires |done| < maxRetries
    requires RejectedHistory(ask, judge, base, done)
    requires Reply(ask, base + |done|, PromptAfter(Last(done))).Raised?
    ensures var prompt := PromptAfter(Last(done));
      Explains(ask, judge, base, maxRetries,
               Run(done, Some(prompt), Threw(Reply(ask, base + |done|, prompt).exception)))
  {
    if done != [] {
      assert done[|done| - 1].verdict.Rejected?;
    }
  }

  /** An accepted attempt after rejected ones is explained. */
  lemma AcceptanceExplained(ask: Ask, judge: Judge, base: nat, maxRetries: int, done: seq<Attempt>,
                            a: Attempt)
    requires |done| < maxRetries
    requires RejectedHistory(ask, judge, base, done)
    requires AttemptFollows(ask, judge, base, |done|, Last(done), a)
    requires a.verdict.Accepted?
    ensures Explains(ask, judge, base, maxRetries,
                     Run(done + [a], None, Returned(true, SUCCESS_MESSAGE, Some(a.verdict.workout))))
  {
    ChainExtends(ask, judge, base, done, a);
    var done' := done + [a];
    assert forall j :: 0 <= j < |done'| - 1 ==> done'[j] == done[j];
  }

  /** One step of the run after `done`: the call for the next prompt raised. */
  lemma RaisedStep(ask: Ask, judge: Judge, base: nat, maxRetries: int, done: seq<Attempt>)
    requires |done| < maxRetries
    requires Reply(ask, base + |done|, PromptAfter(Last(done))).Raised?
    ensures var prompt := PromptAfter(Last(done));
      RunFrom(ask, judge, base, maxRetries, done)
      == Run(done, Some(prompt), Threw(Reply(ask, base + |done|, prompt).exception))
  {
  }

  /** One step of the run after `done`: the next attempt was accepted. */
  lemma AcceptedStep(ask: Ask, judge: Judge, base: nat, maxRetries: int, done: seq<Attempt>, a: Attempt)
    requires |done| < maxRetries
    requires AttemptFollows(ask, judge, base, |done|, Last(done), a)
    requires a.verdict.Accepted?
    ensures RunFrom(ask, judge, base, maxRetries, done)
            == Run(done + [a], None, Returned(true, SUCCESS_MESSAGE, Some(a.verdict.workout)))
  {
  }

  /** The run after `done` when no attempt is left. */
  lemma FinalStep(ask: Ask, judge: Judge, base: nat, maxRetries: int, done: seq<Attempt>)
    requires |done| >= maxRetries
    ensures done == [] ==> RunFrom(ask, judge, base, maxRetries, done) == Run([], None, Threw(UNBOUND_ERROR))
    ensures done != [] ==>
      RunFrom(ask, judge, base, maxRetries, done)
      == Run(done, None, Returned(false, ExhaustedMessage(maxRetries, LastError(Last(done))), None))
  {
  }

  /** Continuing after rejected attempts gives an explained run that keeps
      them as its first attempts. */
  lemma {:induction false} RunFromExplained(ask: Ask, judge: Judge, base: nat, maxRetries: int,
                                            done: seq<Attempt>)
    requires 0 < maxRetries && |done| <= maxRetries
    requires RejectedHistory(ask, judge, base, done)
    ensures var r := RunFrom(ask, judge, base, maxRetries, done);
      && Explains(ask, judge, base, maxRetries, r)
      && |done| <= |r.attempts| && r.attempts[..|done|] == done
    decreases maxRetries - |done|
  {
    var r := RunFrom(ask, judge, base, maxRetries, done);
    assert done[..|done|] == done;
    if |done| == maxRetries {
      ExhaustionExplained(ask, judge, base, maxRetries, done);
    } else {
      var prompt := PromptAfter(Last(done));
      var reply := Reply(ask, base + |done|, prompt);
      if reply.Raised? {
        FailedCallExplained(ask, judge, base, maxRetries, done);
      } else {
        var a := Attempt(prompt, reply.value, judge(Strip(reply.value)));
        var done' := done + [a];
        assert done'[..|done|] == done;
        if a.verdict.Accepted? {
          AcceptanceExplained(ask, judge, base, maxRetries, done, a);
        } else {
          ExtendHistory(ask, judge, base, done, a);
          RunFromExplained(ask, judge, base, maxRetries, done');
          assert r.attempts[..|done'|][..|done|] == r.attempts[..|done|];
        }
      }
    }
  }

  /** Every conversion is explained attempt by attempt. */
  lemma ConversionExplained(ask: Ask, judge: Judge, base: nat, maxRetries: int)
    ensures Explains(ask, judge, base, maxRetries, Conversion(ask, judge, base, maxRetries))
  {
    if maxRetries > 0 {
      RunFromExplained(ask, judge, base, maxRetries, []);
    }
  }

  /** An explained run with no attempt beyond the rejected attempts `done`
      stopped right after them. */
  lemma StoppedRunContinues(ask: Ask, judge: Judge, base: nat, maxRetries: int, done: seq<Attempt>, r: Run)
    requires 0 < maxRetries
    requires RejectedHistory(ask, judge, base, done)
    requires Explains(ask, judge, base, maxRetries, r)
    requires r.attempts == done
    ensures r == RunFrom(ask, judge, base, maxRetries, done)
  {
    var n := |done|;
    if n > 0 {
      assert done[n - 1].verdict.Rejected?;
    }
    if n == maxRetries {
      assert r.unanswered.None?;
    } else {
      var prompt := PromptAfter(Last(done));
      assert r.unanswered == Some(prompt);
      assert Reply(ask, base + n, prompt).Raised?;
    }
  }

  /** In an explained run that starts with `done`, the next attempt is the
      one that follows `done`. */
  lemma NextAttempt(ask: Ask, judge: Judge, base: nat, maxRetries: int, done: seq<Attempt>, r: Run)
    requires 0 < maxRetries
    requires Explains(ask, judge, base, maxRetries, r)
    requires |done| < |r.attempts| && r.attempts[..|done|] == done
    ensures AttemptFollows(ask, judge, base, |done|, Last(done), r.attempts[|done|])
    ensures r.attempts[..|done| + 1] == done + [r.attempts[|done|]]
  {
    var n := |done|;
    assert Last(done) == Before(r.attempts, n);
  }

  /** An explained run whose attempt after the rejected attempts `done` was
      accepted stopped there. */
  lemma AcceptedRunContinues(ask: Ask, judge: Judge, base: nat, maxRetries: int, done: seq<Attempt>, r: Run)
    requires 0 < maxRetries
    requires Explains(ask, judge, base, maxRetries, r)
    requires |done| < |r.attempts| && r.attempts[..|done| + 1] == done + [r.attempts[|done|]]
    requires AttemptFollows(ask, judge, base, |done|, Last(done), r.attempts[|done|])
    requires r.attempts[|done|].verdict.Accepted?
    ensures r == RunFrom(ask, judge, base, maxRetries, done)
  {
    var n := |done|;
    assert |r.attempts| == n + 1;
    assert r.attempts == r.attempts[..n + 1];
  }

  /** After a rejected attempt that follows `done`, the run goes on as it
      would from the longer history. */
  lemma RejectedStep(ask: Ask, judge: Judge, base: nat, maxRetries: int, done: seq<Attempt>, a: Attempt)
    requires |done| < maxRetries
    requires AttemptFollows(ask, judge, base, |done|, Last(done), a)
    requires a.verdict.Rejected?
    ensures RunFrom(ask, judge, base, maxRetries, done) == RunFrom(ask, judge, base, maxRetries, done + [a])
  {
  }

  /** An explained run that starts with the rejected attempts `done` is the
      run that continues after them. */
  lemma {:induction false} ExplainedRunContinues(ask: Ask, judge: Judge, base: nat, maxRetries: int,
                                                 done: seq<Attempt>, r: Run)
    requires 0 < maxRetries
    requires RejectedHistory(ask, judge, base, done)
    requires Explains(ask, judge, base, maxRetries, r)
    requires |done| <= |r.attempts| && r.attempts[..|done|] == done
    ensures r == RunFrom(ask, judge, base, maxRetries, done)
    decreases maxRetries - |done|
  {
    var n := |done|;
    if n == |r.attempts| {
      assert r.attempts == r.attempts[..n];
      StoppedRunContinues(ask, judge, base, maxRetries, done, r);
    } else {
      NextAttempt(ask, judge, base, maxRetries, done, r);
      var a := r.attempts[n];
      if a.verdict.Rejected? {
        ExtendHistory(ask, judge, base, done, a);
        ExplainedRunContinues(ask, judge, base, maxRetries, done + [a], r);
        RejectedStep(ask, judge, base, maxRetries, done, a);
      } else {
        AcceptedRunContinues(ask, judge, base, maxRetries, done, r);
      }
    }
  }

  /** The attempt-by-attempt description pins the run down: a run is
      explained exactly when it is the conversion. */
  lemma ExplainsExactly(ask: Ask, judge: Judge, base: nat, maxRetries: int, r: Run)
    ensures Explains(ask, judge, base, maxRetries, r) <==> r == Conversion(ask, judge, base, maxRetries)
  {
    ConversionExplained(ask, judge, base, maxRetries);
    if maxRetries > 0 && Explains(ask, judge, base, maxRetries, r) {
      assert r.attempts[..0] == [];
      ExplainedRunContinues(ask, judge, base, maxRetries, [], r);
    }
  }

  // ---------------------------------------------------------------------------
  // What a conversion promises
  // ---------------------------------------------------------------------------

  /** At most `max_retries` generate-save-evaluate rounds are made, and none
      at all when `max_retries <= 0`; a run that returns evaluated every
      reply it got. */
  lemma AttemptBound(ask: Ask, judge: Judge, base: nat, maxRetries: int)
    ensures var r := Conversion(ask, judge, base, maxRetries);
      && Generations(r) <= (if maxRetries > 0 then maxRetries else 0)
      && (r.outcome.Returned? ==> Generations(r) == |r.attempts| > 0)
  {
    ConversionExplained(ask, judge, base, maxRetries);
  }

  /** A run that succeeds made exactly as many `converse` calls as attempts,
      rejected every attempt but the last, accepted the last one and returns
      its workout with the success message. */
  lemma SuccessAfterExactlyK(ask: Ask, judge: Judge, base: nat, maxRetries: int)
    ensures var r := Conversion(ask, judge, base, maxRetries);
      var k := |r.attempts|;
      r.outcome.Returned? && r.outcome.success ==>
        && r.unanswered.None? && Generations(r) == k && 1 <= k <= maxRetries
        && (forall j :: 0 <= j < k - 1 ==> r.attempts[j].verdict.Rejected?)
        && r.attempts[k - 1].verdict.Accepted?
        && r.outcome == Returned(true, SUCCESS_MESSAGE, Some(r.attempts[k - 1].verdict.workout))
  {
    ConversionExplained(ask, judge, base, maxRetries);
  }

  /** The run succeeds exactly when one of its attempts was accepted. */
  lemma SuccessIffAccepted(ask: Ask, judge: Judge, base: nat, maxRetries: int)
    ensures var r := Conversion(ask, judge, base, maxRetries);
      (r.outcome.Returned? && r.outcome.success)
      <==> exists j :: 0 <= j < |r.attempts| && r.attempts[j].verdict.Accepted?
  {
    ConversionExplained(ask, judge, base, maxRetries);
    var r := Conversion(ask, judge, base, maxRetries);
    if r.outcome.Returned? && r.outcome.success {
      assert r.attempts[|r.attempts| - 1].verdict.Accepted?;
    }
  }

  /** Attempt 0 sends the first prompt; every later attempt sends the retry
      prompt built from the error and the code of the attempt before it. */
  lemma PromptChain(ask: Ask, judge: Judge, base: nat, maxRetries: int)
    ensures var r := Conversion(ask, judge, base, maxRetries);
      && (|r.attempts| > 0 ==> r.attempts[0].prompt == FirstPrompt)
      && (forall j :: 0 < j < |r.attempts| ==>
            r.attempts[j].prompt == RetryPrompt(r.attempts[j - 1].verdict.ErrorMessage(), r.attempts[j - 1].code))
  {
    ConversionExplained(ask, judge, base, maxRetries);
    var r := Conversion(ask, judge, base, maxRetries);
    forall j | 0 <= j < |r.attempts|
      ensures r.attempts[j].prompt == PromptAfter(Before(r.attempts, j))
    {
      if 0 < j {
        assert Before(r.attempts, j) == Some(r.attempts[j - 1]);
      }
    }
  }

  /** Each attempt keeps the fence-stripped reply to its own prompt, made as
      call number `base + j`, and is judged on the `strip()`ped code. */
  lemma ReplyChain(ask: Ask, judge: Judge, base: nat, maxRetries: int)
    ensures var r := Conversion(ask, judge, base, maxRetries);
      forall j :: 0 <= j < |r.attempts| ==>
        && ask(base + j, r.attempts[j].prompt).Normal?
        && r.attempts[j].code == StripClosingFence(ask(base + j, r.attempts[j].prompt).value)
        && r.attempts[j].verdict == judge(Strip(r.attempts[j].code))
  {
    ConversionExplained(ask, judge, base, maxRetries);
    var r := Conversion(ask, judge, base, maxRetries);
    forall j | 0 <= j < |r.attempts|
      ensures AttemptFollows(ask, judge, base, j, Before(r.attempts, j), r.attempts[j])
    {
    }
  }

  /** The request of an attempt whose prompt reports the attempt `previous`
      repeats that attempt's error and code and the original workout text. */
  predicate CarriesFeedback(wahooText: string, workoutType: Option<string>, previous: Attempt, a: Attempt) {
    var m := RequestFor(wahooText, workoutType, a.prompt).userMessage;
    var error := previous.verdict.ErrorMessage();
    && OccursAt(m, error, |ERROR_HEAD|)
    && OccursAt(m, previous.code, |ERROR_HEAD| + |error| + |CODE_HEAD|)
    && OccursAt(m, wahooText, |ERROR_HEAD| + |error| + |CODE_HEAD| + |previous.code| + |TEXT_HEAD|)
  }

  lemma FeedbackCarried(wahooText: string, workoutType: Option<string>, previous: Attempt, a: Attempt)
    requires a.prompt == PromptAfter(Some(previous))
    ensures CarriesFeedback(wahooText, workoutType, previous, a)
  {
    RetryPromptCarriesFeedback(wahooText, workoutType, previous.verdict.ErrorMessage(), previous.code);
  }

  /** Every retry request repeats the previous attempt's error and code and
      the original workout text verbatim. */
  lemma RetriesCarryFeedback(ask: Ask, judge: Judge, base: nat, maxRetries: int,
                             wahooText: string, workoutType: Option<string>)
    ensures var r := Conversion(ask, judge, base, maxRetries);
      forall j :: 0 < j < |r.attempts| ==>
        CarriesFeedback(wahooText, workoutType, r.attempts[j - 1], r.attempts[j])
  {
    ConversionExplained(ask, judge, base, maxRetries);
    var r := Conversion(ask, judge, base, maxRetries);
    forall j | 0 < j < |r.attempts|
      ensures CarriesFeedback(wahooText, workoutType, r.attempts[j - 1], r.attempts[j])
    {
      assert Before(r.attempts, j) == Some(r.attempts[j - 1]);
      FeedbackCarried(wahooText, workoutType, r.attempts[j - 1], r.attempts[j]);
    }
  }

  /** A successful run of the converter returns a workout that evaluated
      without error, whose `to_dict()` returned, and which has a name and at
      least one segment. */
  lemma SuccessYieldsValidWorkout(ask: Ask, rt: Runtime, base: nat, maxRetries: int)
    ensures var r := Conversion(ask, Judger(rt), base, maxRetries);
      r.outcome.Returned? && r.outcome.success ==>
        && r.outcome.workout.Some? && |r.attempts| > 0
        && var w := r.outcome.workout.value;
        && EvalArtifact(rt, Strip(r.attempts[|r.attempts| - 1].code)) == Normal(WorkoutObject(w))
        && rt.toDictFailure(w).None?
        && w.workoutName != "" && |w.workoutSegments| > 0
  {
    SuccessAfterExactlyK(ask, Judger(rt), base, maxRetries);
    ReplyChain(ask, Judger(rt), base, maxRetries);
    var r := Conversion(ask, Judger(rt), base, maxRetries);
    if r.outcome.Returned? && r.outcome.success {
      var last := r.attempts[|r.attempts| - 1];
      AcceptedExactly(rt, Strip(last.code), last.verdict.workout);
    }
  }

  /** A run that fails without an exception used all `max_retries` attempts,
      each rejected, and reports only the last attempt's error. */
  lemma ExhaustionKeepsLastError(ask: Ask, judge: Judge, base: nat, maxRetries: int)
    ensures var r := Conversion(ask, judge, base, maxRetries);
      r.outcome.Returned? && !r.outcome.success ==>
        && 1 <= maxRetries == |r.attempts| == Generations(r)
        && (forall j :: 0 <= j < |r.attempts| ==> r.attempts[j].verdict.Rejected?)
        && r.outcome == Returned(false, ExhaustedMessage(maxRetries, r.attempts[maxRetries - 1].verdict.message), None)
  {
    ConversionExplained(ask, judge, base, maxRetries);
  }

  /** An exception escapes the run exactly when there was no attempt to make
      (`error_message` is then unbound) or a `converse` call raised; in the
      latter case it is that call's exception, and nothing after it ran. */
  lemma ExceptionsPropagate(ask: Ask, judge: Judge, base: nat, maxRetries: int)
    ensures var r := Conversion(ask, judge, base, maxRetries);
      && (maxRetries <= 0 ==> r == Run([], None, Threw(UNBOUND_ERROR)))
      && (maxRetries > 0 ==> (r.outcome.Threw? <==> r.unanswered.Some?))
      && (r.unanswered.Some? ==>
            var call := ask(base + |r.attempts|, r.unanswered.value);
            call.Raised? && r.outcome == Threw(call.exception))
  {
    ConversionExplained(ask, judge, base, maxRetries);
  }
}
