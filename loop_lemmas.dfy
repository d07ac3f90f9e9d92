/** What a pass of the loop does in each situation, and how passes compose. */
module LoopLemmas {
  import opened Text
  import opened PlanModel
  import opened LoopConfig
  import Parser
  import Writer
  import WriterLemmas
  import Prompt
  import opened Loop

  /** The pass gets as far as the agent call with `step`: no cancellation at
      the top, `step` is the next step, its retry budget is not spent, and the
      backoff wait (if any) was not cut short. */
  predicate RunsAgent(cfg: Config, text: string, round: Round, step: Step) {
    && !round.cancelledAtTop
    && Selected(text) == Some(step)
    && step.retryCount < cfg.maxRetries
    && !(step.status == Failed && step.retryCount > 0 && round.cancelledInWait)
  }

  /** The loop finishes exactly when no step is Pending or Failed (and the
      pass was not cancelled first), and then it writes nothing. */
  lemma FinishedIffNothingToRun(cfg: Config, text: string, round: Round)
    ensures PassOf(cfg, text, round).exit == Some(Finished) <==>
      !round.cancelledAtTop &&
      forall j :: 0 <= j < |Parser.PlanOf(text).steps| ==> Parser.PlanOf(text).steps[j].status in {Completed, Skipped}
    ensures PassOf(cfg, text, round).exit == Some(Finished) ==> PassOf(cfg, text, round).text == text
  {
    if !round.cancelledAtTop && Selected(text).Some? {
      var step := Selected(text).value;
      if step.retryCount < cfg.maxRetries && !(step.status == Failed && step.retryCount > 0 && round.cancelledInWait) {
        AgentNeverFinishes(cfg, text, round, step);
      }
    }
  }

  lemma AgentNeverFinishes(cfg: Config, text: string, round: Round, step: Step)
    requires RunsAgent(cfg, text, round, step)
    ensures PassOf(cfg, text, round).exit != Some(Finished)
  {
    AgentEnds(cfg, text, round, step);
  }

  /** A pass that reaches the agent waits the backoff, passes the prompt
      Build makes, and ends in one of the ways the agent's outcome allows. */
  lemma AgentEnds(cfg: Config, text: string, round: Round, step: Step)
    requires RunsAgent(cfg, text, round, step)
    ensures var pass := PassOf(cfg, text, round);
      && pass.wait == Wait(cfg, step)
      && pass.prompt == Some(Prompt.Build(Parser.PlanOf(text), step))
      && (pass.exit.None? || pass.exit.value in {StateSaved, WriterPanic} || pass.exit.value.AgentFailed?)
  {
    AgentPass(cfg, text, round, step);
    var w, pr := Wait(cfg, step), Prompt.Build(Parser.PlanOf(text), step);
    match round.outcome {
      case TimedOut =>
        AfterTimeout(text, cfg, step, round, w, pr);
        PersistedEnds(text, step.number, TimeoutResult(cfg, step), round.now, None, w, Some(pr));
      case Interrupted =>
        AfterInterrupt(text, cfg, step, round, w, pr);
        PersistedEnds(text, step.number, InterruptedResult(step), round.now, Some(StateSaved), w, Some(pr));
      case LaunchError(m) =>
        AfterLaunchError(text, cfg, step, round, w, pr);
      case Transcript(out) =>
        AfterTranscript(text, cfg, step, round, w, pr);
        PersistedEnds(text, step.number, CountedResult(out, step), round.now, None, w, Some(pr));
    }
  }

  lemma AfterTimeout(text: string, cfg: Config, step: Step, round: Round, wait: nat, prompt: string)
    requires round.outcome.TimedOut?
    ensures AfterAgent(text, cfg, step, round, wait, prompt) ==
      Persisted(text, step.number, TimeoutResult(cfg, step), round.now, None, wait, Some(prompt))
  {}

  lemma AfterInterrupt(text: string, cfg: Config, step: Step, round: Round, wait: nat, prompt: string)
    requires round.outcome.Interrupted?
    ensures AfterAgent(text, cfg, step, round, wait, prompt) ==
      Persisted(text, step.number, InterruptedResult(step), round.now, Some(StateSaved), wait, Some(prompt))
  {}

  lemma AfterLaunchError(text: string, cfg: Config, step: Step, round: Round, wait: nat, prompt: string)
    requires round.outcome.LaunchError?
    ensures AfterAgent(text, cfg, step, round, wait, prompt) ==
      Pass(text, Some(AgentFailed(round.outcome.message)), wait, Some(prompt))
  {}

  /** The status and the retry count of a result do not reach the file. */
  lemma ZeroCount(text: string, stepNum: nat, r: StepResult, now: string, exit: Option<Exit>,
                  wait: nat, prompt: Option<string>)
    ensures Persisted(text, stepNum, r, now, exit, wait, prompt) ==
      Persisted(text, stepNum, r.(status := None, retryCount := 0), now, exit, wait, prompt)
  {
    WriterLemmas.IgnoresStatusAndRetryCount(text, stepNum, r, now, None, 0);
    SameWrite(text, stepNum, r, r.(status := None, retryCount := 0), now, exit, wait, prompt);
  }

  /** The pass of a round that reaches the agent. */
  lemma AgentPass(cfg: Config, text: string, round: Round, step: Step)
    requires RunsAgent(cfg, text, round, step)
    ensures PassOf(cfg, text, round) ==
      AfterAgent(text, cfg, step, round, Wait(cfg, step), Prompt.Build(Parser.PlanOf(text), step))
  {}

  /** A persisting pass keeps its wait and prompt and ends as asked or in
      the writer's panic. */
  lemma PersistedEnds(text: string, stepNum: nat, result: StepResult, now: string, exit: Option<Exit>,
                      wait: nat, prompt: Option<string>)
    ensures var pass := Persisted(text, stepNum, result, now, exit, wait, prompt);
      pass.wait == wait && pass.prompt == prompt && pass.exit in {exit, Some(WriterPanic)}
  {}

  /** Two results the writer writes alike make the same persisting pass. */
  lemma SameWrite(text: string, stepNum: nat, r: StepResult, r': StepResult, now: string, exit: Option<Exit>,
                  wait: nat, prompt: Option<string>)
    requires Writer.UpdatedLines(text, stepNum, r, now) == Writer.UpdatedLines(text, stepNum, r', now)
    ensures Persisted(text, stepNum, r, now, exit, wait, prompt) == Persisted(text, stepNum, r', now, exit, wait, prompt)
  {}

  /** No single pass claims that the rounds ran out. */
  lemma PassStops(cfg: Config, text: string, round: Round)
    ensures PassOf(cfg, text, round).exit != Some(RoundsExhausted)
  {
    if !round.cancelledAtTop && Selected(text).Some? {
      var step := Selected(text).value;
      if RunsAgent(cfg, text, round, step) {
        AgentEnds(cfg, text, round, step);
      } else if step.retryCount >= cfg.maxRetries {
        PersistedEnds(text, step.number, SkipResult(cfg, step), round.now, None, 0, None);
      }
    }
  }

  /** The backoff waited before the agent call. */
  function Wait(cfg: Config, step: Step): nat {
    if step.status == Failed && step.retryCount > 0 then Backoff(cfg, step.retryCount) else 0
  }

  /** A pass that does not reach the agent: how it ends, with no prompt. */
  lemma NoAgentPass(cfg: Config, text: string, round: Round)
    requires Selected(text).None? || !RunsAgent(cfg, text, round, Selected(text).value)
    ensures var pass := PassOf(cfg, text, round);
      && pass.prompt.None?
      && (pass.wait != 0 ==> !round.cancelledAtTop && Selected(text).Some? && round.cancelledInWait &&
                             Selected(text).value.status == Failed && 0 < Selected(text).value.retryCount < cfg.maxRetries &&
                             pass.wait == Backoff(cfg, Selected(text).value.retryCount))
  {
    if !round.cancelledAtTop && Selected(text).Some? {
      var step := Selected(text).value;
      if step.retryCount >= cfg.maxRetries {
        PersistedEnds(text, step.number, SkipResult(cfg, step), round.now, None, 0, None);
      }
    }
  }

  /** A cancelled pass writes nothing and never reaches the agent. */
  lemma CancelledWritesNothing(cfg: Config, text: string, round: Round)
    requires PassOf(cfg, text, round).exit == Some(ContextCancelled)
    ensures PassOf(cfg, text, round).text == text && PassOf(cfg, text, round).prompt.None?
  {
    if !round.cancelledAtTop && Selected(text).Some? {
      var step := Selected(text).value;
      if RunsAgent(cfg, text, round, step) {
        AgentNotCancelled(cfg, text, round, step);
      }
    }
  }

  lemma AgentNotCancelled(cfg: Config, text: string, round: Round, step: Step)
    requires RunsAgent(cfg, text, round, step)
    ensures PassOf(cfg, text, round).exit != Some(ContextCancelled)
  {
    AgentEnds(cfg, text, round, step);
  }

  /** The agent is run only when the pass gets that far, and it is given the
      prompt Build makes for the re-read plan and the selected step. */
  lemma AgentRunsOnlyWhenDue(cfg: Config, text: string, round: Round)
    requires PassOf(cfg, text, round).prompt.Some?
    ensures Selected(text).Some? && RunsAgent(cfg, text, round, Selected(text).value)
    ensures PassOf(cfg, text, round).prompt.value == Prompt.Build(Parser.PlanOf(text), Selected(text).value)
  {
    if Selected(text).None? || !RunsAgent(cfg, text, round, Selected(text).value) {
      NoAgentPass(cfg, text, round);
    } else {
      AgentEnds(cfg, text, round, Selected(text).value);
    }
  }

  /** The loop waits only before retrying a Failed step with a positive retry
      count, and then for Backoff of that count: exactly the configured delay
      on the first retry. */
  lemma WaitsOnlyBeforeRetry(cfg: Config, text: string, round: Round)
    requires PassOf(cfg, text, round).wait != 0
    ensures Selected(text).Some?
    ensures var step := Selected(text).value;
      step.status == Failed && step.retryCount > 0 && step.retryCount < cfg.maxRetries &&
      PassOf(cfg, text, round).wait == Backoff(cfg, step.retryCount)
  {
    if Selected(text).None? || !RunsAgent(cfg, text, round, Selected(text).value) {
      NoAgentPass(cfg, text, round);
    } else {
      AgentEnds(cfg, text, round, Selected(text).value);
    }
  }

  lemma FirstRetryWaitsDelay(cfg: Config, text: string, round: Round, step: Step)
    requires RunsAgent(cfg, text, round, step) && step.status == Failed && step.retryCount == 1
    ensures PassOf(cfg, text, round).wait == cfg.retryDelay
  {
    AgentEnds(cfg, text, round, step);
    BackoffSchedule(cfg, 1);
  }

  /** A step whose retry budget is spent is skipped without running the
      agent or waiting, and the skip is written exactly like an ordinary
      failure with the skip reason: the explicit Skipped status and the retry
      count the loop passes along do not reach the file. */
  lemma SkipWritesPlainFailure(cfg: Config, text: string, round: Round, step: Step)
    requires !round.cancelledAtTop && Selected(text) == Some(step) && step.retryCount >= cfg.maxRetries
    ensures PassOf(cfg, text, round) ==
      Persisted(text, step.number, StepResult(false, "", SkipReason(cfg), None, 0), round.now, None, 0, None)
  {
    WriterLemmas.IgnoresStatusAndRetryCount(text, step.number, SkipResult(cfg, step), round.now, None, 0);
  }

  /** A timed-out agent call is written as a failure with the timeout
      reason, and the loop goes on (unless the writer panics). */
  lemma TimeoutWritesFailure(cfg: Config, text: string, round: Round, step: Step)
    requires RunsAgent(cfg, text, round, step) && round.outcome.TimedOut?
    ensures var pass := PassOf(cfg, text, round);
      pass == Persisted(text, step.number, StepResult(false, "", TimeoutReason(cfg), None, 0), round.now,
                        None, pass.wait, pass.prompt)
  {
    var w, pr := Wait(cfg, step), Prompt.Build(Parser.PlanOf(text), step);
    AgentPass(cfg, text, round, step);
    AfterTimeout(text, cfg, step, round, w, pr);
    PersistedEnds(text, step.number, TimeoutResult(cfg, step), round.now, None, w, Some(pr));
    ZeroCount(text, step.number, TimeoutResult(cfg, step), round.now, None, w, Some(pr));
  }

  /** An agent call cut short by the user is saved as a failure with the
      interruption reason, and then the loop stops with a nil error. */
  lemma InterruptSavesAndStops(cfg: Config, text: string, round: Round, step: Step)
    requires RunsAgent(cfg, text, round, step) && round.outcome.Interrupted?
    ensures var pass := PassOf(cfg, text, round);
      pass == Persisted(text, step.number, StepResult(false, "Interrupted by user", "Interrupted by user (Ctrl+C)", None, 0),
                        round.now, Some(StateSaved), pass.wait, pass.prompt)
  {
    var w, pr := Wait(cfg, step), Prompt.Build(Parser.PlanOf(text), step);
    AgentPass(cfg, text, round, step);
    AfterInterrupt(text, cfg, step, round, w, pr);
    PersistedEnds(text, step.number, InterruptedResult(step), round.now, Some(StateSaved), w, Some(pr));
    ZeroCount(text, step.number, InterruptedResult(step), round.now, Some(StateSaved), w, Some(pr));
  }

  /** Any other agent error stops the loop at once and writes nothing. */
  lemma LaunchErrorWritesNothing(cfg: Config, text: string, round: Round, step: Step)
    requires RunsAgent(cfg, text, round, step) && round.outcome.LaunchError?
    ensures PassOf(cfg, text, round).text == text
    ensures PassOf(cfg, text, round).exit == Some(AgentFailed(round.outcome.message))
  {
    var w, pr := Wait(cfg, step), Prompt.Build(Parser.PlanOf(text), step);
    AgentPass(cfg, text, round, step);
    AfterLaunchError(text, cfg, step, round, w, pr);
  }

  /** A transcript is persisted as ParseResult reads it, and the loop goes on
      (unless the writer panics). */
  lemma TranscriptWritesVerdict(cfg: Config, text: string, round: Round, step: Step)
    requires RunsAgent(cfg, text, round, step) && round.outcome.Transcript?
    ensures var pass := PassOf(cfg, text, round);
      pass == Persisted(text, step.number, Prompt.ResultOf(round.outcome.output), round.now, None, pass.wait, pass.prompt)
  {
    var w, pr := Wait(cfg, step), Prompt.Build(Parser.PlanOf(text), step);
    var out := round.outcome.output;
    AgentPass(cfg, text, round, step);
    AfterTranscript(text, cfg, step, round, w, pr);
    CountIgnored(text, step, out, round.now, None, w, Some(pr));
    PersistedEnds(text, step.number, Prompt.ResultOf(out), round.now, None, w, Some(pr));
  }

  lemma AfterTranscript(text: string, cfg: Config, step: Step, round: Round, wait: nat, prompt: string)
    requires round.outcome.Transcript?
    ensures AfterAgent(text, cfg, step, round, wait, prompt) ==
      Persisted(text, step.number, CountedResult(round.outcome.output, step), round.now, None, wait, Some(prompt))
  {}

  /** The retry count the loop attaches to a verdict does not reach the file. */
  lemma CountIgnored(text: string, step: Step, out: string, now: string, exit: Option<Exit>,
                     wait: nat, prompt: Option<string>)
    ensures Persisted(text, step.number, CountedResult(out, step), now, exit, wait, prompt) ==
      Persisted(text, step.number, Prompt.ResultOf(out), now, exit, wait, prompt)
  {
    var r := Prompt.ResultOf(out);
    var counted := CountedResult(out, step);
    assert counted == r.(status := r.status, retryCount := counted.retryCount);
    WriterLemmas.IgnoresStatusAndRetryCount(text, step.number, r, now, r.status, counted.retryCount);
    SameWrite(text, step.number, r, counted, now, exit, wait, prompt);
  }

  /** Running a list of rounds in two parts: the second part starts from the
      text the first left, unless the first part already stopped the loop. */
  lemma RunInParts(cfg: Config, text: string, a: seq<Round>, b: seq<Round>)
    ensures var (t, e) := RunOf(cfg, text, a);
      RunOf(cfg, text, a + b) == if e == RoundsExhausted then RunOf(cfg, t, b) else (t, e)
  {
    forall t, r ensures PassOf(cfg, t, r).exit != Some(RoundsExhausted) {
      PassStops(cfg, t, r);
    }
    DriveInParts((t, r) => PassOf(cfg, t, r), text, a, b);
  }

  lemma {:induction false} DriveInParts(pass: (string, Round) -> Pass, text: string, a: seq<Round>, b: seq<Round>)
    requires forall t, r :: pass(t, r).exit != Some(RoundsExhausted)
    ensures var (t, e) := Drive(pass, text, a);
      Drive(pass, text, a + b) == if e == RoundsExhausted then Drive(pass, t, b) else (t, e)
    decreases |a|
  {
    if |a| == 0 {
      assert a + b == b;
    } else {
      assert (a + b)[0] == a[0];
      assert (a + b)[1..] == a[1..] + b;
      var p := pass(text, a[0]);
      assert Drive(pass, text, a + b) == if p.exit.Some? then (p.text, p.exit.value) else Drive(pass, p.text, a[1..] + b);
      assert Drive(pass, text, a) == if p.exit.Some? then (p.text, p.exit.value) else Drive(pass, p.text, a[1..]);
      if p.exit.None? {
        DriveInParts(pass, p.text, a[1..], b);
      }
    }
  }
}
