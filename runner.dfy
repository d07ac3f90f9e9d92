/** The loop of internal/loop/runner.go. Every pass re-reads the plan file,
    picks the next step, skips it once its retry budget is spent, waits out
    the backoff before a retry, runs the agent on the prompt and persists
    what came of it. The agent, the clock and the user's Ctrl+C are not
    modelled as processes: each pass is given a `Round` that says how the
    agent call ended, whether cancellation was observed, and the timestamp
    the writer stamps. The plan file is the runner's `planText` field. */
module Loop {
  import opened Text
  import opened PlanModel
  import opened Durations
  import opened LoopConfig
  import Parser
  import Writer
  import WriterLemmas
  import Prompt

  /** How one agent call ends: its deadline expired; it failed while the
      parent context was cancelled (the user pressed Ctrl+C); it failed for
      another reason; or it returned a transcript. */
  datatype AgentOutcome = TimedOut | Interrupted | LaunchError(message: string) | Transcript(output: string)

  /** The environment of one pass: cancellation seen at the top of the pass,
      cancellation winning the race against the backoff timer, the agent's
      outcome, and the current time as the writer formats it. */
  datatype Round = Round(cancelledAtTop: bool, cancelledInWait: bool, outcome: AgentOutcome, now: string)

  /** How the loop ends. `Finished` and `StateSaved` are the two nil
      returns; `WriterPanic` is the writer's panic on a malformed block
      header; `RoundsExhausted` means the given rounds ran out first. */
  datatype Exit = Finished | StateSaved | ContextCancelled | AgentFailed(message: string) | WriterPanic | RoundsExhausted

  /** What one pass leaves behind: the plan text, the exit if the loop
      stops, the backoff waited, and the prompt if the agent was run. */
  datatype Pass = Pass(text: string, exit: Option<Exit>, wait: nat, prompt: Option<string>)

  /** The step the pass works on: NextStep of the re-read plan. */
  function Selected(text: string): Option<Step> {
    var p := Parser.PlanOf(text);
    match NextStep(p)
    case None => None
    case Some(k) => Some(p.steps[k])
  }

  function SkipReason(cfg: Config): string {
    "Skipped after " + IntToString(cfg.maxRetries) + " failed attempts"
  }

  function SkipResult(cfg: Config, step: Step): StepResult {
    StepResult(false, "", SkipReason(cfg), Some(Skipped), step.retryCount)
  }

  function TimeoutReason(cfg: Config): string {
    "Step timed out after " + DurationString(cfg.timeout)
  }

  function TimeoutResult(cfg: Config, step: Step): StepResult {
    StepResult(false, "", TimeoutReason(cfg), None, step.retryCount + 1)
  }

  /** The result saveInterruptedState persists. */
  function InterruptedResult(step: Step): StepResult {
    StepResult(false, "Interrupted by user", "Interrupted by user (Ctrl+C)", None, step.retryCount)
  }

  /** The agent's verdict with the retry count the loop attaches: one more
      on failure, unchanged on success. */
  function CountedResult(output: string, step: Step): StepResult {
    var r := Prompt.ResultOf(output);
    r.(retryCount := if r.success then step.retryCount else step.retryCount + 1)
  }

  /** UpdateStep on the plan text: the patched text, or None where the
      writer panics. */
  function Written(text: string, stepNum: nat, result: StepResult, now: string): Option<string> {
    if Writer.NoPanic(Split(text, '\n')) then Some(Join(Writer.UpdatedLines(text, stepNum, result, now), '\n'))
    else None
  }

  /** A pass that persists `result` and then goes on as `exit` says. */
  function Persisted(text: string, stepNum: nat, result: StepResult, now: string, exit: Option<Exit>,
                     wait: nat, prompt: Option<string>): Pass {
    match Written(text, stepNum, result, now)
    case None => Pass(text, Some(WriterPanic), wait, prompt)
    case Some(t) => Pass(t, exit, wait, prompt)
  }

  /** The pass after the agent has been run on `prompt`. */
  function AfterAgent(text: string, cfg: Config, step: Step, round: Round, wait: nat, prompt: string): Pass {
    match round.outcome
    case TimedOut => Persisted(text, step.number, TimeoutResult(cfg, step), round.now, None, wait, Some(prompt))
    case Interrupted => Persisted(text, step.number, InterruptedResult(step), round.now, Some(StateSaved), wait, Some(prompt))
    case LaunchError(m) => Pass(text, Some(AgentFailed(m)), wait, Some(prompt))
    case Transcript(out) => Persisted(text, step.number, CountedResult(out, step), round.now, None, wait, Some(prompt))
  }

  /** One pass of runLoop over the plan text `text`. */
  function PassOf(cfg: Config, text: string, round: Round): Pass {
    if round.cancelledAtTop then Pass(text, Some(ContextCancelled), 0, None)
    else
      match Selected(text)
      case None => Pass(text, Some(Finished), 0, None)
      case Some(step) =>
        if step.retryCount >= cfg.maxRetries then
          Persisted(text, step.number, SkipResult(cfg, step), round.now, None, 0, None)
        else if step.status == Failed && step.retryCount > 0 && round.cancelledInWait then
          Pass(text, Some(ContextCancelled), Backoff(cfg, step.retryCount), None)
        else
          var wait := if step.status == Failed && step.retryCount > 0 then Backoff(cfg, step.retryCount) else 0;
          AfterAgent(text, cfg, step, round, wait, Prompt.Build(Parser.PlanOf(text), step))
  }

  /** Passes driven by `pass` over a list of rounds, until one of them
      ends the loop: the final plan text and the exit. */
  function Drive(pass: (string, Round) -> Pass, text: string, rounds: seq<Round>): (string, Exit)
    decreases |rounds|
  {
    if |rounds| == 0 then (text, RoundsExhausted)
    else
      var p := pass(text, rounds[0]);
      if p.exit.Some? then (p.text, p.exit.value) else Drive(pass, p.text, rounds[1..])
  }

  /** The whole loop over a list of rounds: the final plan text and the exit. */
  function RunOf(cfg: Config, text: string, rounds: seq<Round>): (string, Exit) {
    Drive((t, r) => PassOf(cfg, t, r), text, rounds)
  }

  /** The runner: its configuration and the plan file it drives. */
  class Runner {
    const config: Config
    var planText: string

    constructor(config: Config, planText: string)
      ensures this.config == config && this.planText == planText
    {
      this.config := config;
      this.planText := planText;
    }

    /** calculateBackoff: multiply the first delay by the factor once per
        retry after the first. */
    method CalculateBackoff(retryCount: int) returns (delay: nat)
      ensures delay == Backoff(config, retryCount)
    {
      delay := config.retryDelay;
      var i := 0;
      while i < retryCount - 1
        invariant 0 <= i && (retryCount > 1 ==> i <= retryCount - 1) && (retryCount <= 1 ==> i == 0)
        invariant delay == config.retryDelay * Pow(config.backoffFactor, i)
        decreases retryCount - 1 - i
      {
        delay := delay * config.backoffFactor;
        i := i + 1;
      }
    }

    /** UpdateStep on the plan file: read, patch, write back. A malformed
        block header makes the writer panic, which leaves the file as it was. */
    method UpdateStep(stepNum: nat, result: StepResult, now: string) returns (panicked: bool)
      modifies this
      ensures Written(old(planText), stepNum, result, now) == if panicked then None else Some(planText)
      ensures panicked ==> planText == old(planText)
    {
      panicked := !Writer.NoPanic(Split(planText, '\n'));
      if !panicked {
        planText := Writer.UpdateStepInContent(planText, stepNum, result, now);
      }
    }

    /** saveInterruptedState: persist the interruption without counting it
        as a retry. */
    method SaveInterruptedState(step: Step, now: string) returns (panicked: bool)
      modifies this
      ensures Written(old(planText), step.number, InterruptedResult(step), now) == if panicked then None else Some(planText)
      ensures panicked ==> planText == old(planText)
    {
      var result := StepResult(false, "Interrupted by user", "Interrupted by user (Ctrl+C)", None, step.retryCount);
      panicked := UpdateStep(step.number, result, now);
    }

    /** UpdateStep, and the way the pass goes on afterwards. */
    method Persist(stepNum: nat, result: StepResult, now: string, after: Option<Exit>, wait: nat, prompt: Option<string>)
      returns (exit: Option<Exit>)
      modifies this
      ensures Pass(planText, exit, wait, prompt) == Persisted(old(planText), stepNum, result, now, after, wait, prompt)
    {
      var panicked := UpdateStep(stepNum, result, now);
      exit := if panicked then Some(WriterPanic) else after;
    }

    /** The part of a pass from the agent call on. */
    method RunAgent(step: Step, round: Round, wait: nat, prompt: string) returns (exit: Option<Exit>)
      modifies this
      ensures Pass(planText, exit, wait, Some(prompt)) == AfterAgent(old(planText), config, step, round, wait, prompt)
    {
      match round.outcome {
        case TimedOut =>
          var result := StepResult(false, "", "Step timed out after " + DurationString(config.timeout), None, step.retryCount + 1);
          assert result == TimeoutResult(config, step);
          exit := Persist(step.number, result, round.now, None, wait, Some(prompt));
        case Interrupted =>
          var panicked := SaveInterruptedState(step, round.now);
          exit := if panicked then Some(WriterPanic) else Some(StateSaved);
        case LaunchError(m) =>
          exit := Some(AgentFailed(m));
        case Transcript(out) =>
          var result := Prompt.ParseResult(out);
          if !result.success {
            result := result.(retryCount := step.retryCount + 1);
          } else {
            result := result.(retryCount := step.retryCount);
          }
          assert result == CountedResult(out, step);
          exit := Persist(step.number, result, round.now, None, wait, Some(prompt));
      }
    }

    /** One pass of the loop. */
    method RunOnce(round: Round) returns (exit: Option<Exit>, wait: nat, prompt: Option<string>)
      modifies this
      ensures Pass(planText, exit, wait, prompt) == PassOf(config, old(planText), round)
    {
      wait, prompt := 0, None;
      if round.cancelledAtTop {
        return Some(ContextCancelled), wait, prompt;
      }
      ghost var text := planText;
      var p := Parser.Parse(planText);
      var next := NextStep(p);
      assert Selected(text) == if next.None? then None else Some(p.steps[next.value]);
      if next.None? {
        return Some(Finished), wait, prompt;
      }
      var step := p.steps[next.value];
      if step.retryCount >= config.maxRetries {
        var result := StepResult(false, "", "Skipped after " + IntToString(config.maxRetries) + " failed attempts",
                                 Some(Skipped), step.retryCount);
        assert result == SkipResult(config, step);
        assert PassOf(config, text, round) == Persisted(text, step.number, result, round.now, None, 0, None);
        exit := Persist(step.number, result, round.now, None, wait, prompt);
        return;
      }
      if step.status == Failed && step.retryCount > 0 {
        wait := CalculateBackoff(step.retryCount);
        if round.cancelledInWait {
          return Some(ContextCancelled), wait, prompt;
        }
      }
      var promptText := Prompt.Build(p, step);
      prompt := Some(promptText);
      assert PassOf(config, text, round) == AfterAgent(text, config, step, round, wait, promptText);
      exit := RunAgent(step, round, wait, promptText);
    }

    /** runLoop: passes until one of them ends the loop. */
    method RunLoop(rounds: seq<Round>) returns (exit: Exit)
      modifies this
      ensures (planText, exit) == RunOf(config, old(planText), rounds)
    {
      var i := 0;
      while i < |rounds|
        invariant 0 <= i <= |rounds|
        invariant RunOf(config, old(planText), rounds) == RunOf(config, planText, rounds[i..])
      {
        assert rounds[i..][1..] == rounds[i + 1..];
        var stop, wait, prompt := RunOnce(rounds[i]);
        if stop.Some? {
          return stop.value;
        }
        i := i + 1;
      }
      return RoundsExhausted;
    }
  }
}
