/** The agent-facing half of internal/prompt/builder.go: `Build`, the prompt
    text for one step, and `ParseResult`, which reads the agent's verdict
    off its transcript by scanning the lines from the last to the first. */
module Prompt {
  import opened Text
  import opened PlanModel
  import Render

  const CompleteMarker: string := "STEP_COMPLETE"
  const FailedMarker: string := "STEP_FAILED:"
  const NoMarkerReason: string := "No " + CompleteMarker + " or STEP_FAILED" + " marker found in output"

  /** What a transcript line can say: done, or failed with a reason. */
  datatype Verdict = Done | Failure(reason: string)

  /** The reason that follows the first failure marker of a line, trimmed. */
  function ReasonAfter(line: string): string
    requires Contains(line, FailedMarker)
  {
    TrimSpace(line[IndexOf(line, FailedMarker).value + |FailedMarker|..])
  }

  /** The verdict of one trimmed line, checked in the order ParseResult uses:
      exactly the completion marker, starts with the failure marker, contains
      the completion marker, contains the failure marker. */
  function LineVerdict(line: string): Option<Verdict> {
    if line == CompleteMarker then Some(Done)
    else if HasPrefix(line, FailedMarker) then Some(Failure(TrimSpace(line[|FailedMarker|..])))
    else if Contains(line, CompleteMarker) then Some(Done)
    else if Contains(line, FailedMarker) then
      Some(Failure(ReasonAfter(line)))
    else None
  }

  /** The exact-match check is subsumed by the contains check: a line says
      Done exactly when it contains the completion marker and does not start
      with the failure marker, and it says nothing exactly when it carries
      neither marker. */
  lemma LineVerdictCases(line: string)
    ensures LineVerdict(line).None? <==> !Contains(line, CompleteMarker) && !Contains(line, FailedMarker)
    ensures LineVerdict(line) == Some(Done) <==> Contains(line, CompleteMarker) && !HasPrefix(line, FailedMarker)
  {
    if line == CompleteMarker {
      assert line[5] != FailedMarker[5];
      assert HasPrefix(line, CompleteMarker);
    }
    if HasPrefix(line, FailedMarker) {
      assert IndexOf(line, FailedMarker) == Some(0);
    }
  }

  /** A failure reason is the trimmed text after the FIRST failure marker of
      the line, whether the line starts with the marker or contains it later. */
  lemma FailureReasonAfterFirstMarker(line: string)
    requires LineVerdict(line).Some? && LineVerdict(line).value.Failure?
    ensures Contains(line, FailedMarker)
    ensures LineVerdict(line).value.reason == ReasonAfter(line)
  {
    PrefixFound(line, FailedMarker);
  }

  /** What one transcript line says: the verdict of the line once trimmed. */
  function VerdictOf(line: string): Option<Verdict> {
    LineVerdict(TrimSpace(line))
  }

  /** The verdict of the last line on which `say` has one: the backward scan
      of ParseResult, for any way of reading a line. */
  function LastSaid(lines: seq<string>, say: string -> Option<Verdict>): Option<Verdict> {
    if |lines| == 0 then None
    else if say(lines[|lines| - 1]).Some? then say(lines[|lines| - 1])
    else LastSaid(lines[..|lines| - 1], say)
  }

  /** The StepResult ParseResult returns for a transcript. */
  function ResultOf(output: string): StepResult {
    var verdict := LastSaid(Split(output, '\n'), VerdictOf);
    StepResult(verdict == Some(Done), output, ReasonOf(verdict), None, 0)
  }

  /** The reason recorded for a verdict: none for success, the fixed text
      when no line carries a marker. */
  function ReasonOf(verdict: Option<Verdict>): string {
    match verdict
    case None => NoMarkerReason
    case Some(Done) => ""
    case Some(Failure(reason)) => reason
  }

  /** There is no verdict exactly when no line has one. */
  lemma {:induction false} NothingSaidIff(lines: seq<string>, say: string -> Option<Verdict>)
    ensures LastSaid(lines, say).None? <==> forall i :: 0 <= i < |lines| ==> say(lines[i]).None?
    decreases |lines|
  {
    if |lines| > 0 {
      var init := lines[..|lines| - 1];
      NothingSaidIff(init, say);
      assert forall i :: 0 <= i < |init| ==> init[i] == lines[i];
    }
  }

  /** One more line: its verdict if it has one, otherwise the verdict of the
      lines before it. */
  lemma LastSaidStep(lines: seq<string>, i: nat, say: string -> Option<Verdict>)
    requires i < |lines|
    ensures LastSaid(lines[..i + 1], say) ==
      if say(lines[i]).Some? then say(lines[i]) else LastSaid(lines[..i], say)
  {
    assert lines[..i + 1][..i] == lines[..i];
  }

  /** The checks ParseResult makes on one line, in its order: the trimmed
      line equal to the completion marker, starting with the failure marker,
      containing the completion marker, containing the failure marker. */
  method ReadVerdict(raw: string) returns (verdict: Option<Verdict>)
    ensures verdict == VerdictOf(raw)
  {
    var line := TrimSpace(raw);
    if line == CompleteMarker {
      return Some(Done);
    }
    if HasPrefix(line, FailedMarker) {
      return Some(Failure(TrimSpace(line[|FailedMarker|..])));
    }
    if Contains(line, CompleteMarker) {
      return Some(Done);
    }
    if Contains(line, FailedMarker) {
      var idx := IndexOf(line, FailedMarker).value;
      return Some(Failure(TrimSpace(line[idx + |FailedMarker|..])));
    }
    return None;
  }

  /** ParseResult: the scan from the last line to the first, returning at the
      first line that carries a marker. */
  method ParseResult(output: string) returns (r: StepResult)
    ensures r == ResultOf(output)
    ensures r.output == output && r.status.None? && r.retryCount == 0
  {
    var verdict := LastVerdict(Split(output, '\n'));
    match verdict {
      case Some(Done) =>
        return StepResult(true, output, "", None, 0);
      case Some(Failure(reason)) =>
        return StepResult(false, output, reason, None, 0);
      case None =>
        return StepResult(false, output, NoMarkerReason, None, 0);
    }
  }

  /** The scan itself: the verdict of the last line that has one. */
  method LastVerdict(lines: seq<string>) returns (verdict: Option<Verdict>)
    ensures verdict == LastSaid(lines, VerdictOf)
  {
    var i := |lines|;
    assert lines[..i] == lines;
    while i > 0
      invariant 0 <= i <= |lines|
      invariant LastSaid(lines, VerdictOf) == LastSaid(lines[..i], VerdictOf)
    {
      i := i - 1;
      LastSaidStep(lines, i, VerdictOf);
      verdict := ReadVerdict(lines[i]);
      if verdict.Some? {
        return;
      }
    }
    return None;
  }

  // ----- properties of the verdict -----

  /** The verdict is that of the line with the highest index that has one. */
  lemma {:induction false} LastLineWithVerdictWins(lines: seq<string>, i: nat, say: string -> Option<Verdict>)
    requires i < |lines| && say(lines[i]).Some?
    requires forall j :: i < j < |lines| ==> say(lines[j]).None?
    ensures LastSaid(lines, say) == say(lines[i])
    decreases |lines|
  {
    if i < |lines| - 1 {
      var init := lines[..|lines| - 1];
      assert forall j :: i < j < |init| ==> init[j] == lines[j];
      LastLineWithVerdictWins(init, i, say);
    }
  }

  /** A verdict in the later part of a list of lines hides the earlier part. */
  lemma {:induction false} LastSaidAppend(a: seq<string>, b: seq<string>, say: string -> Option<Verdict>)
    ensures LastSaid(a + b, say) == if LastSaid(b, say).Some? then LastSaid(b, say) else LastSaid(a, say)
    decreases |b|
  {
    if |b| == 0 {
      assert a + b == a;
    } else {
      assert (a + b)[..|a + b| - 1] == a + b[..|b| - 1];
      LastSaidAppend(a, b[..|b| - 1], say);
    }
  }

  /** The later marker wins: whatever precedes a part of the transcript that
      carries a marker leaves the outcome unchanged. */
  lemma LaterMarkerWins(earlier: string, later: string)
    requires LastSaid(Split(later, '\n'), VerdictOf).Some?
    ensures ResultOf(earlier + "\n" + later).success == ResultOf(later).success
    ensures ResultOf(earlier + "\n" + later).reason == ResultOf(later).reason
  {
    SplitConcat(earlier, later, '\n');
    LastSaidAppend(Split(earlier, '\n'), Split(later, '\n'), VerdictOf);
  }

  /** The outcome is decided by the last line carrying a marker: success when
      it carries the completion marker and does not start with the failure
      marker, otherwise a failure whose reason follows the line's first
      failure marker. */
  lemma DecidedByLastMarkerLine(output: string, i: nat)
    requires i < |Split(output, '\n')|
    requires var line := TrimSpace(Split(output, '\n')[i]);
      Contains(line, CompleteMarker) || Contains(line, FailedMarker)
    requires forall j :: i < j < |Split(output, '\n')| ==>
      !Contains(TrimSpace(Split(output, '\n')[j]), CompleteMarker) &&
      !Contains(TrimSpace(Split(output, '\n')[j]), FailedMarker)
    ensures var line := TrimSpace(Split(output, '\n')[i]);
      ResultOf(output).success <==> Contains(line, CompleteMarker) && !HasPrefix(line, FailedMarker)
    ensures var line := TrimSpace(Split(output, '\n')[i]);
      !ResultOf(output).success ==>
        Contains(line, FailedMarker) && ResultOf(output).reason == ReasonAfter(line)
  {
    var lines := Split(output, '\n');
    var t := TrimSpace(lines[i]);
    assert LastSaid(lines, VerdictOf) == LineVerdict(t) by {
      SilentAfter(lines, i);
      MarkerLineVerdict(t);
      LastLineWithVerdictWins(lines, i, VerdictOf);
    }
    MarkerLineVerdict(t);
    var v := LineVerdict(t);
    assert ResultOf(output).success == (v == Some(Done));
    if v != Some(Done) {
      assert ResultOf(output).reason == ReasonOf(v) == v.value.reason;
    }
  }

  /** Lines without either marker say nothing. */
  lemma SilentAfter(lines: seq<string>, i: nat)
    requires forall j :: i < j < |lines| ==>
      !Contains(TrimSpace(lines[j]), CompleteMarker) && !Contains(TrimSpace(lines[j]), FailedMarker)
    ensures forall j :: i < j < |lines| ==> VerdictOf(lines[j]).None?
  {
    forall j | i < j < |lines|
      ensures VerdictOf(lines[j]).None?
    {
      LineVerdictCases(TrimSpace(lines[j]));
    }
  }

  /** A trimmed line with a marker says Done or fails with the text after
      its first failure marker. */
  lemma MarkerLineVerdict(t: string)
    requires Contains(t, CompleteMarker) || Contains(t, FailedMarker)
    ensures LineVerdict(t).Some?
    ensures LineVerdict(t) == Some(Done) <==> Contains(t, CompleteMarker) && !HasPrefix(t, FailedMarker)
    ensures LineVerdict(t) != Some(Done) ==>
      LineVerdict(t).value.Failure? &&
      LineVerdict(t).value.reason == ReasonAfter(t)
  {
    LineVerdictCases(t);
    if LineVerdict(t) != Some(Done) {
      FailureReasonAfterFirstMarker(t);
    }
  }

  /** Without a marker on any line the result is a failure with the fixed reason. */
  lemma NoMarkerFails(output: string)
    requires forall k :: 0 <= k < |Split(output, '\n')| ==>
      !Contains(TrimSpace(Split(output, '\n')[k]), CompleteMarker) &&
      !Contains(TrimSpace(Split(output, '\n')[k]), FailedMarker)
    ensures !ResultOf(output).success && ResultOf(output).reason == NoMarkerReason
  {
    var lines := Split(output, '\n');
    forall k | 0 <= k < |lines|
      ensures VerdictOf(lines[k]).None?
    {
      LineVerdictCases(TrimSpace(lines[k]));
    }
    NothingSaidIff(lines, VerdictOf);
  }

  lemma VerdictOneLine(line: string)
    requires '\n' !in line
    ensures VerdictOf(line).Some? && VerdictOf(line).value.Failure? ==> '\n' !in VerdictOf(line).value.reason
  {
    var t := TrimSpace(line);
    TrimSpaceKeepsOut(line, '\n');
    if VerdictOf(line).Some? && VerdictOf(line).value.Failure? {
      FailureReasonAfterFirstMarker(t);
      ReasonAfterOneLine(t);
    }
  }

  lemma ReasonAfterOneLine(t: string)
    requires Contains(t, FailedMarker) && '\n' !in t
    ensures '\n' !in ReasonAfter(t)
  {
    var rest := t[IndexOf(t, FailedMarker).value + |FailedMarker|..];
    assert forall c :: c in rest ==> c in t;
    TrimSpaceKeepsOut(rest, '\n');
  }

  lemma {:induction false} LastSaidOneLine(lines: seq<string>)
    requires forall k :: 0 <= k < |lines| ==> '\n' !in lines[k]
    ensures LastSaid(lines, VerdictOf).Some? && LastSaid(lines, VerdictOf).value.Failure? ==>
      '\n' !in LastSaid(lines, VerdictOf).value.reason
    decreases |lines|
  {
    if |lines| > 0 {
      VerdictOneLine(lines[|lines| - 1]);
      LastSaidOneLine(lines[..|lines| - 1]);
    }
  }

  lemma NoMarkerReasonOneLine()
    ensures '\n' !in NoMarkerReason
  {}

  /** A failure reason is a single line, so writing it as a Notes value
      never breaks the plan's line structure. */
  lemma ReasonOneLine(output: string)
    ensures '\n' !in ResultOf(output).reason
  {
    var v := LastSaid(Split(output, '\n'), VerdictOf);
    assert ResultOf(output).reason == ReasonOf(v);
    assert v.Some? && v.value.Failure? ==> '\n' !in v.value.reason by {
      SplitPieces(output, '\n');
      LastSaidOneLine(Split(output, '\n'));
    }
    if v.None? {
      NoMarkerReasonOneLine();
    }
  }

  // ----- the prompt -----

  /** The checkbox shown for a step in the full plan listing. */
  function BoxOf(s: StepStatus): string {
    match s
    case Completed => "[x]"
    case Failed => "[!]"
    case _ => "[ ]"
  }

  /** The listing line of one step. */
  function ListingLine(s: Step): string {
    "- " + BoxOf(s.status) + " Step " + NatToString(s.number) + ": " + s.description + "\n"
  }

  /** The "Full Plan" listing: one line per step. */
  function PlanListing(steps: seq<Step>): string {
    if |steps| == 0 then ""
    else PlanListing(steps[..|steps| - 1]) + ListingLine(steps[|steps| - 1])
  }

  lemma ListingLineIsRendered(s: Step)
    ensures ListingLine(s) == Render.StepLineText(s) + "\n"
  {
    assert BoxOf(s.status) == "[" + [Render.RenderMarker(s.status)] + "]";
  }

  /** The listing in the prompt is exactly the checkbox part of the plan file
      as WriteFile renders it (Skipped shown as pending in both). */
  lemma {:induction false} PlanListingIsRendered(steps: seq<Step>)
    ensures PlanListing(steps) == Render.StepLinesText(steps)
    decreases |steps|
  {
    if |steps| > 0 {
      PlanListingIsRendered(steps[..|steps| - 1]);
      ListingLineIsRendered(steps[|steps| - 1]);
    }
  }

  /** The sections a prompt can have, in the order they appear. */
  datatype Part = Title | Overview | ProjectContext | FullPlan | CurrentTask | PreviousAttempt | Instructions | Closing

  /** The position of each section in a prompt that has all of them. */
  function Order(part: Part): nat {
    match part
    case Title => 0
    case Overview => 1
    case ProjectContext => 2
    case FullPlan => 3
    case CurrentTask => 4
    case PreviousAttempt => 5
    case Instructions => 6
    case Closing => 7
  }

  /** The heading line that opens each section. */
  function Heading(part: Part): string {
    match part
    case Title => "# Task: Execute a Step in the Implementation Plan\n"
    case Overview => "## Project Overview\n"
    case ProjectContext => "### Project Context\n"
    case FullPlan => "## Full Plan\n"
    case CurrentTask => "## Your Current Task\n"
    case PreviousAttempt => "## Previous Attempt\n"
    case Instructions => "## Instructions\n"
    case Closing => "Begin working on the step now.\n"
  }

  function PreviousAttemptBody(notes: string): string {
    "This step failed previously. Here are the notes from the last attempt:\n" +
    notes + "\n\n" +
    "Please try a different approach or fix the issues mentioned above.\n\n"
  }

  function InstructionsBody(number: nat): string {
    "1. Focus ONLY on completing the current step (Step " + NatToString(number) + ")\n" +
    "2. Do not work on other steps\n" +
    "3. When you have completed the step successfully, output exactly:\n" +
    "   STEP_COMPLETE\n" +
    "4. If you encounter an error you cannot resolve, output exactly:\n" +
    "   STEP_FAILED: <brief description of what went wrong>\n" +
    "5. Make sure STEP_COMPLETE or STEP_FAILED appears at the end of your response\n\n"
  }

  /** The text under each heading. */
  function Body(part: Part, p: Plan, step: Step): string {
    match part
    case Title => "\n"
    case Overview => "Project: " + p.projectName + "\n\n"
    case ProjectContext => p.context + "\n\n"
    case FullPlan => PlanListing(p.steps) + "\n"
    case CurrentTask => "**Step " + NatToString(step.number) + "**: " + step.description + "\n\n"
    case PreviousAttempt => PreviousAttemptBody(step.notes)
    case Instructions => InstructionsBody(step.number)
    case Closing => ""
  }

  /** The sections of the prompt, in order; the Project Context and the
      Previous Attempt sections are optional. */
  function Parts(p: Plan, step: Step): seq<Part> {
    [Title, Overview] +
    (if p.context != "" then [ProjectContext] else []) +
    [FullPlan, CurrentTask] +
    (if step.status == Failed && step.notes != "" then [PreviousAttempt] else []) +
    [Instructions, Closing]
  }

  function Concat(parts: seq<Part>, p: Plan, step: Step): string {
    if |parts| == 0 then "" else Heading(parts[0]) + Body(parts[0], p, step) + Concat(parts[1..], p, step)
  }

  /** Build: the prompt text for running `step` of plan `p`. It opens with
      the task title and a blank line and closes with the line asking the
      agent to begin. */
  function Build(p: Plan, step: Step): (r: string)
    ensures HasPrefix(r, "# Task: Execute a Step in the Implementation Plan\n\n")
    ensures |r| >= |Heading(Closing)| && r[|r| - |Heading(Closing)|..] == "Begin working on the step now.\n"
  {
    ConcatEndsWithClosing(Parts(p, step), p, step);
    Concat(Parts(p, step), p, step)
  }

  /** Sections that end with the closing line give a text ending with it. */
  lemma {:induction false} ConcatEndsWithClosing(parts: seq<Part>, p: Plan, step: Step)
    requires |parts| > 0 && parts[|parts| - 1] == Closing
    ensures var c := Concat(parts, p, step);
      |c| >= |Heading(Closing)| && c[|c| - |Heading(Closing)|..] == Heading(Closing)
    decreases |parts|
  {
    if |parts| > 1 {
      ConcatEndsWithClosing(parts[1..], p, step);
      var t := Concat(parts[1..], p, step);
      var h := Heading(parts[0]) + Body(parts[0], p, step);
      assert (h + t)[|h + t| - |Heading(Closing)|..] == t[|t| - |Heading(Closing)|..];
    } else {
      assert Concat(parts, p, step) == Heading(Closing) + "" + "";
    }
  }

  /** The Project Context section is present exactly when the plan has
      context, and the Previous Attempt section exactly when the step failed
      before and has notes; every other section is always there, each once,
      in a fixed order. */
  lemma PartsPresent(p: Plan, step: Step)
    ensures ProjectContext in Parts(p, step) <==> p.context != ""
    ensures PreviousAttempt in Parts(p, step) <==> step.status == Failed && step.notes != ""
    ensures |Parts(p, step)| == 6 + (if p.context != "" then 1 else 0) + (if step.status == Failed && step.notes != "" then 1 else 0)
    ensures forall i, j :: 0 <= i < j < |Parts(p, step)| ==> Order(Parts(p, step)[i]) < Order(Parts(p, step)[j])
  {
    var ps := Parts(p, step);
    var hasContext, hasNotes := p.context != "", step.status == Failed && step.notes != "";
    if hasContext && hasNotes {
      assert ps == [Title, Overview, ProjectContext, FullPlan, CurrentTask, PreviousAttempt, Instructions, Closing];
    } else if hasContext {
      assert ps == [Title, Overview, ProjectContext, FullPlan, CurrentTask, Instructions, Closing];
    } else if hasNotes {
      assert ps == [Title, Overview, FullPlan, CurrentTask, PreviousAttempt, Instructions, Closing];
    } else {
      assert ps == [Title, Overview, FullPlan, CurrentTask, Instructions, Closing];
    }
  }

  /** Every prompt lists the plan exactly as the plan file shows it, names
      the current step's number and description, and carries the notes of a
      failed step that has them. */
  lemma BodiesShowPlanAndStep(p: Plan, step: Step)
    ensures Body(FullPlan, p, step) == Render.StepLinesText(p.steps) + "\n"
    ensures Body(CurrentTask, p, step) == "**Step " + NatToString(step.number) + "**: " + step.description + "\n\n"
    ensures 71 + |step.notes| <= |Body(PreviousAttempt, p, step)|
    ensures Body(PreviousAttempt, p, step)[71..71 + |step.notes|] == step.notes
  {
    PlanListingIsRendered(p.steps);
    NotesInPreviousAttempt(step.notes);
  }

  /** The notes follow the 71-character opening line of the section. */
  lemma NotesInPreviousAttempt(notes: string)
    ensures 71 + |notes| <= |PreviousAttemptBody(notes)|
    ensures PreviousAttemptBody(notes)[71..71 + |notes|] == notes
  {
    var opening := "This step failed previously. Here are the notes from the last attempt:\n";
    var rest := notes + "\n\n" + "Please try a different approach or fix the issues mentioned above.\n\n";
    assert |opening| == 71;
    assert PreviousAttemptBody(notes) == opening + rest;
    assert (opening + rest)[71..71 + |notes|] == rest[..|notes|] == notes;
  }
}
