/** The whole-plan renderer of internal/plan/writer.go (WriteFile, without
    the file write): the title, the optional Context section, one checkbox
    line per step and one annotation block per step. `WriteFile` fills the
    text step by step as the source fills its string builder; `Rendered`
    states the text it produces. */
module Render {
  import opened Text
  import opened Grammar
  import opened PlanModel
  import Parser

  /** The checkbox marker for a status: Skipped has none of its own and is
      rendered like Pending. */
  function RenderMarker(s: StepStatus): (c: char)
    ensures IsMarker(c) && c != '-'
    ensures c == 'x' <==> s == Completed
    ensures c == '!' <==> s == Failed
    ensures c == ' ' <==> (s == Pending || s == Skipped)
  {
    match s
    case Completed => 'x'
    case Failed => '!'
    case _ => ' '
  }

  /** The checkbox line of a step, without its newline. */
  function StepLineText(step: Step): string {
    "- [" + [RenderMarker(step.status)] + "] Step " + NatToString(step.number) + ": " + step.description
  }

  /** The Last Run value written: the timestamp, or `N/A` when unset. */
  function LastRunText(step: Step): string {
    match step.lastRun
    case None => "N/A"
    case Some(t) => t
  }

  /** The Notes value written: the notes, or `(none)` when empty. */
  function NotesOrNone(step: Step): string {
    if step.notes == "" then "(none)" else step.notes
  }

  /** A field line of an annotation block. */
  function FieldText(tag: string, value: string): string {
    tag + value + "\n"
  }

  /** The annotation block of a step, with the blank line before it. */
  function NoteBlockText(step: Step): string {
    "\n### Step " + NatToString(step.number) + "\n" +
    FieldText("**Status**: ", StatusName(step.status)) +
    FieldText("**Last Run**: ", LastRunText(step)) +
    FieldText("**Notes**: ", NotesOrNone(step))
  }

  /** The title, the Context section when there is context, and the Plan heading. */
  function HeaderText(plan: Plan): string {
    "# Project: " + plan.projectName + "\n\n" +
    (if plan.context != "" then "## Context\n\n" + plan.context + "\n\n" else "") +
    "## Plan\n\n"
  }

  function StepLinesText(steps: seq<Step>): string {
    if |steps| == 0 then ""
    else StepLinesText(steps[..|steps| - 1]) + StepLineText(steps[|steps| - 1]) + "\n"
  }

  function NoteBlocksText(steps: seq<Step>): string {
    if |steps| == 0 then ""
    else NoteBlocksText(steps[..|steps| - 1]) + NoteBlockText(steps[|steps| - 1])
  }

  /** The text WriteFile writes for a plan. */
  function Rendered(plan: Plan): string {
    HeaderText(plan) + StepLinesText(plan.steps) + "\n## Notes\n" + NoteBlocksText(plan.steps)
  }

  lemma StepLinesTextSnoc(steps: seq<Step>, i: nat)
    requires i < |steps|
    ensures StepLinesText(steps[..i + 1]) == StepLinesText(steps[..i]) + StepLineText(steps[i]) + "\n"
  {
    assert steps[..i + 1][..i] == steps[..i];
  }

  lemma NoteBlocksTextSnoc(steps: seq<Step>, i: nat)
    requires i < |steps|
    ensures NoteBlocksText(steps[..i + 1]) == NoteBlocksText(steps[..i]) + NoteBlockText(steps[i])
  {
    assert steps[..i + 1][..i] == steps[..i];
  }

  lemma Append3(a: string, b: string, c: string)
    ensures a + b + c == a + (b + c)
  {}

  lemma Append4(a: string, b: string, c: string, d: string)
    ensures (a + b) + (c + d) == a + ((b + c) + d)
  {}

  /** The checkbox line the loop of WriteFile writes for one step. */
  method WriteStepLine(step: Step) returns (line: string)
    ensures line == StepLineText(step) + "\n"
  {
    var marker := ' ';
    if step.status == Completed {
      marker := 'x';
    } else if step.status == Failed {
      marker := '!';
    }
    line := "- [" + [marker] + "] Step " + NatToString(step.number) + ": " + step.description + "\n";
  }

  /** The annotation block the second loop of WriteFile writes for one step. */
  method WriteNoteBlock(step: Step) returns (block: string)
    ensures block == NoteBlockText(step)
  {
    var header := "\n### Step " + NatToString(step.number) + "\n";
    var status := "**Status**: " + StatusName(step.status) + "\n";
    var lastRun := "N/A";
    if step.lastRun.Some? {
      lastRun := step.lastRun.value;
    }
    var lastRunLine := "**Last Run**: " + lastRun + "\n";
    assert lastRunLine == FieldText("**Last Run**: ", LastRunText(step));
    var notes := "(none)";
    if step.notes != "" {
      notes := step.notes;
    }
    var notesLine := "**Notes**: " + notes + "\n";
    assert notesLine == FieldText("**Notes**: ", NotesOrNone(step));
    block := header + status + lastRunLine + notesLine;
  }

  /** The title, the Context section and the Plan heading, as WriteFile writes them. */
  method WriteHeader(plan: Plan) returns (sb: string)
    ensures sb == HeaderText(plan)
  {
    sb := "# Project: " + plan.projectName + "\n\n";
    if plan.context != "" {
      sb := sb + "## Context\n\n" + plan.context + "\n\n";
    }
    sb := sb + "## Plan\n\n";
  }

  /** The checkbox lines of the steps, appended to the builder. */
  method AppendStepLines(sb0: string, steps: seq<Step>) returns (sb: string)
    ensures sb == sb0 + StepLinesText(steps)
  {
    sb := sb0;
    for i := 0 to |steps|
      invariant sb == sb0 + StepLinesText(steps[..i])
    {
      var line := WriteStepLine(steps[i]);
      StepLinesTextSnoc(steps, i);
      Append4(sb0, StepLinesText(steps[..i]), StepLineText(steps[i]), "\n");
      sb := sb + line;
    }
    assert steps[..|steps|] == steps;
  }

  /** The annotation blocks of the steps, appended to the builder. */
  method AppendNoteBlocks(sb0: string, steps: seq<Step>) returns (sb: string)
    ensures sb == sb0 + NoteBlocksText(steps)
  {
    sb := sb0;
    for i := 0 to |steps|
      invariant sb == sb0 + NoteBlocksText(steps[..i])
    {
      var block := WriteNoteBlock(steps[i]);
      NoteBlocksTextSnoc(steps, i);
      Append3(sb0, NoteBlocksText(steps[..i]), block);
      sb := sb + block;
    }
    assert steps[..|steps|] == steps;
  }

  /** WriteFile: the rendered plan, built up in order. */
  method WriteFile(plan: Plan) returns (text: string)
    ensures text == Rendered(plan)
  {
    var sb := WriteHeader(plan);
    sb := AppendStepLines(sb, plan.steps);
    sb := sb + "\n## Notes\n";
    text := AppendNoteBlocks(sb, plan.steps);
  }

  // ----- what the parser reads back -----

  /** Reading back the marker of a rendered step gives its status, except
      that a Skipped step comes back Pending. */
  lemma MarkerRoundTrip(s: StepStatus)
    ensures Parser.ParseCheckbox(RenderMarker(s)) == if s == Skipped then Pending else s
  {}

  /** The optional label of a rendered step line yields the description. */
  lemma StepLabelParses(d: string, desc: string)
    requires |d| >= 1 && AllDigits(d)
    requires |desc| > 0 && !IsRegexSpace(desc[0])
    ensures StepLabel("Step " + d + ": " + desc) == Some(desc)
  {
    var r := "Step " + d + ": " + desc;
    var n := |d|;
    assert r[..4] == "Step";
    assert r[4] == ' ' && r[5] == d[0];
    SkipSpacesAt(r, 4, 5);
    assert r[5 + n] == ':';
    SkipDigitsAt(r, 5, 5 + n);
    assert r[6 + n] == ' ' && r[7 + n] == desc[0];
    SkipSpacesAt(r, 6 + n, 7 + n);
    assert r[7 + n..] == desc;
  }

  /** A checkbox, one space and a labelled rest: the label's capture. */
  lemma CheckboxThenLabel(m: char, rest: string, desc: string)
    requires IsMarker(m) && |rest| > 0 && !IsRegexSpace(rest[0])
    requires StepLabel(rest) == Some(desc)
    ensures MatchStepLine("- [" + [m] + "] " + rest) == Some(StepMatch(m, desc))
  {
    var line := "- [" + [m] + "] " + rest;
    assert line[1] == ' ' && line[2] == '[' && line[3] == m && line[4] == ']' && line[5] == ' ';
    assert line[6] == rest[0];
    SkipSpacesAt(line, 1, 2);
    SkipSpacesAt(line, 5, 6);
    assert line[6..] == rest;
  }

  /** A rendered step line matches the step grammar with the step's marker
      and its description, when the description starts with a visible
      character (as every description the parser produces does). */
  lemma StepLineParses(step: Step)
    requires |step.description| > 0 && !IsRegexSpace(step.description[0])
    ensures MatchStepLine(StepLineText(step)) == Some(StepMatch(RenderMarker(step.status), step.description))
  {
    var rest := "Step " + NatToString(step.number) + ": " + step.description;
    assert StepLineText(step) == "- [" + [RenderMarker(step.status)] + "] " + rest;
    StepLabelParses(NatToString(step.number), step.description);
    CheckboxThenLabel(RenderMarker(step.status), rest, step.description);
  }

  lemma {:induction false} SkipDigitsAt(s: string, i: nat, k: nat)
    requires i <= k <= |s|
    requires forall j :: i <= j < k ==> IsDigit(s[j])
    requires k == |s| || !IsDigit(s[k])
    ensures SkipDigits(s, i) == k
    decreases k - i
  {
    if i < k {
      SkipDigitsAt(s, i + 1, k);
    }
  }

  /** The fields of a rendered block match their grammars with the values
      written: the status name, the Last Run text and the Notes text (the
      latter two when they do not start with a space, as parsed values never do). */
  lemma FieldLinesParse(step: Step)
    requires LastRunText(step) != "" && !IsRegexSpace(LastRunText(step)[0])
    requires NotesOrNone(step) != "" && !IsRegexSpace(NotesOrNone(step)[0])
    ensures MatchStatusField("**Status**: " + StatusName(step.status)) == Some(StatusName(step.status))
    ensures MatchLastRunField("**Last Run**: " + LastRunText(step)) == Some(LastRunText(step))
    ensures MatchNotesField("**Notes**: " + NotesOrNone(step)) == Some(NotesOrNone(step))
  {
    StatusFieldParses(step.status);
    LastRunFieldParses(LastRunText(step));
    NotesFieldParses(NotesOrNone(step));
  }

  lemma StatusFieldParses(status: StepStatus)
    ensures MatchStatusField("**Status**: " + StatusName(status)) == Some(StatusName(status))
  {
    var s := "**Status**: " + StatusName(status);
    assert s[..11] == "**Status**:";
    SkipSpacesAt(s, 11, 12);
    assert s[12..] == StatusName(status);
  }

  lemma LastRunFieldParses(value: string)
    requires value != "" && !IsRegexSpace(value[0])
    ensures MatchLastRunField("**Last Run**: " + value) == Some(value)
  {
    var l := "**Last Run**: " + value;
    assert l[..13] == "**Last Run**:";
    SkipSpacesAt(l, 13, 14);
    assert l[14..] == value;
  }

  lemma NotesFieldParses(value: string)
    requires value != "" && !IsRegexSpace(value[0])
    ensures MatchNotesField("**Notes**: " + value) == Some(value)
  {
    var t := "**Notes**: " + value;
    assert t[..10] == "**Notes**:";
    SkipSpacesAt(t, 10, 11);
    assert t[11..] == value;
  }

  /** The header of every rendered block carries the step's number. */
  lemma BlockHeaderParses(step: Step)
    requires step.number <= MaxInt
    ensures MatchNotesHeader("### Step " + NatToString(step.number)).Some?
    ensures Parser.ParseStepNumber(MatchNotesHeader("### Step " + NatToString(step.number)).value) == step.number
  {
    Parser.BlockHeaderMatches(step.number);
  }
}
