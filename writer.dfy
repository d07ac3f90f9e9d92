/** The plan writer (internal/plan/writer.go). `UpdateStepInContent` patches
    the text of a plan after one run of the agent: it rewrites the checkbox of
    the step's line, rewrites the Status, Last Run and Notes fields of the
    step's annotation block, and creates that block when it is missing. The
    method follows the source's two passes and its backward insertion loop;
    `UpdatedLines` states the lines it produces, position by position. */
module Writer {
  import opened Text
  import opened Grammar
  import opened PlanModel
  import Parser

  // ----- updateCheckbox -----

  /** The characters the checkbox pattern `\[([ x!])\]` accepts between the brackets. */
  predicate IsBoxMark(c: char) { c == ' ' || c == 'x' || c == '!' }

  /** updateCheckbox: the line with every `[ ]`, `[x]` and `[!]`, taken left
      to right as the regular expression finds them, turned into `[m]`. */
  function UpdateCheckbox(s: string, m: char): (r: string)
    ensures |r| == |s|
  {
    if |s| < 3 then s
    else if s[0] == '[' && IsBoxMark(s[1]) && s[2] == ']' then ['[', m, ']'] + UpdateCheckbox(s[3..], m)
    else [s[0]] + UpdateCheckbox(s[1..], m)
  }

  /** Position `j` is the middle of a checkbox of the line. */
  predicate IsBoxMiddle(s: string, j: int) {
    0 < j < |s| - 1 && s[j - 1] == '[' && IsBoxMark(s[j]) && s[j + 1] == ']'
  }

  /** The regular expression's left-to-right replacement is the same as
      replacing the middle of every checkbox of the original line: the
      boxes cannot overlap. */
  lemma {:induction false} UpdateCheckboxPointwise(s: string, m: char)
    ensures forall j :: 0 <= j < |s| ==> UpdateCheckbox(s, m)[j] == if IsBoxMiddle(s, j) then m else s[j]
  {
    if |s| >= 3 {
      if s[0] == '[' && IsBoxMark(s[1]) && s[2] == ']' {
        UpdateCheckboxPointwise(s[3..], m);
        assert forall j :: 3 <= j < |s| ==> IsBoxMiddle(s[3..], j - 3) == IsBoxMiddle(s, j);
      } else {
        UpdateCheckboxPointwise(s[1..], m);
        assert forall j :: 1 <= j < |s| ==> IsBoxMiddle(s[1..], j - 1) == IsBoxMiddle(s, j);
      }
    }
  }

  lemma UpdateCheckboxFirst(s: string, m: char)
    requires |s| > 0 && s[0] != '['
    ensures UpdateCheckbox(s, m)[0] == s[0]
  {}

  /** A step line stays a step line when its boxes are rewritten, and its
      own checkbox gets the new marker unless it is `[-]`. */
  lemma UpdateCheckboxStepLine(line: string, m: char)
    requires IsStepLine(line) && IsBoxMark(m) && m != ' '
    ensures IsStepLine(UpdateCheckbox(line, m))
    ensures MatchStepLine(UpdateCheckbox(line, m)).value.marker ==
      if MatchStepLine(line).value.marker == '-' then '-' else m
  {
    var y := UpdateCheckbox(line, m);
    StepLineHasParts(line);
    var i := SkipSpaces(line, 1);
    var k := SkipSpaces(line, i + 3);
    UpdateCheckboxPointwise(line, m);
    forall j | 0 <= j < i ensures y[j] == line[j] {
      assert !IsBoxMiddle(line, j);
    }
    assert y[i] == '[' && y[i + 2] == ']';
    SkipSpacesAt(y, 1, i);
    forall j | i + 3 <= j < k ensures y[j] == line[j] {
      assert !IsBoxMiddle(line, j);
    }
    SkipSpacesAt(y, i + 3, k);
    StepLineFromParts(y, i, k);
  }

  /** A line the first pass changes starts with `-` before and after. */
  lemma CheckboxLineShape(lines: seq<string>, i: nat, stepNum: int, m: char)
    requires i < |lines|
    ensures var r := CheckboxLine(lines, i, stepNum, m);
      && MatchNotesHeader(r) == MatchNotesHeader(lines[i])
      && HasPrefix(r, "### Step") == HasPrefix(lines[i], "### Step")
  {
    var r := CheckboxLine(lines, i, stepNum, m);
    if IsTargetStepLine(lines, i, stepNum) {
      StepLineHasParts(lines[i]);
      UpdateCheckboxFirst(lines[i], m);
      NoHashNoHeader(lines[i]);
      NoHashNoHeader(r);
    }
  }

  /** Two texts whose lines agree on their block headers up to `n` have the
      same last header and the same headers for every step up to `n`. */
  lemma {:induction false} SameHeaders(a: seq<string>, b: seq<string>, stepNum: int, n: nat)
    requires n <= |a| && n <= |b|
    requires forall i :: 0 <= i < n ==> MatchNotesHeader(a[i]) == MatchNotesHeader(b[i])
    ensures LastHeader(a[..n]) == LastHeader(b[..n])
    ensures HasHeaderFor(a[..n], stepNum) == HasHeaderFor(b[..n], stepNum)
  {
    if n > 0 {
      SameHeaders(a, b, stepNum, n - 1);
      LastHeaderStep(a, n - 1);
      LastHeaderStep(b, n - 1);
      HasHeaderForStep(a, n - 1, stepNum);
      HasHeaderForStep(b, n - 1, stepNum);
    }
  }

  /** The first pass leaves the block header of every line as it was. */
  lemma CheckboxPassHeaders(lines: seq<string>, stepNum: int, m: char)
    ensures forall i :: 0 <= i < |lines| ==>
      MatchNotesHeader(CheckboxPass(lines, stepNum, m)[i]) == MatchNotesHeader(lines[i])
  {
    forall i | 0 <= i < |lines|
      ensures MatchNotesHeader(CheckboxPass(lines, stepNum, m)[i]) == MatchNotesHeader(lines[i])
    {
      CheckboxLineShape(lines, i, stepNum, m);
    }
  }

  /** The first pass keeps every block header where it was. */
  lemma CheckboxPassLastHeader(lines: seq<string>, stepNum: int, m: char, n: nat)
    requires n <= |lines|
    ensures LastHeader(CheckboxPass(lines, stepNum, m)[..n]) == LastHeader(lines[..n])
  {
    CheckboxPassHeaders(lines, stepNum, m);
    SameHeaders(CheckboxPass(lines, stepNum, m), lines, stepNum, n);
  }

  lemma CheckboxPassHeaderFor(lines: seq<string>, stepNum: int, m: char, n: nat)
    requires n <= |lines|
    ensures HasHeaderFor(CheckboxPass(lines, stepNum, m)[..n], stepNum) == HasHeaderFor(lines[..n], stepNum)
  {
    CheckboxPassHeaders(lines, stepNum, m);
    SameHeaders(CheckboxPass(lines, stepNum, m), lines, stepNum, n);
  }

  /** The first pass cannot make the second pass panic. */
  lemma CheckboxPassNoPanic(lines: seq<string>, stepNum: int, m: char)
    requires NoPanic(lines)
    ensures NoPanic(CheckboxPass(lines, stepNum, m))
  {
    var p := CheckboxPass(lines, stepNum, m);
    forall i | 0 <= i < |p| && HasPrefix(p[i], "### Step") && LastHeader(p[..i]).Some?
      ensures IsNotesHeader(p[i])
    {
      CheckboxPassLastHeader(lines, stepNum, m, i);
      CheckboxLineShape(lines, i, stepNum, m);
    }
  }

  // ----- the text written for a result -----

  /** The checkbox marker written for a result: `x` on success, `!` otherwise. */
  function Marker(result: StepResult): (c: char)
    ensures IsBoxMark(c) && c != ' '
  {
    if result.success then 'x' else '!'
  }

  function StatusWord(result: StepResult): string {
    if result.success then "completed" else "failed"
  }

  /** A trimmed line that summarizeOutput may report. */
  predicate Meaningful(line: string) { line != "" && !HasPrefix(line, "STEP_") }

  /** A transcript line that is meaningful once trimmed. */
  predicate MeaningfulLine(line: string) { Meaningful(TrimSpace(line)) }

  /** The index of the last line below `n` that `keep` accepts: the backward
      scan of summarizeOutput, with the test it applies given as `keep`. */
  function LastWhere(keep: string -> bool, lines: seq<string>, n: nat): (r: Option<nat>)
    requires n <= |lines|
    ensures r.Some? ==> r.value < n && keep(lines[r.value])
    ensures r.Some? ==> forall j :: r.value < j < n ==> !keep(lines[j])
    ensures r.None? ==> forall j :: 0 <= j < n ==> !keep(lines[j])
  {
    if n == 0 then None
    else if keep(lines[n - 1]) then Some(n - 1)
    else LastWhere(keep, lines, n - 1)
  }

  /** A line longer than 100 characters becomes its first 97 and `...`. */
  function Truncate(line: string): (r: string)
    ensures |r| <= 100
    ensures |line| <= 100 ==> r == line
    ensures |line| > 100 ==> |r| == 100 && r[..97] == line[..97] && r[97..] == "..."
  {
    if |line| > 100 then line[..97] + "..." else line
  }

  /** summarizeOutput: the last non-empty trimmed line of the transcript that
      does not start with `STEP_`, truncated to 100 characters, or
      "Completed successfully" when there is none. The "(no output)" answer
      of the source cannot happen, because splitting never yields no piece. */
  function SummarizeOutput(output: string): (r: string)
    ensures |r| <= 100
  {
    var lines := Split(TrimSpace(output), '\n');
    if |lines| == 0 then "(no output)"
    else
      match LastWhere(MeaningfulLine, lines, |lines|)
      case Some(i) => Truncate(TrimSpace(lines[i]))
      case None => Completed
  }

  /** The summary is the last meaningful line of the trimmed transcript,
      trimmed and truncated, or "Completed successfully" when no line is
      meaningful. */
  lemma SummarizeOutputPicksLastLine(output: string)
    ensures var lines := Split(TrimSpace(output), '\n');
      forall i :: 0 <= i < |lines| && MeaningfulLine(lines[i]) &&
                  (forall j :: i < j < |lines| ==> !MeaningfulLine(lines[j])) ==>
        SummarizeOutput(output) == Truncate(TrimSpace(lines[i]))
    ensures var lines := Split(TrimSpace(output), '\n');
      (forall j :: 0 <= j < |lines| ==> !MeaningfulLine(lines[j])) ==> SummarizeOutput(output) == Completed
  {
    var lines := Split(TrimSpace(output), '\n');
    var found := LastWhere(MeaningfulLine, lines, |lines|);
    assert SummarizeOutput(output) == if found.Some? then Truncate(TrimSpace(lines[found.value])) else Completed;
    forall i | 0 <= i < |lines| && MeaningfulLine(lines[i]) && (forall j :: i < j < |lines| ==> !MeaningfulLine(lines[j]))
      ensures found == Some(i)
    {
      LastWhereIs(MeaningfulLine, lines, i);
    }
  }

  /** An accepted line with no accepted line after it is the one LastWhere finds. */
  lemma LastWhereIs(keep: string -> bool, lines: seq<string>, i: nat)
    requires i < |lines| && keep(lines[i])
    requires forall j :: i < j < |lines| ==> !keep(lines[j])
    ensures LastWhere(keep, lines, |lines|) == Some(i)
  {}

  /** The summary is one line. */
  lemma SummarizeOutputOneLine(output: string)
    ensures '\n' !in SummarizeOutput(output)
  {
    var lines := Split(TrimSpace(output), '\n');
    SplitPieces(TrimSpace(output), '\n');
    match LastWhere(MeaningfulLine, lines, |lines|)
    case Some(i) =>
      SummaryLineOneLine(lines[i]);
    case None =>
      CompletedOneLine();
  }

  lemma SummaryLineOneLine(line: string)
    requires '\n' !in line
    ensures '\n' !in Truncate(TrimSpace(line))
  {
    TrimSpaceKeepsOut(line, '\n');
    TruncateKeepsOut(TrimSpace(line), '\n');
  }

  /** The summary of a transcript with nothing to report. */
  const Completed := "Completed successfully"

  lemma CompletedOneLine()
    ensures '\n' !in Completed
  {
    forall k | 0 <= k < |Completed|
      ensures Completed[k] != '\n'
    {}
  }

  lemma TruncateKeepsOut(line: string, c: char)
    requires c !in line && c != '.'
    ensures c !in Truncate(line)
  {
    if |line| > 100 {
      assert line[..97] + "..." == Truncate(line);
      assert forall j :: 0 <= j < 97 ==> line[..97][j] == line[j];
    }
  }

  /** The Notes text written for a result. */
  function NotesText(result: StepResult): string {
    if !result.success && result.reason != "" then "Failed: " + result.reason
    else SummarizeOutput(result.output)
  }

  /** createNotesSectionForStep, with the Last Run timestamp `now` given:
      one element holding the four lines of a new annotation block. */
  function CreateNotesSection(stepNum: int, result: StepResult, now: string): (r: string)
    ensures HasPrefix(r, "### Step " + IntToString(stepNum) + "\n**Status**: " + StatusWord(result))
  {
    "### Step " + IntToString(stepNum) + "\n**Status**: " + StatusWord(result) +
    "\n**Last Run**: " + now + "\n**Notes**: " + NotesText(result)
  }

  /** insertAfter: `value` preceded by an empty line, placed before index
      `index`, or appended when the index is past the end. */
  function InsertAfter(slice: seq<string>, index: nat, value: string): (r: seq<string>)
    ensures |r| == |slice| + 2
  {
    if index >= |slice| then slice + ["", value]
    else slice[..index] + ["", value] + slice[index..]
  }

  /** The lines before the insertion point stay, then come an empty line and
      the value, then the rest. */
  lemma InsertAfterShape(slice: seq<string>, index: nat, value: string)
    ensures var r := InsertAfter(slice, index, value);
      var at := if index < |slice| then index else |slice|;
      && r[..at] == slice[..at] && r[at] == "" && r[at + 1] == value && r[at + 2..] == slice[at..]
  {
    if index >= |slice| {
      assert slice[..|slice|] == slice;
    }
  }

  // ----- the first pass: the checkbox -----

  /** The number of lines in `lines` that match the step grammar. */
  function StepLinesIn(lines: seq<string>): (n: nat)
    ensures n <= |lines|
  {
    if |lines| == 0 then 0
    else StepLinesIn(lines[..|lines| - 1]) + (if IsStepLine(lines[|lines| - 1]) then 1 else 0)
  }

  /** Line `i` is the stepNum-th line matching the step grammar. */
  predicate IsTargetStepLine(lines: seq<string>, i: nat, stepNum: int)
    requires i < |lines|
  {
    IsStepLine(lines[i]) && StepLinesIn(lines[..i]) + 1 == stepNum
  }

  /** Line `i` after the first pass. */
  function CheckboxLine(lines: seq<string>, i: nat, stepNum: int, m: char): string
    requires i < |lines|
  {
    if IsTargetStepLine(lines, i, stepNum) then UpdateCheckbox(lines[i], m) else lines[i]
  }

  /** The lines after the first pass. */
  function CheckboxPass(lines: seq<string>, stepNum: int, m: char): (r: seq<string>)
    ensures |r| == |lines|
    ensures forall i :: 0 <= i < |lines| ==> r[i] == CheckboxLine(lines, i, stepNum, m)
  {
    seq(|lines|, i requires 0 <= i < |lines| => CheckboxLine(lines, i, stepNum, m))
  }

  // ----- the second pass: the fields of the step's block -----

  /** The step number of the last annotation-block header in `lines`. */
  function LastHeader(lines: seq<string>): Option<nat> {
    if |lines| == 0 then None
    else
      match MatchNotesHeader(lines[|lines| - 1])
      case Some(digits) => Some(Parser.ParseStepNumber(digits))
      case None => LastHeader(lines[..|lines| - 1])
  }

  /** Some line of `lines` is the header of the block for `stepNum`. */
  function HasHeaderFor(lines: seq<string>, stepNum: int): bool {
    if |lines| == 0 then false
    else
      var h := MatchNotesHeader(lines[|lines| - 1]);
      (h.Some? && Parser.ParseStepNumber(h.value) == stepNum) || HasHeaderFor(lines[..|lines| - 1], stepNum)
  }

  /** The source reads the submatch of any line starting `### Step` once a
      block has been entered; it only exists for a well-formed header. */
  predicate NoPanic(lines: seq<string>) {
    forall i :: 0 <= i < |lines| && HasPrefix(lines[i], "### Step") && LastHeader(lines[..i]).Some? ==>
      IsNotesHeader(lines[i])
  }

  /** The line ending `prefix` lies in the block of step `stepNum`: from its
      header up to the next header with another number. */
  predicate InTarget(prefix: seq<string>, stepNum: int) {
    LastHeader(prefix).Some? && LastHeader(prefix).value == stepNum
  }

  /** A field line of the step's block as the second pass rewrites it. */
  function RewriteField(line: string, result: StepResult, now: string): string {
    if MatchStatusField(line).Some? then "**Status**: " + StatusWord(result)
    else if MatchLastRunField(line).Some? then "**Last Run**: " + now
    else if MatchNotesField(line).Some? then "**Notes**: " + NotesText(result)
    else line
  }

  /** Line `i` after the second pass. */
  function NotesLine(lines: seq<string>, i: nat, stepNum: int, result: StepResult, now: string): string
    requires i < |lines|
  {
    if InTarget(lines[..i + 1], stepNum) then RewriteField(lines[i], result, now) else lines[i]
  }

  /** The lines after the second pass. */
  function NotesPass(lines: seq<string>, stepNum: int, result: StepResult, now: string): (r: seq<string>)
    ensures |r| == |lines|
    ensures forall i :: 0 <= i < |lines| ==> r[i] == NotesLine(lines, i, stepNum, result, now)
  {
    seq(|lines|, i requires 0 <= i < |lines| => NotesLine(lines, i, stepNum, result, now))
  }

  // ----- placing a new block -----

  predicate IsAnchor(line: string) { HasPrefix(line, "## Notes") || HasPrefix(line, "### Step") }

  /** The last line below `n` starting `## Notes` or `### Step`. */
  function LastAnchor(lines: seq<string>, n: nat): (r: Option<nat>)
    requires n <= |lines|
    ensures r.Some? ==> r.value < n
  {
    if n == 0 then None
    else if IsAnchor(lines[n - 1]) then Some(n - 1)
    else LastAnchor(lines, n - 1)
  }

  /** LastAnchor finds an anchor line with none after it below `n`, and
      finds nothing only when there is no anchor line below `n`. */
  lemma {:induction false} LastAnchorIsLast(lines: seq<string>, n: nat)
    requires n <= |lines|
    ensures var r := LastAnchor(lines, n);
      && (r.Some? ==> IsAnchor(lines[r.value]) && forall j :: r.value < j < n ==> !IsAnchor(lines[j]))
      && (r.None? <==> forall j :: 0 <= j < n ==> !IsAnchor(lines[j]))
  {
    if n > 0 && !IsAnchor(lines[n - 1]) {
      LastAnchorIsLast(lines, n - 1);
    }
  }

  /** Line `j` is empty once trimmed. */
  predicate BlankAt(lines: seq<string>, j: int)
    requires 0 <= j < |lines|
  {
    TrimSpace(lines[j]) == ""
  }

  /** The first index at or after `k` holding a blank line, or the end. */
  function SkipNonBlank(lines: seq<string>, k: nat): (r: nat)
    requires k <= |lines|
    ensures k <= r <= |lines|
    decreases |lines| - k
  {
    if k < |lines| && !BlankAt(lines, k) then SkipNonBlank(lines, k + 1) else k
  }

  /** SkipNonBlank stops at the first blank line at or after `k`, or at the end. */
  lemma {:induction false} SkipNonBlankStops(lines: seq<string>, k: nat)
    requires k <= |lines|
    ensures var r := SkipNonBlank(lines, k);
      && (forall j :: k <= j < r ==> !BlankAt(lines, j))
      && (r < |lines| ==> BlankAt(lines, r))
    decreases |lines| - k
  {
    if k < |lines| && !BlankAt(lines, k) {
      SkipNonBlankStops(lines, k + 1);
    }
  }

  /** Where a new block goes after the anchor line `a`: past the lines
      after it that are not blank. */
  function BlockEnd(lines: seq<string>, a: nat): (r: nat)
    requires a < |lines|
    ensures a < r <= |lines|
  {
    SkipNonBlank(lines, a + 1)
  }

  /** The lines updateStepInContent joins with newlines. */
  function UpdatedLines(content: string, stepNum: int, result: StepResult, now: string): seq<string> {
    var lines := Split(content, '\n');
    var patched := CheckboxPass(lines, stepNum, Marker(result));
    var output := NotesPass(patched, stepNum, result, now);
    var block := CreateNotesSection(stepNum, result, now);
    if LastHeader(lines).None? then output + ["", "## Notes", "", block]
    else if HasHeaderFor(patched, stepNum) then output
    else
      WithBlock(output, block)
  }

  /** The lines with `block` inserted after the last anchor line and the
      non-blank lines that follow it; unchanged when there is no anchor. */
  function WithBlock(output: seq<string>, block: string): seq<string> {
    var anchor := LastAnchor(output, |output|);
    if anchor.None? then output else InsertAfter(output, BlockEnd(output, anchor.value), block)
  }

  /** With the step's block present, the update is the two passes. */
  lemma UpdatedLinesWhenFound(content: string, stepNum: int, result: StepResult, now: string)
    requires var lines := Split(content, '\n');
      LastHeader(lines).Some? && HasHeaderFor(CheckboxPass(lines, stepNum, Marker(result)), stepNum)
    ensures UpdatedLines(content, stepNum, result, now) ==
      NotesPass(CheckboxPass(Split(content, '\n'), stepNum, Marker(result)), stepNum, result, now)
  {}

  /** Without any block, the update is the two passes followed by a new section. */
  lemma UpdatedLinesWhenNoBlocks(content: string, stepNum: int, result: StepResult, now: string)
    requires LastHeader(Split(content, '\n')).None?
    ensures UpdatedLines(content, stepNum, result, now) ==
      NotesPass(CheckboxPass(Split(content, '\n'), stepNum, Marker(result)), stepNum, result, now) +
      ["", "## Notes", "", CreateNotesSection(stepNum, result, now)]
  {}

  /** With blocks but none for the step, the update is the two passes and
      the insertion of a new block. */
  lemma UpdatedLinesInsert(content: string, stepNum: int, result: StepResult, now: string)
    requires var lines := Split(content, '\n');
      LastHeader(lines).Some? && !HasHeaderFor(CheckboxPass(lines, stepNum, Marker(result)), stepNum)
    ensures UpdatedLines(content, stepNum, result, now) ==
      WithBlock(NotesPass(CheckboxPass(Split(content, '\n'), stepNum, Marker(result)), stepNum, result, now),
        CreateNotesSection(stepNum, result, now))
  {}

  /** With blocks but none for the step, the new block goes after the last
      anchor line, past the non-blank lines that follow it. */
  lemma UpdatedLinesWhenMissing(content: string, stepNum: int, result: StepResult, now: string)
    requires var lines := Split(content, '\n');
      var o := NotesPass(CheckboxPass(lines, stepNum, Marker(result)), stepNum, result, now);
      LastHeader(lines).Some? && !HasHeaderFor(CheckboxPass(lines, stepNum, Marker(result)), stepNum) &&
      LastAnchor(o, |o|).Some?
    ensures var o := NotesPass(CheckboxPass(Split(content, '\n'), stepNum, Marker(result)), stepNum, result, now);
      UpdatedLines(content, stepNum, result, now) ==
        InsertAfter(o, BlockEnd(o, LastAnchor(o, |o|).value), CreateNotesSection(stepNum, result, now))
  {
    var lines := Split(content, '\n');
    var patched := CheckboxPass(lines, stepNum, Marker(result));
    var o := NotesPass(patched, stepNum, result, now);
    var block := CreateNotesSection(stepNum, result, now);
    assert UpdatedLines(content, stepNum, result, now) == WithBlock(o, block);
  }

  /** With blocks, none for the step and no anchor line, nothing is inserted. */
  lemma UpdatedLinesWithoutAnchor(content: string, stepNum: int, result: StepResult, now: string)
    requires var lines := Split(content, '\n');
      var o := NotesPass(CheckboxPass(lines, stepNum, Marker(result)), stepNum, result, now);
      LastHeader(lines).Some? && !HasHeaderFor(CheckboxPass(lines, stepNum, Marker(result)), stepNum) &&
      LastAnchor(o, |o|).None?
    ensures UpdatedLines(content, stepNum, result, now) ==
      NotesPass(CheckboxPass(Split(content, '\n'), stepNum, Marker(result)), stepNum, result, now)
  {}

  lemma LastHeaderStep(lines: seq<string>, i: nat)
    requires i < |lines|
    ensures LastHeader(lines[..i + 1]) ==
      (match MatchNotesHeader(lines[i]) case Some(d) => Some(Parser.ParseStepNumber(d)) case None => LastHeader(lines[..i]))
  {
    assert lines[..i + 1][..i] == lines[..i];
  }

  lemma HasHeaderForStep(lines: seq<string>, i: nat, stepNum: int)
    requires i < |lines|
    ensures HasHeaderFor(lines[..i + 1], stepNum) ==
      ((MatchNotesHeader(lines[i]).Some? && Parser.ParseStepNumber(MatchNotesHeader(lines[i]).value) == stepNum)
       || HasHeaderFor(lines[..i], stepNum))
  {
    assert lines[..i + 1][..i] == lines[..i];
  }

  lemma StepLinesStep(lines: seq<string>, i: nat)
    requires i < |lines|
    ensures StepLinesIn(lines[..i + 1]) == StepLinesIn(lines[..i]) + (if IsStepLine(lines[i]) then 1 else 0)
  {
    assert lines[..i + 1][..i] == lines[..i];
  }

  /** One line of the first pass: a step line advances the step count, and
      the step line with the wanted number gets the result's marker. */
  method MarkLine(line: string, currentStep: int, stepNum: int, result: StepResult)
    returns (marked: string, nextStep: int)
    ensures nextStep == if IsStepLine(line) then currentStep + 1 else currentStep
    ensures marked == if IsStepLine(line) && nextStep == stepNum then UpdateCheckbox(line, Marker(result)) else line
  {
    marked := line;
    nextStep := currentStep;
    if IsStepLine(line) {
      nextStep := currentStep + 1;
      if nextStep == stepNum {
        var newMarker := if result.success then 'x' else '!';
        marked := UpdateCheckbox(line, newMarker);
      }
    }
  }

  /** The first pass of updateStepInContent: the checkbox of the stepNum-th
      step line, and whether any annotation-block header exists. */
  method MarkStepLine(original: seq<string>, stepNum: int, result: StepResult)
    returns (lines: seq<string>, notesSectionExists: bool)
    ensures lines == CheckboxPass(original, stepNum, Marker(result))
    ensures notesSectionExists == LastHeader(original).Some?
  {
    ghost var target := CheckboxPass(original, stepNum, Marker(result));
    lines := original;
    notesSectionExists := false;
    var currentStep := 0;
    for i := 0 to |lines|
      invariant |lines| == |original|
      invariant forall k :: 0 <= k < i ==> lines[k] == target[k]
      invariant forall k :: i <= k < |lines| ==> lines[k] == original[k]
      invariant currentStep == StepLinesIn(original[..i])
      invariant notesSectionExists == LastHeader(original[..i]).Some?
    {
      LastHeaderStep(original, i);
      StepLinesStep(original, i);
      var line := lines[i];
      var marked;
      marked, currentStep := MarkLine(line, currentStep, stepNum, result);
      assert marked == target[i];
      lines := lines[i := marked];
      if IsNotesHeader(line) {
        notesSectionExists := true;
      }
    }
    assert original[..|original|] == original;
  }

  /** The field rewrite inside the step's block: the Status, Last Run and
      Notes lines get the result's values, any other line stays. */
  method RewriteLine(line: string, result: StepResult, now: string) returns (r: string)
    ensures r == RewriteField(line, result, now)
  {
    r := line;
    if MatchStatusField(line).Some? {
      var status := "completed";
      if !result.success {
        status := "failed";
      }
      r := "**Status**: " + status;
    } else if MatchLastRunField(line).Some? {
      r := "**Last Run**: " + now;
    } else if MatchNotesField(line).Some? {
      var notes := SummarizeOutput(result.output);
      if !result.success && result.reason != "" {
        notes := "Failed: " + result.reason;
      }
      r := "**Notes**: " + notes;
    }
  }

  /** One iteration of the second pass: the block header check, the field
      rewrite, and the test for leaving the block. */
  method VisitLine(line: string, stepNum: int, result: StepResult, now: string,
                   inNotesSection: bool, notesStepNum: int, foundNotesSection: bool)
    returns (rewritten: string, inNotes': bool, notesStepNum': int, found': bool)
    requires HasPrefix(line, "### Step") && (inNotesSection || IsNotesHeader(line)) ==> IsNotesHeader(line)
    ensures var header := MatchNotesHeader(line);
      && inNotes' == (inNotesSection || header.Some?)
      && notesStepNum' == (if header.Some? then Parser.ParseStepNumber(header.value) else notesStepNum)
      && found' == (foundNotesSection || (header.Some? && Parser.ParseStepNumber(header.value) == stepNum))
      && rewritten == (if inNotes' && notesStepNum' == stepNum then RewriteField(line, result, now) else line)
  {
    inNotes', notesStepNum', found' := inNotesSection, notesStepNum, foundNotesSection;
    rewritten := line;
    var header := MatchNotesHeader(line);
    if header.Some? {
      var num := Parser.ParseStepNumber(header.value);
      notesStepNum' := num;
      inNotes' := true;
      if num == stepNum {
        found' := true;
      }
    }

    if inNotes' && notesStepNum' == stepNum {
      rewritten := RewriteLine(line, result, now);
    }

    // Leaving the block: a header with another number. Reading the submatch
    // here needs a well-formed header, and the block's number is then
    // already that header's number, so the test never succeeds.
    if inNotes' && HasPrefix(line, "### Step") {
      var leaving := MatchNotesHeader(line);
      if notesStepNum' != Parser.ParseStepNumber(leaving.value) {
        inNotes' := false;
      }
    }
  }

  /** The state of the second pass after the first `i` lines: inside a
      block exactly when a block header has been seen, the number of the
      last one, and whether the step's own header has been seen. */
  predicate PassState(lines: seq<string>, i: nat, stepNum: int, inNotes: bool, notesNum: int, found: bool)
    requires i <= |lines|
  {
    && inNotes == LastHeader(lines[..i]).Some?
    && (inNotes ==> notesNum == LastHeader(lines[..i]).value)
    && found == HasHeaderFor(lines[..i], stepNum)
  }

  /** The iteration of the second pass at line `i`: it writes that line's
      rewrite and moves the state on by one line. */
  method VisitAt(lines: seq<string>, i: nat, stepNum: int, result: StepResult, now: string,
                 inNotes: bool, notesNum: int, found: bool)
    returns (rewritten: string, inNotes': bool, notesNum': int, found': bool)
    requires i < |lines| && NoPanic(lines)
    requires PassState(lines, i, stepNum, inNotes, notesNum, found)
    ensures rewritten == NotesLine(lines, i, stepNum, result, now)
    ensures PassState(lines, i + 1, stepNum, inNotes', notesNum', found')
  {
    LastHeaderStep(lines, i);
    HasHeaderForStep(lines, i, stepNum);
    rewritten, inNotes', notesNum', found' := VisitLine(lines[i], stepNum, result, now, inNotes, notesNum, found);
  }

  /** The second pass of updateStepInContent: the Status, Last Run and Notes
      lines of the step's block, and whether that block exists. */
  method RewriteBlock(lines: seq<string>, stepNum: int, result: StepResult, now: string)
    returns (output: seq<string>, foundNotesSection: bool)
    requires NoPanic(lines)
    ensures output == NotesPass(lines, stepNum, result, now)
    ensures foundNotesSection == HasHeaderFor(lines, stepNum)
  {
    output := [];
    foundNotesSection := false;
    var inNotesSection := false;
    var notesStepNum := 0;
    ghost var target := NotesPass(lines, stepNum, result, now);
    for i := 0 to |lines|
      invariant |output| == i
      invariant forall k :: 0 <= k < i ==> output[k] == target[k]
      invariant PassState(lines, i, stepNum, inNotesSection, notesStepNum, foundNotesSection)
    {
      var rewritten;
      rewritten, inNotesSection, notesStepNum, foundNotesSection :=
        VisitAt(lines, i, stepNum, result, now, inNotesSection, notesStepNum, foundNotesSection);
      output := output + [rewritten];
    }
    assert lines[..|lines|] == lines;
    assert output == target;
  }

  /** The inner loop of the insertion: past the lines that are not blank
      once trimmed (a line starting `**` after trimming is not blank either). */
  method SkipBlockLines(r: seq<string>, anchor: nat) returns (insertIdx: nat)
    requires anchor < |r|
    ensures insertIdx == BlockEnd(r, anchor)
  {
    insertIdx := anchor + 1;
    while insertIdx < |r| && (TrimSpace(r[insertIdx]) != "" || HasPrefix(TrimSpace(r[insertIdx]), "**"))
      invariant anchor < insertIdx <= |r|
      invariant BlockEnd(r, anchor) == SkipNonBlank(r, insertIdx)
    {
      insertIdx := insertIdx + 1;
    }
  }

  /** The insertion of updateStepInContent when blocks exist but none for
      the step: after the last `## Notes` or `### Step` line and the non-blank
      lines that follow it. Without such a line nothing is inserted. */
  method InsertBlock(output: seq<string>, block: string) returns (r: seq<string>)
    ensures r == WithBlock(output, block)
  {
    var anchor := FindAnchor(output);
    if anchor.None? {
      return output;
    }
    var insertIdx := SkipBlockLines(output, anchor.value);
    r := InsertAfter(output, insertIdx, block);
  }


  /** The backward search of the insertion: the last `## Notes` or
      `### Step` line. */
  method FindAnchor(r: seq<string>) returns (anchor: Option<nat>)
    ensures anchor == LastAnchor(r, |r|)
  {
    var i := |r| - 1;
    while i >= 0
      invariant -1 <= i < |r|
      invariant LastAnchor(r, |r|) == LastAnchor(r, i + 1)
    {
      if HasPrefix(r[i], "## Notes") || HasPrefix(r[i], "### Step") {
        return Some(i);
      }
      assert LastAnchor(r, i + 1) == LastAnchor(r, i);
      i := i - 1;
    }
    return None;
  }

  /** updateStepInContent, with the Last Run timestamp `now` given. */
  method UpdateStepInContent(content: string, stepNum: int, result: StepResult, now: string) returns (updated: string)
    requires NoPanic(Split(content, '\n'))
    ensures updated == Join(UpdatedLines(content, stepNum, result, now), '\n')
  {
    var lines := Split(content, '\n');
    CheckboxPassNoPanic(lines, stepNum, Marker(result));
    var patched, notesSectionExists := MarkStepLine(lines, stepNum, result);
    var output, foundNotesSection := RewriteBlock(patched, stepNum, result, now);
    if !notesSectionExists {
      output := output + ["", "## Notes", "", CreateNotesSection(stepNum, result, now)];
    } else if !foundNotesSection {
      output := InsertBlock(output, CreateNotesSection(stepNum, result, now));
    }
    updated := Join(output, '\n');
  }
}
