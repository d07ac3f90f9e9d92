/** The lenient plan parser (internal/plan/parser.go). `Parse` is the scanning
    loop of the source over the scanner's lines; `Feed` states what one
    iteration of that loop does to the scan variables, and `ScanAll` folds it
    over a prefix of the lines. The lemmas state what the finished scan holds. */
module Parser {
  import opened Text
  import opened Grammar
  import opened PlanModel

  /** The fields read from one `### Step n` annotation block. */
  datatype StepNotes = StepNotes(status: string, lastRun: string, notes: string, retryCount: nat)

  const EmptyNotes := StepNotes("", "", "", 0)

  /** parseCheckbox: `x` is Completed, `!` Failed, `-` Skipped, anything else Pending. */
  function ParseCheckbox(marker: char): (s: StepStatus)
    ensures s == Completed <==> marker == 'x'
    ensures s == Failed <==> marker == '!'
    ensures s == Skipped <==> marker == '-'
    ensures s == Pending <==> marker != 'x' && marker != '!' && marker != '-'
  {
    match marker
    case 'x' => Completed
    case '!' => Failed
    case '-' => Skipped
    case _ => Pending
  }

  /** parseStepNumber: the value of a run of digits, or 0 when Sscanf fails
      on it (the error is ignored and the variable keeps its zero value). */
  function ParseStepNumber(digits: string): (n: nat)
    requires AllDigits(digits)
    ensures n <= MaxInt
    ensures |digits| > 0 && DigitsValue(digits) <= MaxInt ==> n == DigitsValue(digits)
    ensures DigitsValue(digits) > MaxInt ==> n == 0
  {
    match ScanInt(digits)
    case Some(v) => v
    case None => 0
  }

  /** Every number within Go's int range reads back from its decimal text. */
  lemma ParseStepNumberOfNatToString(n: nat)
    requires n <= MaxInt
    ensures ParseStepNumber(NatToString(n)) == n
  {
    DigitsValueOfNatToString(n);
  }

  /** A number beyond Go's int range reads back as 0. */
  lemma ParseStepNumberOutOfRange(n: nat)
    requires n > MaxInt
    ensures ParseStepNumber(NatToString(n)) == 0
  {
    DigitsValueOfNatToString(n);
  }

  /** The header `### Step <n>` written for a number is recognised, with the step's number. */
  lemma BlockHeaderMatches(stepNum: nat)
    requires stepNum <= MaxInt
    ensures MatchNotesHeader("### Step " + NatToString(stepNum)) == Some(NatToString(stepNum))
    ensures ParseStepNumber(NatToString(stepNum)) == stepNum
  {
    var d := NatToString(stepNum);
    var s := "### Step " + d;
    SkipSpacesAt(s, 3, 4);
    assert s[4..][..4] == "Step";
    assert IsDigit(s[9]);
    SkipSpacesAt(s, 8, 9);
    assert s[9..] == d;
    ParseStepNumberOfNatToString(stepNum);
  }

  /** The variables of the scanning loop: the plan fields it fills in and its
      cursor state. */
  datatype Scan = Scan(
    projectName: string,
    context: string,
    steps: seq<Step>,
    stepNumber: nat,
    notesMap: map<nat, StepNotes>,
    currentNoteStep: nat,
    inNotesSection: bool,
    inContextSection: bool,
    contextLines: seq<string>)

  const Start := Scan("", "", [], 0, map[], 0, false, false, [])

  /** The scan keeps steps numbered by position, and an open block always has
      its record in the map. */
  ghost predicate ScanInv(s: Scan) {
    && |s.steps| == s.stepNumber
    && (forall k :: 0 <= k < |s.steps| ==> s.steps[k].number == k + 1)
    && (s.currentNoteStep > 0 ==> s.currentNoteStep in s.notesMap)
    && (!s.inContextSection ==> s.contextLines == [])
  }

  /** The step a step line adds before annotations are merged. */
  function NewStep(number: nat, m: StepMatch): Step {
    Step(number, TrimSpace(m.text), ParseCheckbox(m.marker), None, "", 0)
  }

  /** The checks that follow the Context handling: step line, block header,
      then the fields of an open block. */
  function FeedBody(s: Scan, line: string): (r: Scan)
    requires ScanInv(s)
    ensures ScanInv(r)
  {
    match MatchStepLine(line)
    case Some(m) =>
      s.(stepNumber := s.stepNumber + 1, steps := s.steps + [NewStep(s.stepNumber + 1, m)])
    case None => FeedNotes(s, line)
  }

  /** A line that is no step line: a block header opens the block (with an
      empty record if it has none yet), a field line of the open block sets
      that field, and any other `#` line closes the block. Only the
      annotation state changes. */
  function FeedNotes(s: Scan, line: string): (r: Scan)
    requires ScanInv(s)
    ensures ScanInv(r)
    ensures r == s.(notesMap := r.notesMap, currentNoteStep := r.currentNoteStep, inNotesSection := r.inNotesSection)
  {
    match MatchNotesHeader(line)
    case Some(digits) =>
      var num := ParseStepNumber(digits);
      s.(currentNoteStep := num, inNotesSection := true,
         notesMap := if num in s.notesMap then s.notesMap else s.notesMap[num := EmptyNotes])
    case None =>
      if s.inNotesSection && s.currentNoteStep > 0 then
        var notes := s.notesMap[s.currentNoteStep];
        if MatchStatusField(line).Some? then
          s.(notesMap := s.notesMap[s.currentNoteStep := notes.(status := MatchStatusField(line).value)])
        else if MatchLastRunField(line).Some? then
          s.(notesMap := s.notesMap[s.currentNoteStep := notes.(lastRun := MatchLastRunField(line).value)])
        else if MatchNotesField(line).Some? then
          s.(notesMap := s.notesMap[s.currentNoteStep := notes.(notes := MatchNotesField(line).value)])
        else if MatchRetriesField(line).Some? then
          match ScanInt(MatchRetriesField(line).value)
          case Some(count) => s.(notesMap := s.notesMap[s.currentNoteStep := notes.(retryCount := count)])
          case None => s
        else if HasPrefix(line, "#") then
          s.(inNotesSection := false, currentNoteStep := 0)
        else s
      else s
  }

  /** One iteration of the scanning loop. */
  function Feed(s: Scan, line: string): (r: Scan)
    requires ScanInv(s)
    ensures ScanInv(r)
  {
    if MatchProjectName(line).Some? then s.(projectName := TrimSpace(MatchProjectName(line).value))
    else if IsContextHeader(line) then s.(inContextSection := true)
    else if s.inContextSection && !IsSectionHeader(line) then s.(contextLines := s.contextLines + [line])
    else if s.inContextSection then
      FeedBody(s.(context := TrimSpace(Join(s.contextLines, '\n')), inContextSection := false, contextLines := []), line)
    else FeedBody(s, line)
  }

  /** The scan state after feeding `lines` to `s`. */
  function FeedAll(s: Scan, lines: seq<string>): (r: Scan)
    requires ScanInv(s)
    ensures ScanInv(r)
  {
    if |lines| == 0 then s else Feed(FeedAll(s, lines[..|lines| - 1]), lines[|lines| - 1])
  }

  /** The scan state after the first loop of Parse over `lines`. */
  function ScanAll(lines: seq<string>): (r: Scan)
    ensures ScanInv(r)
  {
    FeedAll(Start, lines)
  }

  /** Applying one step's annotation record (the second loop of Parse). */
  function MergeNotes(step: Step, notesMap: map<nat, StepNotes>): (r: Step)
    ensures r.number == step.number && r.description == step.description && r.status == step.status
    ensures step.number !in notesMap ==> r == step
    ensures step.number in notesMap ==>
      var n := notesMap[step.number];
      && r.retryCount == n.retryCount
      && r.notes == (if n.notes == "(none)" then step.notes else n.notes)
      && r.lastRun == (if n.lastRun != "" && n.lastRun != "N/A" && IsTimestamp(n.lastRun) then Some(n.lastRun) else step.lastRun)
  {
    if step.number in notesMap then
      var n := notesMap[step.number];
      var withRun := if n.lastRun != "" && n.lastRun != "N/A" && IsTimestamp(n.lastRun) then step.(lastRun := Some(n.lastRun)) else step;
      var withNotes := if n.notes != "(none)" then withRun.(notes := n.notes) else withRun;
      withNotes.(retryCount := n.retryCount)
    else step
  }

  function MergeAll(steps: seq<Step>, notesMap: map<nat, StepNotes>): (r: seq<Step>)
    ensures |r| == |steps|
  {
    seq(|steps|, k requires 0 <= k < |steps| => MergeNotes(steps[k], notesMap))
  }

  /** The plan Parse returns for `content`. */
  function PlanOf(content: string): Plan {
    var s := ScanAll(ScanLines(content));
    Plan(s.projectName, s.context, MergeAll(s.steps, s.notesMap), content)
  }

  /** One pass of the scanning loop of Parse: the checks in the source's
      order, each taking the line and ending the iteration. */
  method ScanLine(s: Scan, line: string) returns (r: Scan)
    requires ScanInv(s)
    ensures r == Feed(s, line)
  {
    r := s;
    var project := MatchProjectName(line);
    if project.Some? {
      r := r.(projectName := TrimSpace(project.value));
      return;
    }
    if IsContextHeader(line) {
      r := r.(inContextSection := true);
      return;
    }
    if r.inContextSection {
      if IsSectionHeader(line) {
        r := r.(context := TrimSpace(Join(r.contextLines, '\n')), inContextSection := false, contextLines := []);
      } else {
        r := r.(contextLines := r.contextLines + [line]);
        return;
      }
    }
    var stepLine := MatchStepLine(line);
    if stepLine.Some? {
      var number := r.stepNumber + 1;
      r := r.(stepNumber := number,
              steps := r.steps + [Step(number, TrimSpace(stepLine.value.text), ParseCheckbox(stepLine.value.marker), None, "", 0)]);
      return;
    }
    var header := MatchNotesHeader(line);
    if header.Some? {
      var num := ParseStepNumber(header.value);
      r := r.(currentNoteStep := num, inNotesSection := true);
      if num !in r.notesMap {
        r := r.(notesMap := r.notesMap[num := EmptyNotes]);
      }
      return;
    }
    if r.inNotesSection && r.currentNoteStep > 0 {
      var notes := r.notesMap[r.currentNoteStep];
      var status := MatchStatusField(line);
      if status.Some? {
        r := r.(notesMap := r.notesMap[r.currentNoteStep := notes.(status := status.value)]);
        return;
      }
      var lastRun := MatchLastRunField(line);
      if lastRun.Some? {
        r := r.(notesMap := r.notesMap[r.currentNoteStep := notes.(lastRun := lastRun.value)]);
        return;
      }
      var text := MatchNotesField(line);
      if text.Some? {
        r := r.(notesMap := r.notesMap[r.currentNoteStep := notes.(notes := text.value)]);
        return;
      }
      var retries := MatchRetriesField(line);
      if retries.Some? {
        var count := ScanInt(retries.value);
        if count.Some? {
          r := r.(notesMap := r.notesMap[r.currentNoteStep := notes.(retryCount := count.value)]);
        }
        return;
      }
      if HasPrefix(line, "#") {
        r := r.(inNotesSection := false, currentNoteStep := 0);
      }
    }
  }

  /** The body of the second loop of Parse: a valid Last Run timestamp, a
      Notes value other than `(none)` and the retry count of the step's
      record replace the step's own. */
  method ApplyNotes(step: Step, notesMap: map<nat, StepNotes>) returns (r: Step)
    ensures r == MergeNotes(step, notesMap)
  {
    r := step;
    if step.number in notesMap {
      var notes := notesMap[step.number];
      if notes.lastRun != "" && notes.lastRun != "N/A" && IsTimestamp(notes.lastRun) {
        r := r.(lastRun := Some(notes.lastRun));
      }
      if notes.notes != "(none)" {
        r := r.(notes := notes.notes);
      }
      r := r.(retryCount := notes.retryCount);
    }
  }

  /** Parse: never fails, keeps the text it was given, numbers the steps 1..N
      in document order, and builds exactly the plan PlanOf describes. */
  method Parse(content: string) returns (plan: Plan)
    ensures plan == PlanOf(content)
    ensures plan.rawContent == content
    ensures forall k :: 0 <= k < |plan.steps| ==> plan.steps[k].number == k + 1
  {
    var lines := ScanLines(content);
    var scan := Start;
    var i := 0;
    while i < |lines|
      invariant 0 <= i <= |lines|
      invariant scan == ScanAll(lines[..i])
    {
      assert lines[..i + 1][..i] == lines[..i];
      scan := ScanLine(scan, lines[i]);
      i := i + 1;
    }
    assert lines[..i] == lines;
    plan := Plan(scan.projectName, scan.context, scan.steps, content);

    // Apply the annotation records to the steps they name.
    var j := 0;
    while j < |plan.steps|
      invariant 0 <= j <= |plan.steps| == |scan.steps|
      invariant plan == Plan(scan.projectName, scan.context, plan.steps, content)
      invariant plan.steps[..j] == MergeAll(scan.steps, scan.notesMap)[..j]
      invariant plan.steps[j..] == scan.steps[j..]
    {
      assert plan.steps[j] == scan.steps[j];
      var step := ApplyNotes(plan.steps[j], scan.notesMap);
      plan := plan.(steps := plan.steps[j := step]);
      assert plan.steps[..j + 1] == plan.steps[..j] + [step];
      j := j + 1;
    }
    assert plan.steps == plan.steps[..j];
  }

  // ----- what the finished scan holds, against independent definitions -----

  /** Whether a `## Context` block is open after `lines`: the last Context
      header has not been followed by another `## <word>` header. */
  function ContextOpenAfter(lines: seq<string>): bool {
    if |lines| == 0 then false
    else
      var last := lines[|lines| - 1];
      if MatchProjectName(last).Some? then ContextOpenAfter(lines[..|lines| - 1])
      else if IsContextHeader(last) then true
      else if IsSectionHeader(last) then false
      else ContextOpenAfter(lines[..|lines| - 1])
  }

  /** The lines that become steps: those matching the step grammar that do
      not sit inside an open Context block, in document order. */
  function CountedStepLines(lines: seq<string>): (r: seq<string>)
    ensures |r| <= |lines|
    ensures forall k :: 0 <= k < |r| ==> IsStepLine(r[k])
  {
    if |lines| == 0 then []
    else
      var prefix := lines[..|lines| - 1];
      var last := lines[|lines| - 1];
      if IsStepLine(last) && !ContextOpenAfter(prefix) then CountedStepLines(prefix) + [last]
      else CountedStepLines(prefix)
  }

  lemma ScanAllLast(lines: seq<string>)
    requires |lines| > 0
    ensures ScanAll(lines) == Feed(ScanAll(lines[..|lines| - 1]), lines[|lines| - 1])
  {}

  lemma StepLineIsNoHeader(line: string)
    requires IsStepLine(line)
    ensures MatchProjectName(line).None? && !IsContextHeader(line) && !IsSectionHeader(line)
    ensures MatchNotesHeader(line).None?
  {
    assert line[0] == '-';
    NoHashNoHeader(line);
  }

  /** FeedBody leaves the title and Context fields alone and adds a step
      exactly for a step line. */
  lemma FeedBodyFields(s: Scan, line: string)
    requires ScanInv(s)
    ensures var r := FeedBody(s, line);
      && r.projectName == s.projectName && r.context == s.context
      && r.inContextSection == s.inContextSection && r.contextLines == s.contextLines
      && r.steps == (if IsStepLine(line) then s.steps + [NewStep(s.stepNumber + 1, MatchStepLine(line).value)] else s.steps)
  {}

  /** Title, Context flag and collected lines after one line. */
  lemma FeedHead(s: Scan, line: string)
    requires ScanInv(s)
    ensures var r := Feed(s, line);
      var project := MatchProjectName(line).Some?;
      var header := IsContextHeader(line);
      && r.projectName == (if project then TrimSpace(MatchProjectName(line).value) else s.projectName)
      && r.inContextSection == (if project then s.inContextSection else if header then true
                                else if IsSectionHeader(line) then false else s.inContextSection)
      && r.contextLines == (if project || header then s.contextLines
                            else if s.inContextSection && !IsSectionHeader(line) then s.contextLines + [line]
                            else if s.inContextSection then [] else s.contextLines)
      && r.context == (if !project && !header && s.inContextSection && IsSectionHeader(line)
                       then TrimSpace(Join(s.contextLines, '\n')) else s.context)
  {
    if MatchProjectName(line).None? && !IsContextHeader(line) && !(s.inContextSection && !IsSectionHeader(line)) {
      if s.inContextSection {
        FeedBodyFields(s.(context := TrimSpace(Join(s.contextLines, '\n')), inContextSection := false, contextLines := []), line);
      } else {
        FeedBodyFields(s, line);
      }
    }
  }

  /** The steps after one line: a step line outside an open Context block adds one. */
  lemma FeedSteps(s: Scan, line: string)
    requires ScanInv(s)
    ensures Feed(s, line).steps ==
      (if IsStepLine(line) && !s.inContextSection then s.steps + [NewStep(s.stepNumber + 1, MatchStepLine(line).value)]
       else s.steps)
  {
    if IsStepLine(line) {
      StepLineIsNoHeader(line);
    }
    if MatchProjectName(line).None? && !IsContextHeader(line) && !(s.inContextSection && !IsSectionHeader(line)) {
      if s.inContextSection {
        FeedBodyFields(s.(context := TrimSpace(Join(s.contextLines, '\n')), inContextSection := false, contextLines := []), line);
      } else {
        FeedBodyFields(s, line);
      }
    }
  }

  /** The scan's Context flag is exactly ContextOpenAfter. */
  lemma {:induction false} ContextFlagTracks(lines: seq<string>)
    ensures ScanAll(lines).inContextSection == ContextOpenAfter(lines)
  {
    if |lines| > 0 {
      ContextFlagTracks(lines[..|lines| - 1]);
      ScanAllLast(lines);
      FeedHead(ScanAll(lines[..|lines| - 1]), lines[|lines| - 1]);
    }
  }

  /** Step numbering is positional: the k-th counted step line becomes the
      step numbered k+1, whatever its `Step <n>:` label says; its status comes
      from its checkbox and its description is the trimmed text after the
      checkbox and the optional label. */
  lemma {:induction false} StepsFromStepLines(lines: seq<string>)
    ensures var s := ScanAll(lines); var c := CountedStepLines(lines);
      && |s.steps| == |c|
      && forall k :: 0 <= k < |c| ==> s.steps[k] == NewStep(k + 1, MatchStepLine(c[k]).value)
  {
    if |lines| > 0 {
      var prefix := lines[..|lines| - 1];
      var last := lines[|lines| - 1];
      var s0 := ScanAll(prefix);
      var c0 := CountedStepLines(prefix);
      var counted := IsStepLine(last) && !ContextOpenAfter(prefix);
      StepsFromStepLines(prefix);
      var steps := ScanAll(lines).steps;
      assert steps == if counted then s0.steps + [NewStep(|c0| + 1, MatchStepLine(last).value)] else s0.steps by {
        ContextFlagTracks(prefix);
        ScanAllLast(lines);
        FeedSteps(s0, last);
      }
      var c := CountedStepLines(lines);
      assert c == if counted then c0 + [last] else c0;
      if counted {
        forall k | 0 <= k < |c|
          ensures steps[k] == NewStep(k + 1, MatchStepLine(c[k]).value)
        {
          if k < |c0| {
            assert c[k] == c0[k] && steps[k] == s0.steps[k];
          }
        }
      }
    }
  }

  /** The capture of the last line in `lines` matching the project-title grammar. */
  function LastProjectCapture(lines: seq<string>): Option<string> {
    if |lines| == 0 then None
    else if MatchProjectName(lines[|lines| - 1]).Some? then MatchProjectName(lines[|lines| - 1])
    else LastProjectCapture(lines[..|lines| - 1])
  }

  /** The project name is the trimmed capture of the last `# Project:` line,
      wherever it stands, or empty when there is none. */
  lemma {:induction false} ProjectNameFromLastTitle(lines: seq<string>)
    ensures ScanAll(lines).projectName ==
      (match LastProjectCapture(lines) case None => "" case Some(v) => TrimSpace(v))
  {
    if |lines| > 0 {
      ProjectNameFromLastTitle(lines[..|lines| - 1]);
      ScanAllLast(lines);
      FeedHead(ScanAll(lines[..|lines| - 1]), lines[|lines| - 1]);
    }
  }

  /** Line `i` closes an open Context block. */
  predicate ClosesContext(lines: seq<string>, i: nat)
    requires i < |lines|
  {
    ContextOpenAfter(lines[..i]) && MatchProjectName(lines[i]).None? &&
    !IsContextHeader(lines[i]) && IsSectionHeader(lines[i])
  }

  /** Context stays empty unless some Context block is closed by a later
      `## <word>` header: an unterminated block contributes nothing. */
  lemma {:induction false} ContextOnlyWhenClosed(lines: seq<string>)
    ensures ScanAll(lines).context != "" ==> exists i :: 0 <= i < |lines| && ClosesContext(lines, i)
  {
    if |lines| > 0 {
      var prefix := lines[..|lines| - 1];
      ContextOnlyWhenClosed(prefix);
      ContextFlagTracks(prefix);
      ScanAllLast(lines);
      FeedHead(ScanAll(prefix), lines[|lines| - 1]);
      if ScanAll(lines).context != "" {
        if ScanAll(prefix).context != "" && ScanAll(lines).context == ScanAll(prefix).context {
          var i :| 0 <= i < |prefix| && ClosesContext(prefix, i);
          assert lines[..i] == prefix[..i];
          assert ClosesContext(lines, i);
        } else {
          assert prefix == lines[..|lines| - 1];
          assert ClosesContext(lines, |lines| - 1);
        }
      }
    }
  }

  /** Lines of a block body: not a title, Context header or `## <word>` header. */
  predicate PlainContextLine(line: string) {
    MatchProjectName(line).None? && !IsContextHeader(line) && !IsSectionHeader(line)
  }

  lemma ContextHeaderLiteral()
    ensures IsContextHeader("## Context") && MatchProjectName("## Context").None?
  {
    assert "## Context"[..2] == "##";
    assert SkipSpaces("## Context", 2) == 3;
    assert "## Context"[3..][..7] == "Context";
  }

  lemma {:induction false} ContextCollects(pre: seq<string>, body: seq<string>)
    requires !ContextOpenAfter(pre)
    requires forall k :: 0 <= k < |body| ==> PlainContextLine(body[k])
    ensures ScanAll(pre + ["## Context"] + body).inContextSection
    ensures ScanAll(pre + ["## Context"] + body).contextLines == body
  {
    var head := pre + ["## Context"];
    if |body| == 0 {
      assert head + body == head;
      ContextFlagTracks(pre);
      ScanAllLast(head);
      assert head[..|head| - 1] == pre;
      ContextHeaderLiteral();
      FeedHead(ScanAll(pre), "## Context");
    } else {
      var lines := head + body;
      var init := body[..|body| - 1];
      var line := body[|body| - 1];
      ContextCollects(pre, init);
      var s := ScanAll(head + init);
      assert s.inContextSection && s.contextLines == init;
      assert lines[..|lines| - 1] == head + init;
      ScanAllLast(lines);
      assert ScanAll(lines) == Feed(s, line);
      assert PlainContextLine(line);
      FeedHead(s, line);
      assert init + [line] == body;
    }
  }

  /** A closed Context block: the value is the enclosed lines joined with
      newlines and trimmed, and the closing header ends the block. */
  lemma ContextOfClosedBlock(pre: seq<string>, body: seq<string>, header: string)
    requires !ContextOpenAfter(pre)
    requires forall k :: 0 <= k < |body| ==> PlainContextLine(body[k])
    requires IsSectionHeader(header) && !IsContextHeader(header)
    ensures ScanAll(pre + ["## Context"] + body + [header]).context == TrimSpace(Join(body, '\n'))
    ensures !ScanAll(pre + ["## Context"] + body + [header]).inContextSection
  {
    var open := pre + ["## Context"] + body;
    var lines := open + [header];
    ContextCollects(pre, body);
    var s := ScanAll(open);
    assert s.inContextSection && s.contextLines == body;
    assert lines[..|lines| - 1] == open;
    ScanAllLast(lines);
    assert ScanAll(lines) == Feed(s, header);
    SectionHeaderIsNoTitle(header);
    FeedHead(s, header);
  }

  /** The status recorded in an annotation block never reaches a step: every
      parsed step's status is the one its checkbox gives. */
  lemma StatusFromCheckboxOnly(content: string)
    ensures var p := PlanOf(content); var c := CountedStepLines(ScanLines(content));
      && |p.steps| == |c|
      && forall k :: 0 <= k < |c| ==> p.steps[k].status == ParseCheckbox(MatchStepLine(c[k]).value.marker)
  {
    StepsFromStepLines(ScanLines(content));
  }
}
