/** What updateStepInContent promises about the text it patches
    (internal/plan/writer.go): which lines change and how, what it never
    writes, and what a second call with the same arguments does. */
module WriterLemmas {
  import opened Text
  import opened Grammar
  import opened PlanModel
  import Parser
  import opened Writer

  // ----- the checkbox -----

  /** Rewriting the boxes twice with the same marker is rewriting them once. */
  lemma UpdateCheckboxIdempotent(s: string, m: char)
    requires IsBoxMark(m)
    ensures UpdateCheckbox(UpdateCheckbox(s, m), m) == UpdateCheckbox(s, m)
  {
    var r := UpdateCheckbox(s, m);
    UpdateCheckboxPointwise(s, m);
    UpdateCheckboxPointwise(r, m);
    forall j | 0 <= j < |s| ensures IsBoxMiddle(r, j) == IsBoxMiddle(s, j) {
      if 0 < j < |s| - 1 {
        assert r[j - 1] == '[' <==> s[j - 1] == '[';
        assert r[j + 1] == ']' <==> s[j + 1] == ']';
      }
    }
  }

  /** A step line before index `j` is counted in the lines before `j`. */
  lemma {:induction false} StepLinesGrow(lines: seq<string>, i: nat, j: nat)
    requires i < j <= |lines| && IsStepLine(lines[i])
    ensures StepLinesIn(lines[..j]) >= StepLinesIn(lines[..i]) + 1
    decreases j - i
  {
    if j == i + 1 {
      StepLinesStep(lines, i);
    } else {
      StepLinesGrow(lines, i, j - 1);
      StepLinesStep(lines, j - 1);
    }
  }

  /** At most one line is the stepNum-th step line. */
  lemma TargetStepLineUnique(lines: seq<string>, i: nat, j: nat, stepNum: int)
    requires i < |lines| && j < |lines|
    requires IsTargetStepLine(lines, i, stepNum) && IsTargetStepLine(lines, j, stepNum)
    ensures i == j
  {
    if i < j {
      StepLinesGrow(lines, i, j);
    } else if j < i {
      StepLinesGrow(lines, j, i);
    }
  }

  /** The first pass changes only the stepNum-th line matching the step
      grammar; that line remains a step line and its checkbox becomes the
      marker, except that a `[-]` stays. */
  lemma CheckboxPassEffect(lines: seq<string>, stepNum: int, m: char)
    requires IsBoxMark(m) && m != ' '
    ensures var r := CheckboxPass(lines, stepNum, m);
      && (forall i :: 0 <= i < |lines| && r[i] != lines[i] ==> IsTargetStepLine(lines, i, stepNum))
      && (forall i, j :: 0 <= i < j < |lines| && r[i] != lines[i] ==> r[j] == lines[j])
      && (forall i :: 0 <= i < |lines| && IsTargetStepLine(lines, i, stepNum) ==>
            IsStepLine(r[i]) &&
            MatchStepLine(r[i]).value.marker == if MatchStepLine(lines[i]).value.marker == '-' then '-' else m)
  {
    var r := CheckboxPass(lines, stepNum, m);
    forall i, j | 0 <= i < j < |lines| && r[i] != lines[i] ensures r[j] == lines[j] {
      if IsTargetStepLine(lines, j, stepNum) {
        TargetStepLineUnique(lines, i, j, stepNum);
      }
    }
    forall i | 0 <= i < |lines| && IsTargetStepLine(lines, i, stepNum)
      ensures IsStepLine(r[i])
      ensures MatchStepLine(r[i]).value.marker == if MatchStepLine(lines[i]).value.marker == '-' then '-' else m
    {
      UpdateCheckboxStepLine(lines[i], m);
    }
  }

  // ----- the fields of the block -----

  predicate IsStatusLine(line: string) { MatchStatusField(line).Some? }
  predicate IsLastRunLine(line: string) { MatchLastRunField(line).Some? }
  predicate IsNotesLine(line: string) { MatchNotesField(line).Some? }

  /** The four field prefixes exclude each other. */
  lemma FieldKinds(line: string)
    ensures IsStatusLine(line) ==> !IsLastRunLine(line) && !IsNotesLine(line) && MatchRetriesField(line).None?
    ensures IsLastRunLine(line) ==> !IsNotesLine(line) && MatchRetriesField(line).None?
    ensures IsNotesLine(line) ==> MatchRetriesField(line).None?
  {
    if IsStatusLine(line) { assert line[2] == 'S'; }
    if IsLastRunLine(line) { assert line[2] == 'L'; }
    if IsNotesLine(line) { assert line[2] == 'N'; }
  }

  lemma StatusOutputFixed(result: StepResult, now: string)
    ensures var s := "**Status**: " + StatusWord(result); RewriteField(s, result, now) == s
  {
    var w := StatusWord(result);
    var s := "**Status**: " + w;
    assert s[..11] == "**Status**:";
    assert s[11] == ' ' && s[12] == w[0];
    SkipSpacesAt(s, 11, 12);
    assert s[12..] == w;
    if result.success {
      assert AllWordChars("completed");
    } else {
      assert AllWordChars("failed");
    }
  }

  lemma LastRunOutputFixed(result: StepResult, now: string)
    ensures var s := "**Last Run**: " + now; RewriteField(s, result, now) == s
  {
    var s := "**Last Run**: " + now;
    assert s[2] == 'L';
    assert !IsStatusLine(s);
  }

  lemma NotesPrefixOnly(t: string)
    ensures !IsStatusLine("**Notes**: " + t) && !IsLastRunLine("**Notes**: " + t)
  {
    var s := "**Notes**: " + t;
    assert s[2] == 'N';
  }

  lemma NotesOutputFixed(result: StepResult, now: string)
    ensures var s := "**Notes**: " + NotesText(result); RewriteField(s, result, now) == s
  {
    NotesPrefixOnly(NotesText(result));
  }

  /** A rewritten field is left as it is by a second rewrite. */
  lemma RewriteFieldIdempotent(line: string, result: StepResult, now: string)
    ensures RewriteField(RewriteField(line, result, now), result, now) == RewriteField(line, result, now)
  {
    if IsStatusLine(line) {
      StatusOutputFixed(result, now);
    } else if IsLastRunLine(line) {
      LastRunOutputFixed(result, now);
    } else if IsNotesLine(line) {
      NotesOutputFixed(result, now);
    }
  }

  /** The second pass changes only Status, Last Run and Notes lines inside the
      block of the step, gives each the result's value, and never changes a
      Retries line; no line is added or removed. */
  lemma NotesPassEffect(lines: seq<string>, stepNum: int, result: StepResult, now: string)
    ensures var r := NotesPass(lines, stepNum, result, now);
      && |r| == |lines|
      && (forall i :: 0 <= i < |lines| && r[i] != lines[i] ==>
            InTarget(lines[..i + 1], stepNum) && (IsStatusLine(lines[i]) || IsLastRunLine(lines[i]) || IsNotesLine(lines[i])))
      && (forall i :: 0 <= i < |lines| && MatchRetriesField(lines[i]).Some? ==> r[i] == lines[i])
      && (forall i :: 0 <= i < |lines| && InTarget(lines[..i + 1], stepNum) ==>
            && (IsStatusLine(lines[i]) ==> r[i] == "**Status**: " + StatusWord(result))
            && (IsLastRunLine(lines[i]) ==> r[i] == "**Last Run**: " + now)
            && (IsNotesLine(lines[i]) ==> r[i] == "**Notes**: " + NotesText(result)))
  {
    forall i | 0 <= i < |lines| {
      FieldKinds(lines[i]);
    }
  }

  // ----- the whole update -----

  /** Two results that agree on success, output and reason write the same
      text into every line. */
  lemma SameWrittenFields(p: seq<string>, stepNum: int, r1: StepResult, r2: StepResult, now: string)
    requires r1.success == r2.success && r1.output == r2.output && r1.reason == r2.reason
    ensures NotesPass(p, stepNum, r1, now) == NotesPass(p, stepNum, r2, now)
    ensures Marker(r1) == Marker(r2)
    ensures CreateNotesSection(stepNum, r1, now) == CreateNotesSection(stepNum, r2, now)
  {
    assert NotesText(r1) == NotesText(r2);
    forall i | 0 <= i < |p| ensures NotesPass(p, stepNum, r1, now)[i] == NotesPass(p, stepNum, r2, now)[i] {
      assert RewriteField(p[i], r1, now) == RewriteField(p[i], r2, now);
    }
  }

  /** The result's explicit status and retry count are never read: a skip
      (unsuccessful, status Skipped) is written exactly like a failure. */
  lemma IgnoresStatusAndRetryCount(content: string, stepNum: int, result: StepResult, now: string,
                                   status: Option<StepStatus>, retryCount: int)
    ensures UpdatedLines(content, stepNum, result, now) ==
      UpdatedLines(content, stepNum, result.(status := status, retryCount := retryCount), now)
  {
    var other := result.(status := status, retryCount := retryCount);
    var lines := Split(content, '\n');
    var p := CheckboxPass(lines, stepNum, Marker(result));
    var o := NotesPass(p, stepNum, result, now);
    SameWrittenFields(p, stepNum, result, other, now);
    if LastHeader(lines).None? {
      UpdatedLinesWhenNoBlocks(content, stepNum, result, now);
      UpdatedLinesWhenNoBlocks(content, stepNum, other, now);
    } else if HasHeaderFor(p, stepNum) {
      UpdatedLinesWhenFound(content, stepNum, result, now);
      UpdatedLinesWhenFound(content, stepNum, other, now);
    } else if LastAnchor(o, |o|).None? {
      UpdatedLinesWithoutAnchor(content, stepNum, result, now);
      UpdatedLinesWithoutAnchor(content, stepNum, other, now);
    } else {
      UpdatedLinesWhenMissing(content, stepNum, result, now);
      UpdatedLinesWhenMissing(content, stepNum, other, now);
    }
  }

  lemma ThirdChar(a: string, b: string)
    requires |a| >= 3
    ensures (a + b)[2] == a[2]
  {}

  /** A line whose third character is not `R` is no Retries field. */
  lemma NotRetriesByThird(s: string)
    requires |s| >= 3 && s[2] != 'R'
    ensures MatchRetriesField(s).None?
  {}

  /** The lines of a new section are no Retries fields. */
  lemma NewLinesNotRetries(stepNum: int, result: StepResult, now: string)
    ensures MatchRetriesField("").None? && MatchRetriesField("## Notes").None?
    ensures MatchRetriesField(CreateNotesSection(stepNum, result, now)).None?
  {
    var b := CreateNotesSection(stepNum, result, now);
    ThirdChar("### Step " + IntToString(stepNum), b[9 + |IntToString(stepNum)|..]);
    NotRetriesByThird(b);
    NotRetriesByThird("## Notes");
  }

  /** A field the second pass rewrites does not become a Retries line. */
  lemma RewriteFieldNotRetries(x: string, result: StepResult, now: string)
    requires RewriteField(x, result, now) != x
    ensures MatchRetriesField(RewriteField(x, result, now)).None?
  {
    var y := RewriteField(x, result, now);
    if MatchStatusField(x).Some? {
      ThirdChar("**Status**: ", StatusWord(result));
    } else if MatchLastRunField(x).Some? {
      ThirdChar("**Last Run**: ", now);
    } else {
      ThirdChar("**Notes**: ", NotesText(result));
    }
    NotRetriesByThird(y);
  }

  /** A Retries line after both passes is the input line at the same index. */
  lemma PassLineRetries(lines: seq<string>, stepNum: int, result: StepResult, now: string, k: nat)
    requires k < |lines|
    requires MatchRetriesField(NotesPass(CheckboxPass(lines, stepNum, Marker(result)), stepNum, result, now)[k]).Some?
    ensures NotesPass(CheckboxPass(lines, stepNum, Marker(result)), stepNum, result, now)[k] == lines[k]
  {
    var p := CheckboxPass(lines, stepNum, Marker(result));
    NotesLineRetries(p, k, stepNum, result, now);
    CheckboxLineRetries(lines, k, stepNum, Marker(result));
  }

  /** The second pass leaves a Retries line as it found it. */
  lemma NotesLineRetries(p: seq<string>, k: nat, stepNum: int, result: StepResult, now: string)
    requires k < |p|
    requires MatchRetriesField(NotesLine(p, k, stepNum, result, now)).Some?
    ensures NotesLine(p, k, stepNum, result, now) == p[k]
  {
    if NotesLine(p, k, stepNum, result, now) != p[k] {
      RewriteFieldNotRetries(p[k], result, now);
    }
  }

  /** The first pass leaves a Retries line as it found it. */
  lemma CheckboxLineRetries(lines: seq<string>, k: nat, stepNum: int, m: char)
    requires k < |lines|
    requires MatchRetriesField(CheckboxLine(lines, k, stepNum, m)).Some?
    ensures CheckboxLine(lines, k, stepNum, m) == lines[k]
  {
    if CheckboxLine(lines, k, stepNum, m) != lines[k] {
      MarkedNotRetries(lines[k], m);
    }
  }

  /** A step line with its boxes rewritten is no Retries line. */
  lemma MarkedNotRetries(line: string, m: char)
    requires IsStepLine(line)
    ensures MatchRetriesField(UpdateCheckbox(line, m)).None?
  {
    assert line[0] == '-';
    UpdateCheckboxFirst(line, m);
    assert !HasPrefix(UpdateCheckbox(line, m), "**Retries**:");
  }

  /** Where each line of the update comes from: a line of the two passes,
      or one of the lines of a new section. */
  predicate LineFrom(line: string, o: seq<string>, block: string) {
    line == "" || line == "## Notes" || line == block || exists k :: 0 <= k < |o| && line == o[k]
  }

  lemma UpdatedLineFrom(content: string, stepNum: int, result: StepResult, now: string, j: nat)
    requires j < |UpdatedLines(content, stepNum, result, now)|
    ensures LineFrom(UpdatedLines(content, stepNum, result, now)[j],
      NotesPass(CheckboxPass(Split(content, '\n'), stepNum, Marker(result)), stepNum, result, now),
      CreateNotesSection(stepNum, result, now))
  {
    var lines := Split(content, '\n');
    if LastHeader(lines).None? {
      NoBlocksLineFrom(content, stepNum, result, now, j);
    } else if HasHeaderFor(CheckboxPass(lines, stepNum, Marker(result)), stepNum) {
      UpdatedLinesWhenFound(content, stepNum, result, now);
    } else {
      MissingLineFrom(content, stepNum, result, now, j);
    }
  }

  lemma NoBlocksLineFrom(content: string, stepNum: int, result: StepResult, now: string, j: nat)
    requires LastHeader(Split(content, '\n')).None?
    requires j < |UpdatedLines(content, stepNum, result, now)|
    ensures LineFrom(UpdatedLines(content, stepNum, result, now)[j],
      NotesPass(CheckboxPass(Split(content, '\n'), stepNum, Marker(result)), stepNum, result, now),
      CreateNotesSection(stepNum, result, now))
  {
    var o := NotesPass(CheckboxPass(Split(content, '\n'), stepNum, Marker(result)), stepNum, result, now);
    UpdatedLinesWhenNoBlocks(content, stepNum, result, now);
    AppendedLineFrom(o, ["", "## Notes", "", CreateNotesSection(stepNum, result, now)], j);
  }

  lemma MissingLineFrom(content: string, stepNum: int, result: StepResult, now: string, j: nat)
    requires var lines := Split(content, '\n');
      LastHeader(lines).Some? && !HasHeaderFor(CheckboxPass(lines, stepNum, Marker(result)), stepNum)
    requires j < |UpdatedLines(content, stepNum, result, now)|
    ensures LineFrom(UpdatedLines(content, stepNum, result, now)[j],
      NotesPass(CheckboxPass(Split(content, '\n'), stepNum, Marker(result)), stepNum, result, now),
      CreateNotesSection(stepNum, result, now))
  {
    UpdatedLinesInsert(content, stepNum, result, now);
    WithBlockLineFrom(NotesPass(CheckboxPass(Split(content, '\n'), stepNum, Marker(result)), stepNum, result, now),
      CreateNotesSection(stepNum, result, now), j);
  }

  lemma WithBlockLineFrom(o: seq<string>, block: string, j: nat)
    requires j < |WithBlock(o, block)|
    ensures LineFrom(WithBlock(o, block)[j], o, block)
  {
    if LastAnchor(o, |o|).Some? {
      InsertedLineFrom(o, BlockEnd(o, LastAnchor(o, |o|).value), block, j);
    }
  }

  lemma AppendedLineFrom(o: seq<string>, tail: seq<string>, j: nat)
    requires j < |o| + |tail|
    ensures (o + tail)[j] in tail || (o + tail)[j] == o[j]
  {
    if j >= |o| {
      assert (o + tail)[j] == tail[j - |o|];
    }
  }

  lemma InsertedLineFrom(o: seq<string>, at: nat, block: string, j: nat)
    requires at <= |o| && j < |o| + 2
    ensures var r := InsertAfter(o, at, block);
      r[j] == "" || r[j] == block || exists k :: 0 <= k < |o| && r[j] == o[k]
  {
    var r := InsertAfter(o, at, block);
    InsertAfterShape(o, at, block);
    if j < at {
      assert r[..at][j] == r[j];
      assert r[j] == o[j];
    } else if j > at + 1 {
      assert r[at + 2..][j - at - 2] == r[j];
      assert r[j] == o[j - 2];
    }
  }

  /** A Retries line of the update is a line of the input. */
  lemma RetriesLineKept(content: string, stepNum: int, result: StepResult, now: string, j: nat)
    requires j < |UpdatedLines(content, stepNum, result, now)|
    requires MatchRetriesField(UpdatedLines(content, stepNum, result, now)[j]).Some?
    ensures UpdatedLines(content, stepNum, result, now)[j] in Split(content, '\n')
  {
    var lines := Split(content, '\n');
    var o := NotesPass(CheckboxPass(lines, stepNum, Marker(result)), stepNum, result, now);
    UpdatedLineFrom(content, stepNum, result, now, j);
    NewLinesNotRetries(stepNum, result, now);
    var k :| 0 <= k < |o| && UpdatedLines(content, stepNum, result, now)[j] == o[k];
    PassLineRetries(lines, stepNum, result, now, k);
  }

  /** The update never writes a Retries line: every Retries line of the
      output was already a line of the input. */
  lemma NeverWritesRetries(content: string, stepNum: int, result: StepResult, now: string)
    ensures var r := UpdatedLines(content, stepNum, result, now);
      forall j :: 0 <= j < |r| && MatchRetriesField(r[j]).Some? ==> r[j] in Split(content, '\n')
  {
    var r := UpdatedLines(content, stepNum, result, now);
    forall j | 0 <= j < |r| && MatchRetriesField(r[j]).Some? ensures r[j] in Split(content, '\n') {
      RetriesLineKept(content, stepNum, result, now, j);
    }
  }
}
