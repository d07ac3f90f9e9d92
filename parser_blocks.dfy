/** What the parser makes of the `### Step n` annotation blocks of a
    document (internal/plan/parser.go): which numbers get a record, what a
    block's record holds (the last line of each field kind), and how the
    records reach the steps of the plan Parse returns. */
module ParserBlocks {
  import opened Text
  import opened Grammar
  import opened PlanModel
  import opened Parser

  /** The count a Retries line sets: none when the line is no Retries line,
      or when Sscanf fails on its digits (a value beyond the int range). */
  function RetriesValue(line: string): Option<nat> {
    match MatchRetriesField(line)
    case Some(digits) => ScanInt(digits)
    case None => None
  }

  /** The value `f` captures from the last line of `lines` it accepts. */
  function LastCapture<T>(lines: seq<string>, f: string -> Option<T>): Option<T> {
    if |lines| == 0 then None
    else if f(lines[|lines| - 1]).Some? then f(lines[|lines| - 1])
    else LastCapture(lines[..|lines| - 1], f)
  }

  /** LastCapture is the capture of the last accepted line, and None exactly
      when no line is accepted. */
  lemma {:induction false} LastCaptureIsLast<T>(lines: seq<string>, f: string -> Option<T>)
    ensures LastCapture(lines, f).None? <==> forall k :: 0 <= k < |lines| ==> f(lines[k]).None?
    ensures LastCapture(lines, f).Some? ==>
      exists k :: 0 <= k < |lines| && f(lines[k]) == LastCapture(lines, f) &&
                  forall j :: k < j < |lines| ==> f(lines[j]).None?
  {
    if |lines| > 0 && f(lines[|lines| - 1]).None? {
      var init := lines[..|lines| - 1];
      LastCaptureIsLast(init, f);
      assert forall k :: 0 <= k < |init| ==> init[k] == lines[k];
      if LastCapture(init, f).Some? {
        var k :| 0 <= k < |init| && f(init[k]) == LastCapture(init, f) &&
                 forall j :: k < j < |init| ==> f(init[j]).None?;
        assert f(lines[k]) == LastCapture(lines, f);
      }
    }
  }

  function GetOr<T>(o: Option<T>, default: T): T {
    match o
    case Some(v) => v
    case None => default
  }

  /** The record of a block whose body lines are `fields`, starting from the
      record `base` the block already had: each field holds the value of the
      last line of its kind, or keeps its old value when there is none. */
  function BlockRecord(base: StepNotes, fields: seq<string>): StepNotes {
    StepNotes(
      GetOr(LastCapture(fields, MatchStatusField), base.status),
      GetOr(LastCapture(fields, MatchLastRunField), base.lastRun),
      GetOr(LastCapture(fields, MatchNotesField), base.notes),
      GetOr(LastCapture(fields, RetriesValue), base.retryCount))
  }

  /** The record a block starts from: the one an earlier block with the same
      number left, or the empty record. */
  function Base(notesMap: map<nat, StepNotes>, n: nat): StepNotes {
    if n in notesMap then notesMap[n] else EmptyNotes
  }

  /** A line that a block can hold: no `#` line and no step line. */
  predicate InBlock(line: string) {
    !HasPrefix(line, "#") && !IsStepLine(line)
  }

  /** A block header naming step `n`. */
  predicate HeaderFor(line: string, n: nat) {
    MatchNotesHeader(line).Some? && ParseStepNumber(MatchNotesHeader(line).value) == n
  }

  /** A line that ends the open block of step `n` when no Context block is
      open: a block header for another number, or any other `#` line that is
      neither a title nor a Context header. */
  predicate EndsBlock(line: string, n: nat) {
    || (MatchNotesHeader(line).Some? && ParseStepNumber(MatchNotesHeader(line).value) != n)
    || (HasPrefix(line, "#") && MatchNotesHeader(line).None? && MatchProjectName(line).None? && !IsContextHeader(line))
  }

  /** Line `i` is a block header for `n` outside any open Context block. */
  predicate BlockAt(lines: seq<string>, i: nat, n: nat)
    requires i < |lines|
  {
    HeaderFor(lines[i], n) && !ContextOpenAfter(lines[..i])
  }

  /** The document has a block for step `n`. */
  predicate HasBlock(lines: seq<string>, n: nat) {
    exists i :: 0 <= i < |lines| && BlockAt(lines, i, n)
  }

  // ----- one line at a time -----

  /** The effect of one body line on the record of the open block, in the
      parser's order of checks. */
  function FieldUpdate(rec: StepNotes, line: string): StepNotes {
    if MatchStatusField(line).Some? then rec.(status := MatchStatusField(line).value)
    else if MatchLastRunField(line).Some? then rec.(lastRun := MatchLastRunField(line).value)
    else if MatchNotesField(line).Some? then rec.(notes := MatchNotesField(line).value)
    else if RetriesValue(line).Some? then rec.(retryCount := RetriesValue(line).value)
    else rec
  }

  lemma FieldsDisjoint(line: string)
    ensures MatchStatusField(line).Some? ==>
      MatchLastRunField(line).None? && MatchNotesField(line).None? && RetriesValue(line).None?
    ensures MatchLastRunField(line).Some? ==> MatchNotesField(line).None? && RetriesValue(line).None?
    ensures MatchNotesField(line).Some? ==> RetriesValue(line).None?
  {
    if MatchStatusField(line).Some? { assert line[2] == "**Status**:"[2]; }
    if MatchLastRunField(line).Some? { assert line[2] == "**Last Run**:"[2]; }
    if MatchNotesField(line).Some? { assert line[2] == "**Notes**:"[2]; }
  }

  lemma LastCaptureSnoc<T>(lines: seq<string>, line: string, f: string -> Option<T>)
    ensures LastCapture(lines + [line], f) == if f(line).Some? then f(line) else LastCapture(lines, f)
  {
    assert (lines + [line])[..|lines|] == lines;
  }

  /** Appending a body line to a block updates its record as the parser does. */
  lemma BlockRecordSnoc(base: StepNotes, fields: seq<string>, line: string)
    ensures BlockRecord(base, fields + [line]) == FieldUpdate(BlockRecord(base, fields), line)
  {
    LastCaptureSnoc(fields, line, MatchStatusField);
    LastCaptureSnoc(fields, line, MatchLastRunField);
    LastCaptureSnoc(fields, line, MatchNotesField);
    LastCaptureSnoc(fields, line, RetriesValue);
    FieldsDisjoint(line);
  }

  lemma HeaderIsNoOtherLine(line: string)
    requires MatchNotesHeader(line).Some?
    ensures MatchProjectName(line).None? && !IsContextHeader(line) && !IsSectionHeader(line)
    ensures !IsStepLine(line)
  {
    assert line[..3] == "###";
    assert line[1] == '#' && line[2] == '#';
    assert SkipSpaces(line, 1) == 1 && SkipSpaces(line, 2) == 2;
  }

  /** The annotation part of the scan: the records, the open block's number
      and whether a block is open. */
  datatype NoteState = NoteState(notesMap: map<nat, StepNotes>, current: nat, open: bool)

  function NotesOf(s: Scan): NoteState {
    NoteState(s.notesMap, s.currentNoteStep, s.inNotesSection)
  }

  /** What a line the annotation checks see does to the annotation part: a
      header opens its block, a `#` line closes the open one, and any other
      line updates the open block's record. */
  function NoteStep(t: NoteState, line: string): NoteState
    requires t.current > 0 ==> t.current in t.notesMap
  {
    match MatchNotesHeader(line)
    case Some(d) =>
      var n := ParseStepNumber(d);
      NoteState(t.notesMap[n := Base(t.notesMap, n)], n, true)
    case None =>
      if t.open && t.current > 0 then
        if HasPrefix(line, "#") then NoteState(t.notesMap, 0, false)
        else NoteState(t.notesMap[t.current := FieldUpdate(t.notesMap[t.current], line)], t.current, true)
      else t
  }

  /** The lines the annotation checks never see: titles, Context headers,
      lines collected into an open Context block, and step lines. */
  predicate PassesNotes(s: Scan, line: string) {
    MatchProjectName(line).Some? || IsContextHeader(line) ||
    (s.inContextSection && !IsSectionHeader(line)) || IsStepLine(line)
  }

  lemma FeedNotesStep(s: Scan, line: string)
    requires ScanInv(s)
    ensures NotesOf(FeedNotes(s, line)) == NoteStep(NotesOf(s), line)
  {
    if MatchNotesHeader(line).Some? {
      FeedNotesHeader(s, line);
    } else if s.inNotesSection && s.currentNoteStep > 0 {
      if HasPrefix(line, "#") {
        FeedNotesClose(s, line);
      } else {
        FeedNotesField(s, line);
      }
    }
  }

  lemma FeedNotesHeader(s: Scan, line: string)
    requires ScanInv(s) && MatchNotesHeader(line).Some?
    ensures NotesOf(FeedNotes(s, line)) == NoteStep(NotesOf(s), line)
  {
    var n := ParseStepNumber(MatchNotesHeader(line).value);
    if n in s.notesMap {
      assert s.notesMap[n := s.notesMap[n]] == s.notesMap;
    }
  }

  lemma FeedNotesClose(s: Scan, line: string)
    requires ScanInv(s) && MatchNotesHeader(line).None? && s.inNotesSection && s.currentNoteStep > 0
    requires HasPrefix(line, "#")
    ensures NotesOf(FeedNotes(s, line)) == NoteStep(NotesOf(s), line)
  {
    assert line[0] == '#';
    assert MatchStatusField(line).None? && MatchLastRunField(line).None?;
    assert MatchNotesField(line).None? && MatchRetriesField(line).None?;
  }

  lemma FeedNotesField(s: Scan, line: string)
    requires ScanInv(s) && MatchNotesHeader(line).None? && s.inNotesSection && s.currentNoteStep > 0
    requires !HasPrefix(line, "#")
    ensures NotesOf(FeedNotes(s, line)) == NoteStep(NotesOf(s), line)
  {
    var c := s.currentNoteStep;
    assert s.notesMap[c := s.notesMap[c]] == s.notesMap;
    FieldsDisjoint(line);
  }

  /** One iteration of the scanning loop, seen from the annotation part. */
  lemma FeedNoteStep(s: Scan, line: string)
    requires ScanInv(s)
    ensures NotesOf(Feed(s, line)) == if PassesNotes(s, line) then NotesOf(s) else NoteStep(NotesOf(s), line)
  {
    if !PassesNotes(s, line) {
      if s.inContextSection {
        var t := s.(context := TrimSpace(Join(s.contextLines, '\n')), inContextSection := false, contextLines := []);
        FeedNotesStep(t, line);
      } else {
        FeedNotesStep(s, line);
      }
    }
  }

  /** The annotation part of the scan after `lines`, stated without the
      rest of the scan: the Context flag is ContextOpenAfter. */
  function NoteFold(lines: seq<string>): (t: NoteState)
    ensures t.current > 0 ==> t.current in t.notesMap
  {
    if |lines| == 0 then NoteState(map[], 0, false)
    else
      var init := lines[..|lines| - 1];
      var line := lines[|lines| - 1];
      var t := NoteFold(init);
      if PassesNotesAfter(init, line) then t else NoteStep(t, line)
  }

  predicate PassesNotesAfter(init: seq<string>, line: string) {
    MatchProjectName(line).Some? || IsContextHeader(line) ||
    (ContextOpenAfter(init) && !IsSectionHeader(line)) || IsStepLine(line)
  }

  /** The scan's annotation part is NoteFold. */
  lemma {:induction false} NotesFold(lines: seq<string>)
    ensures NotesOf(ScanAll(lines)) == NoteFold(lines)
  {
    if |lines| > 0 {
      var init := lines[..|lines| - 1];
      NotesFold(init);
      ScanAllLast(lines);
      ContextFlagTracks(init);
      FeedNoteStep(ScanAll(init), lines[|lines| - 1]);
    }
  }

  lemma NoteFoldSnoc(init: seq<string>, line: string)
    ensures NoteFold(init + [line]) == if PassesNotesAfter(init, line) then NoteFold(init) else NoteStep(NoteFold(init), line)
  {
    assert (init + [line])[..|init|] == init;
  }

  lemma ContextOpenSnoc(init: seq<string>, line: string)
    ensures ContextOpenAfter(init + [line]) ==
      if MatchProjectName(line).Some? then ContextOpenAfter(init)
      else if IsContextHeader(line) then true
      else if IsSectionHeader(line) then false
      else ContextOpenAfter(init)
  {
    assert (init + [line])[..|init|] == init;
  }

  /** A line of a block body outside Context: seen by the annotation checks,
      no block header, and the Context block stays closed. */
  lemma BodyLineFacts(init: seq<string>, line: string)
    requires !ContextOpenAfter(init) && InBlock(line)
    ensures !PassesNotesAfter(init, line) && MatchNotesHeader(line).None?
    ensures !ContextOpenAfter(init + [line])
  {
    if |line| > 0 {
      NoHashNoHeader(line);
    }
    ContextOpenSnoc(init, line);
  }

  /** A block header outside Context: seen by the annotation checks, and the
      Context block stays closed. */
  lemma HeaderLineFacts(init: seq<string>, line: string)
    requires !ContextOpenAfter(init) && MatchNotesHeader(line).Some?
    ensures !PassesNotesAfter(init, line) && !ContextOpenAfter(init + [line])
  {
    HeaderIsNoOtherLine(line);
    ContextOpenSnoc(init, line);
  }

  /** A header for `n` opens the block of `n`, from the record it had. */
  lemma NoteStepHeader(t: NoteState, line: string, n: nat)
    requires t.current > 0 ==> t.current in t.notesMap
    requires HeaderFor(line, n)
    ensures NoteStep(t, line) == NoteState(t.notesMap[n := Base(t.notesMap, n)], n, true)
  {}

  /** A body line updates the record of the open block. */
  lemma NoteStepBody(t: NoteState, line: string)
    requires t.open && t.current > 0 && t.current in t.notesMap
    requires InBlock(line) && MatchNotesHeader(line).None?
    ensures NoteStep(t, line) == NoteState(t.notesMap[t.current := FieldUpdate(t.notesMap[t.current], line)], t.current, true)
  {}

  /** A line that is no header for `n` leaves the record of `n` while `n`'s
      block is not open, and does not open it. */
  lemma NoteStepKeeps(t: NoteState, line: string, n: nat)
    requires t.current > 0 ==> t.current in t.notesMap
    requires t.current != n && n > 0 && !HeaderFor(line, n)
    ensures var r := NoteStep(t, line);
      && r.current != n
      && (n in r.notesMap <==> n in t.notesMap) && (n in t.notesMap ==> r.notesMap[n] == t.notesMap[n])
  {}

  /** A line that ends the block of `n` leaves its record and moves off `n`. */
  lemma NoteStepEnds(t: NoteState, line: string, n: nat)
    requires t.open && t.current == n > 0 && n in t.notesMap
    requires EndsBlock(line, n)
    ensures var r := NoteStep(t, line);
      && r.current != n && n in r.notesMap && r.notesMap[n] == t.notesMap[n]
  {}

  /** A line ending a block outside Context is seen by the annotation checks. */
  lemma EndLineFacts(init: seq<string>, line: string, n: nat)
    requires !ContextOpenAfter(init) && EndsBlock(line, n)
    ensures !PassesNotesAfter(init, line)
  {
    if MatchNotesHeader(line).Some? {
      HeaderIsNoOtherLine(line);
    } else {
      assert line[0] == '#';
    }
  }

  // ----- whole documents -----

  /** A number has a record exactly when the document has a block for it. */
  lemma {:induction false} NotesKeys(lines: seq<string>, n: nat)
    ensures n in NoteFold(lines).notesMap <==> HasBlock(lines, n)
  {
    if |lines| > 0 {
      var init := lines[..|lines| - 1];
      var line := lines[|lines| - 1];
      NotesKeys(init, n);
      NoteFoldSnoc(init, line);
      assert init + [line] == lines;
      if MatchNotesHeader(line).Some? {
        HeaderIsNoOtherLine(line);
      }
      assert n in NoteFold(lines).notesMap <==> n in NoteFold(init).notesMap || BlockAt(lines, |lines| - 1, n);
      if HasBlock(init, n) {
        var i :| 0 <= i < |init| && BlockAt(init, i, n);
        assert lines[..i] == init[..i];
        assert BlockAt(lines, i, n);
      }
      if HasBlock(lines, n) {
        var i :| 0 <= i < |lines| && BlockAt(lines, i, n);
        if i < |init| {
          assert lines[..i] == init[..i];
          assert BlockAt(init, i, n);
        }
      }
    }
  }

  /** After a header for `n` and body lines, the block of `n` is open and
      its record is BlockRecord of the body; no other record changes. */
  lemma {:induction false} BlockScan(pre: seq<string>, header: string, fields: seq<string>, n: nat)
    requires !ContextOpenAfter(pre)
    requires HeaderFor(header, n) && n > 0
    requires forall k :: 0 <= k < |fields| ==> InBlock(fields[k])
    ensures var m := NoteFold(pre).notesMap;
      && NoteFold(pre + [header] + fields) == NoteState(m[n := BlockRecord(Base(m, n), fields)], n, true)
      && !ContextOpenAfter(pre + [header] + fields)
  {
    var m := NoteFold(pre).notesMap;
    var head := pre + [header];
    if |fields| == 0 {
      assert head + fields == head;
      HeaderLineFacts(pre, header);
      NoteFoldSnoc(pre, header);
      NoteStepHeader(NoteFold(pre), header, n);
    } else {
      var init := fields[..|fields| - 1];
      var line := fields[|fields| - 1];
      BlockScan(pre, header, init, n);
      var r := BlockRecord(Base(m, n), init);
      SplitLast(head, fields);
      BodyStep(head + init, line, n, m, r);
      BlockRecordSnoc(Base(m, n), init, line);
      assert init + [line] == fields;
    }
  }

  /** One body line of the open block of `n`. */
  lemma BodyStep(x: seq<string>, line: string, n: nat, m: map<nat, StepNotes>, r: StepNotes)
    requires !ContextOpenAfter(x) && NoteFold(x) == NoteState(m[n := r], n, true) && n > 0
    requires InBlock(line)
    ensures NoteFold(x + [line]) == NoteState(m[n := FieldUpdate(r, line)], n, true)
    ensures !ContextOpenAfter(x + [line])
  {
    BodyLineFacts(x, line);
    NoteFoldSnoc(x, line);
    NoteStepBody(NoteFold(x), line);
    var m1: map<nat, StepNotes> := m[n := r];
    assert m1[n := FieldUpdate(r, line)] == m[n := FieldUpdate(r, line)];
  }

  /** Lines with no header for `n` keep the record of `n` once its block is closed. */
  lemma {:induction false} RecordKept(p: seq<string>, post: seq<string>, n: nat)
    requires NoteFold(p).current != n && n > 0
    requires forall k :: 0 <= k < |post| ==> !HeaderFor(post[k], n)
    ensures var r := NoteFold(p + post); var s := NoteFold(p);
      && r.current != n
      && (n in r.notesMap <==> n in s.notesMap) && (n in s.notesMap ==> r.notesMap[n] == s.notesMap[n])
  {
    if |post| > 0 {
      var init := post[..|post| - 1];
      var line := post[|post| - 1];
      RecordKept(p, init, n);
      assert p + post == (p + init) + [line] by {
        assert post == init + [line];
      }
      assert !HeaderFor(line, n);
      NoteFoldSnoc(p + init, line);
      if !PassesNotesAfter(p + init, line) {
        NoteStepKeeps(NoteFold(p + init), line, n);
      }
    } else {
      assert p + post == p;
    }
  }

  /** BlockOfDocument, for the annotation part. */
  lemma BlockInFold(pre: seq<string>, header: string, fields: seq<string>, post: seq<string>, n: nat)
    requires !ContextOpenAfter(pre)
    requires HeaderFor(header, n) && n > 0
    requires forall k :: 0 <= k < |fields| ==> InBlock(fields[k])
    requires |post| == 0 || EndsBlock(post[0], n)
    requires forall k :: 0 <= k < |post| ==> !HeaderFor(post[k], n)
    ensures var m := NoteFold(pre + [header] + fields + post).notesMap;
      n in m && m[n] == BlockRecord(Base(NoteFold(pre).notesMap, n), fields)
  {
    var block := pre + [header] + fields;
    BlockScan(pre, header, fields, n);
    if |post| == 0 {
      assert block + post == block;
    } else {
      AfterBlock(block, post, n);
    }
  }

  lemma SplitLast(a: seq<string>, b: seq<string>)
    requires |b| > 0
    ensures a + b == a + b[..|b| - 1] + [b[|b| - 1]]
  {
    assert b == b[..|b| - 1] + [b[|b| - 1]];
  }

  lemma SplitFirst(a: seq<string>, b: seq<string>)
    requires |b| > 0
    ensures a + [b[0]] + b[1..] == a + b
  {
    assert b == [b[0]] + b[1..];
  }

  /** After the end of the open block of `n`, lines with no header for `n`
      keep its record. */
  lemma AfterBlock(block: seq<string>, post: seq<string>, n: nat)
    requires !ContextOpenAfter(block)
    requires NoteFold(block).open && NoteFold(block).current == n > 0 && n in NoteFold(block).notesMap
    requires |post| > 0 && EndsBlock(post[0], n)
    requires forall k :: 0 <= k < |post| ==> !HeaderFor(post[k], n)
    ensures n in NoteFold(block + post).notesMap && NoteFold(block + post).notesMap[n] == NoteFold(block).notesMap[n]
  {
    var line := post[0];
    var closed := block + [line];
    assert NoteFold(closed).current != n && n in NoteFold(closed).notesMap && NoteFold(closed).notesMap[n] == NoteFold(block).notesMap[n] by {
      NoteFoldSnoc(block, line);
      EndLineFacts(block, line, n);
      NoteStepEnds(NoteFold(block), line, n);
    }
    var rest := post[1..];
    assert forall k :: 0 <= k < |rest| ==> !HeaderFor(rest[k], n) by {
      forall k | 0 <= k < |rest| ensures !HeaderFor(rest[k], n) {
        assert rest[k] == post[k + 1];
      }
    }
    RecordKept(closed, rest, n);
    SplitFirst(block, post);
  }

  /** A document's block for step `n`: after the header come body lines,
      then the end of the document or a line that ends the block, and no
      later header for `n`. The record of `n` is then BlockRecord of the
      body lines: the last Status, Last Run, Notes and in-range Retries
      line each set their field. */
  lemma BlockOfDocument(pre: seq<string>, header: string, fields: seq<string>, post: seq<string>, n: nat)
    requires !ContextOpenAfter(pre)
    requires HeaderFor(header, n) && n > 0
    requires forall k :: 0 <= k < |fields| ==> InBlock(fields[k])
    requires |post| == 0 || EndsBlock(post[0], n)
    requires forall k :: 0 <= k < |post| ==> !HeaderFor(post[k], n)
    ensures var m := ScanAll(pre + [header] + fields + post).notesMap;
      n in m && m[n] == BlockRecord(Base(ScanAll(pre).notesMap, n), fields)
  {
    NotesFold(pre);
    NotesFold(pre + [header] + fields + post);
    BlockInFold(pre, header, fields, post, n);
  }

  /** NotesKeys, for the scan. */
  lemma RecordKeys(lines: seq<string>, n: nat)
    ensures n in ScanAll(lines).notesMap <==> HasBlock(lines, n)
  {
    NotesFold(lines);
    NotesKeys(lines, n);
  }

  /** No header for `n` anywhere: no record for `n`. */
  lemma NoHeaderNoRecord(lines: seq<string>, n: nat)
    requires forall k :: 0 <= k < |lines| ==> !HeaderFor(lines[k], n)
    ensures n !in ScanAll(lines).notesMap
  {
    NotesFold(lines);
    NotesKeys(lines, n);
  }

  /** What each step of the parsed plan takes from the annotation blocks: a
      step with a block gets its record's retry count, its Notes unless they
      read `(none)`, and its Last Run when that is a timestamp; a step
      without a block keeps retry count 0, no Last Run and empty notes. A
      step reads only the record of its own number, so a block whose number
      is no step's contributes nothing, and blocks never add steps. */
  lemma StepAnnotations(content: string)
    ensures |PlanOf(content).steps| == |CountedStepLines(ScanLines(content))|
    ensures forall k :: 0 <= k < |PlanOf(content).steps| ==> StepAnnotated(content, k)
  {
    var lines := ScanLines(content);
    forall k | 0 <= k < |PlanOf(content).steps|
      ensures StepAnnotated(content, k)
    {
      StepAnnotation(content, k);
    }
    StatusFromCheckboxOnly(content);
  }

  /** What step index `k` of the parsed plan takes from the annotation
      blocks: with a block for its number, the record's retry count, its
      Notes unless they read `(none)`, and its Last Run when that is a
      timestamp; without one, retry count 0, no Last Run and empty notes. */
  predicate StepAnnotated(content: string, k: nat)
    requires k < |PlanOf(content).steps|
  {
    var lines := ScanLines(content); var step := PlanOf(content).steps[k]; var m := ScanAll(lines).notesMap;
    if HasBlock(lines, k + 1) then
      && (k + 1) in m
      && step.retryCount == m[k + 1].retryCount
      && step.notes == (if m[k + 1].notes == "(none)" then "" else m[k + 1].notes)
      && step.lastRun == (if m[k + 1].lastRun != "" && m[k + 1].lastRun != "N/A" && IsTimestamp(m[k + 1].lastRun)
                          then Some(m[k + 1].lastRun) else None)
    else step.retryCount == 0 && step.lastRun.None? && step.notes == ""
  }

  lemma StepAnnotation(content: string, k: nat)
    requires k < |PlanOf(content).steps|
    ensures StepAnnotated(content, k)
  {
    var lines := ScanLines(content);
    var scan := ScanAll(lines);
    FreshSteps(lines, k);
    RecordKeys(lines, k + 1);
    assert PlanOf(content).steps[k] == MergeNotes(scan.steps[k], scan.notesMap);
  }

  /** The steps of the scan, before the records are merged, carry their
      position as number and no annotation. */
  lemma FreshSteps(lines: seq<string>, k: nat)
    requires k < |ScanAll(lines).steps|
    ensures var step := ScanAll(lines).steps[k];
      step.number == k + 1 && step.retryCount == 0 && step.lastRun.None? && step.notes == ""
  {
    StepsFromStepLines(lines);
  }

  /** The three fields the loop reads back, for step `n` whose only block
      is the one BlockOfDocument describes: the retry count of the last
      in-range Retries line (0 when there is none), the last Notes value
      unless it is `(none)`, and the last Last Run value when it is a
      timestamp. */
  lemma StepFromBlock(content: string, pre: seq<string>, header: string, fields: seq<string>, post: seq<string>, n: nat)
    requires ScanLines(content) == pre + [header] + fields + post
    requires !ContextOpenAfter(pre)
    requires HeaderFor(header, n) && 0 < n <= |PlanOf(content).steps|
    requires forall k :: 0 <= k < |pre| ==> !HeaderFor(pre[k], n)
    requires forall k :: 0 <= k < |fields| ==> InBlock(fields[k])
    requires |post| == 0 || EndsBlock(post[0], n)
    requires forall k :: 0 <= k < |post| ==> !HeaderFor(post[k], n)
    ensures var step := PlanOf(content).steps[n - 1];
      && step.retryCount == GetOr(LastCapture(fields, RetriesValue), 0)
      && step.notes == (match LastCapture(fields, MatchNotesField)
                        case Some(v) => if v == "(none)" then "" else v
                        case None => "")
      && step.lastRun == (match LastCapture(fields, MatchLastRunField)
                          case Some(v) => if v != "N/A" && IsTimestamp(v) then Some(v) else None
                          case None => None)
  {
    var lines := ScanLines(content);
    BlockOfDocument(pre, header, fields, post, n);
    NoHeaderNoRecord(pre, n);
    StepsFromStepLines(lines);
    assert PlanOf(content).steps[n - 1].number == n;
  }

  /** A Retries line holding the decimal text of `c` sets the count to `c`
      when it fits in an int, and is ignored otherwise. */
  lemma RetriesLineValue(c: nat)
    ensures RetriesValue("**Retries**: " + NatToString(c)) == if c <= MaxInt then Some(c) else None
  {
    var d := NatToString(c);
    var l := "**Retries**: " + d;
    assert l[..12] == "**Retries**:";
    assert IsDigit(l[13]);
    SkipSpacesAt(l, 12, 13);
    assert l[13..] == d;
    DigitsValueOfNatToString(c);
  }
}
