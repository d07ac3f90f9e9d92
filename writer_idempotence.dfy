/** A second updateStepInContent (internal/plan/writer.go) with the same
    arguments leaves the text as the first one made it, when the step's
    annotation block already existed or when the plan had no block at all.
    Both cases rest on one fixpoint fact: text whose target step line and
    target block fields already hold what would be written is not changed. */
module WriterIdempotence {
  import opened Text
  import opened Grammar
  import opened PlanModel
  import Parser
  import opened Writer
  import opened WriterLemmas

  /** No element holds a newline. */
  predicate OneLine(lines: seq<string>) {
    forall i :: 0 <= i < |lines| ==> '\n' !in lines[i]
  }

  /** The two lists have lines the grammars classify alike, position by position. */
  predicate SameShape(a: seq<string>, b: seq<string>) {
    |a| == |b| &&
    forall i :: 0 <= i < |a| ==>
      && MatchNotesHeader(a[i]) == MatchNotesHeader(b[i])
      && IsStepLine(a[i]) == IsStepLine(b[i])
      && HasPrefix(a[i], "### Step") == HasPrefix(b[i], "### Step")
  }

  /** Lines of the same shape have the same block headers and step lines
      before every position. */
  lemma {:induction false} SameShapePrefix(a: seq<string>, b: seq<string>, n: nat, stepNum: int)
    requires SameShape(a, b) && n <= |a|
    ensures LastHeader(a[..n]) == LastHeader(b[..n])
    ensures HasHeaderFor(a[..n], stepNum) == HasHeaderFor(b[..n], stepNum)
    ensures StepLinesIn(a[..n]) == StepLinesIn(b[..n])
  {
    if n > 0 {
      SameShapePrefix(a, b, n - 1, stepNum);
      LastHeaderStep(a, n - 1);
      LastHeaderStep(b, n - 1);
      HasHeaderForStep(a, n - 1, stepNum);
      HasHeaderForStep(b, n - 1, stepNum);
      StepLinesStep(a, n - 1);
      StepLinesStep(b, n - 1);
    }
  }

  lemma SameShapeNoPanic(a: seq<string>, b: seq<string>)
    requires SameShape(a, b) && NoPanic(b)
    ensures NoPanic(a)
  {
    forall i | 0 <= i < |a| && HasPrefix(a[i], "### Step") && LastHeader(a[..i]).Some?
      ensures IsNotesHeader(a[i])
    {
      SameShapePrefix(a, b, i, 0);
    }
  }

  /** A line starting with `*` is neither a block header nor a step line. */
  lemma StarLine(x: string)
    requires |x| > 0 && x[0] == '*'
    ensures MatchNotesHeader(x).None? && !IsStepLine(x) && !HasPrefix(x, "### Step")
  {
    NoHashNoHeader(x);
  }

  /** A line that is not a field is left alone by the field rewrite. */
  lemma NonFieldKept(x: string, result: StepResult, now: string)
    requires |x| > 0 && x[0] != '*'
    ensures RewriteField(x, result, now) == x
  {}

  lemma CheckboxPassShape(lines: seq<string>, stepNum: int, m: char)
    requires IsBoxMark(m) && m != ' '
    ensures SameShape(CheckboxPass(lines, stepNum, m), lines)
  {
    var p := CheckboxPass(lines, stepNum, m);
    forall i | 0 <= i < |lines|
      ensures MatchNotesHeader(p[i]) == MatchNotesHeader(lines[i])
      ensures IsStepLine(p[i]) == IsStepLine(lines[i])
      ensures HasPrefix(p[i], "### Step") == HasPrefix(lines[i], "### Step")
    {
      CheckboxLineShape(lines, i, stepNum, m);
      if IsTargetStepLine(lines, i, stepNum) {
        UpdateCheckboxStepLine(lines[i], m);
      }
    }
  }

  /** The field rewrite turns field lines into field lines and keeps the rest. */
  lemma RewriteFieldShape(x: string, result: StepResult, now: string)
    ensures var y := RewriteField(x, result, now);
      && MatchNotesHeader(y) == MatchNotesHeader(x)
      && IsStepLine(y) == IsStepLine(x)
      && HasPrefix(y, "### Step") == HasPrefix(x, "### Step")
  {
    var y := RewriteField(x, result, now);
    if y != x {
      assert x[0] == '*';
      assert y[0] == '*';
      StarLine(x);
      StarLine(y);
    }
  }

  lemma NotesPassShape(lines: seq<string>, stepNum: int, result: StepResult, now: string)
    ensures SameShape(NotesPass(lines, stepNum, result, now), lines)
  {
    forall i | 0 <= i < |lines| {
      RewriteFieldShape(lines[i], result, now);
    }
  }

  lemma UpdateCheckboxKeepsOut(s: string, m: char, c: char)
    requires c !in s && c != m
    ensures c !in UpdateCheckbox(s, m)
  {
    UpdateCheckboxPointwise(s, m);
  }

  lemma CheckboxPassOneLine(lines: seq<string>, stepNum: int, m: char)
    requires OneLine(lines) && m != '\n'
    ensures OneLine(CheckboxPass(lines, stepNum, m))
  {
    forall i | 0 <= i < |lines| ensures '\n' !in CheckboxPass(lines, stepNum, m)[i] {
      UpdateCheckboxKeepsOut(lines[i], m, '\n');
    }
  }

  /** The Notes text is one line when the failure reason is. */
  lemma NotesTextOneLine(result: StepResult)
    requires '\n' !in result.reason
    ensures '\n' !in NotesText(result)
  {
    if result.success || result.reason == "" {
      SummarizeOutputOneLine(result.output);
    }
  }

  /** Every field text written for a result is one line. */
  lemma FieldsOneLine(result: StepResult, now: string)
    requires '\n' !in now && '\n' !in result.reason
    ensures '\n' !in "**Status**: " + StatusWord(result)
    ensures '\n' !in "**Last Run**: " + now
    ensures '\n' !in "**Notes**: " + NotesText(result)
  {
    NotesTextOneLine(result);
    TagOneLine("**Status**: ");
    TagOneLine("**Last Run**: ");
    TagOneLine("**Notes**: ");
    TagOneLine(StatusWord(result));
    LabelOneLine("**Status**: ", StatusWord(result));
    LabelOneLine("**Last Run**: ", now);
    LabelOneLine("**Notes**: ", NotesText(result));
  }

  lemma TagOneLine(tag: string)
    requires tag in {"**Status**: ", "**Last Run**: ", "**Notes**: ", "completed", "failed"}
    ensures forall k :: 0 <= k < |tag| ==> tag[k] != '\n'
  {}

  /** A field label followed by a one-line value is one line. */
  lemma LabelOneLine(tag: string, value: string)
    requires forall k :: 0 <= k < |tag| ==> tag[k] != '\n'
    requires forall k :: 0 <= k < |value| ==> value[k] != '\n'
    ensures '\n' !in tag + value
  {
    forall k | 0 <= k < |tag| + |value|
      ensures (tag + value)[k] != '\n'
    {
      if k < |tag| {
        assert (tag + value)[k] == tag[k];
      } else {
        assert (tag + value)[k] == value[k - |tag|];
      }
    }
  }

  lemma NotesPassOneLine(lines: seq<string>, stepNum: int, result: StepResult, now: string)
    requires OneLine(lines) && '\n' !in now && '\n' !in result.reason
    ensures OneLine(NotesPass(lines, stepNum, result, now))
  {
    FieldsOneLine(result, now);
  }

  /** A header for the step is a header. */
  lemma {:induction false} HeaderForIsHeader(lines: seq<string>, stepNum: int)
    requires HasHeaderFor(lines, stepNum)
    ensures LastHeader(lines).Some?
  {
    var n := |lines|;
    if MatchNotesHeader(lines[n - 1]).None? {
      HeaderForIsHeader(lines[..n - 1], stepNum);
    }
  }

  /** A header for the step at index `h` makes HasHeaderFor hold. */
  lemma {:induction false} HeaderAt(lines: seq<string>, h: nat, stepNum: int)
    requires h < |lines| && MatchNotesHeader(lines[h]).Some?
    requires Parser.ParseStepNumber(MatchNotesHeader(lines[h]).value) == stepNum
    ensures HasHeaderFor(lines, stepNum)
  {
    var n := |lines|;
    if h < n - 1 {
      assert lines[..n - 1][h] == lines[h];
      HeaderAt(lines[..n - 1], h, stepNum);
    }
  }

  /** Without any header, no prefix has one. */
  lemma {:induction false} NoHeaderPrefixes(lines: seq<string>, n: nat)
    requires LastHeader(lines).None? && n <= |lines|
    ensures LastHeader(lines[..n]).None?
    decreases |lines|
  {
    if n < |lines| {
      var k := |lines| - 1;
      assert lines[..k][..n] == lines[..n];
      NoHeaderPrefixes(lines[..k], n);
    } else {
      assert lines[..n] == lines;
    }
  }

  /** The fixpoint: when the target step line already carries the marker and
      every field of the target block already holds its new value, the update
      returns the lines it was given. */
  lemma FixedPoint(lines: seq<string>, stepNum: int, result: StepResult, now: string)
    requires |lines| >= 1 && OneLine(lines)
    requires HasHeaderFor(lines, stepNum)
    requires forall i :: 0 <= i < |lines| && IsTargetStepLine(lines, i, stepNum) ==>
      UpdateCheckbox(lines[i], Marker(result)) == lines[i]
    requires forall i :: 0 <= i < |lines| && InTarget(lines[..i + 1], stepNum) ==>
      RewriteField(lines[i], result, now) == lines[i]
    ensures UpdatedLines(Join(lines, '\n'), stepNum, result, now) == lines
  {
    SplitJoin(lines, '\n');
    var p := CheckboxPass(lines, stepNum, Marker(result));
    assert p == lines;
    var o := NotesPass(p, stepNum, result, now);
    assert o == lines;
    HeaderForIsHeader(lines, stepNum);
  }

  /** The step line the first pass marked is left alone by a second run of
      both passes. */
  lemma MarkedLineFixed(lines: seq<string>, stepNum: int, result: StepResult, now: string, i: nat)
    requires i < |lines|
    requires var p := CheckboxPass(lines, stepNum, Marker(result));
      var o := NotesPass(p, stepNum, result, now);
      SameShape(p, lines) && SameShape(o, p) && IsTargetStepLine(o, i, stepNum)
    ensures var o := NotesPass(CheckboxPass(lines, stepNum, Marker(result)), stepNum, result, now);
      UpdateCheckbox(o[i], Marker(result)) == o[i]
  {
    var m := Marker(result);
    var p := CheckboxPass(lines, stepNum, m);
    var o := NotesPass(p, stepNum, result, now);
    SameShapePrefix(o, p, i, stepNum);
    SameShapePrefix(p, lines, i, stepNum);
    assert IsTargetStepLine(lines, i, stepNum);
    StepLineHasParts(p[i]);
    NonFieldKept(p[i], result, now);
    assert o[i] == p[i] == UpdateCheckbox(lines[i], m);
    UpdateCheckboxIdempotent(lines[i], m);
  }

  /** A field the second pass rewrote is left alone by a second rewrite. */
  lemma RewrittenFieldFixed(p: seq<string>, stepNum: int, result: StepResult, now: string, i: nat)
    requires i < |p|
    requires var o := NotesPass(p, stepNum, result, now);
      SameShape(o, p) && InTarget(o[..i + 1], stepNum)
    ensures var o := NotesPass(p, stepNum, result, now);
      RewriteField(o[i], result, now) == o[i]
  {
    var o := NotesPass(p, stepNum, result, now);
    SameShapePrefix(o, p, i + 1, stepNum);
    RewriteFieldIdempotent(p[i], result, now);
  }

  /** Both passes keep the shape of every line. */
  lemma PassesShape(lines: seq<string>, stepNum: int, result: StepResult, now: string)
    ensures var p := CheckboxPass(lines, stepNum, Marker(result));
      SameShape(p, lines) && SameShape(NotesPass(p, stepNum, result, now), p)
  {
    CheckboxPassShape(lines, stepNum, Marker(result));
    NotesPassShape(CheckboxPass(lines, stepNum, Marker(result)), stepNum, result, now);
  }

  /** Both passes keep every line a single line. */
  lemma PassesOneLine(lines: seq<string>, stepNum: int, result: StepResult, now: string)
    requires OneLine(lines) && '\n' !in now && '\n' !in result.reason
    ensures OneLine(NotesPass(CheckboxPass(lines, stepNum, Marker(result)), stepNum, result, now))
  {
    CheckboxPassOneLine(lines, stepNum, Marker(result));
    NotesPassOneLine(CheckboxPass(lines, stepNum, Marker(result)), stepNum, result, now);
  }

  /** Both passes keep the condition under which the second pass cannot panic. */
  lemma PassesNoPanic(lines: seq<string>, stepNum: int, result: StepResult, now: string)
    requires NoPanic(lines)
    ensures NoPanic(NotesPass(CheckboxPass(lines, stepNum, Marker(result)), stepNum, result, now))
  {
    var p := CheckboxPass(lines, stepNum, Marker(result));
    CheckboxPassNoPanic(lines, stepNum, Marker(result));
    NotesPassShape(p, stepNum, result, now);
    SameShapeNoPanic(NotesPass(p, stepNum, result, now), p);
  }

  /** Both passes keep the header of every block, the step's included. */
  lemma PassesHeaderFor(lines: seq<string>, stepNum: int, result: StepResult, now: string)
    requires HasHeaderFor(lines, stepNum)
    ensures HasHeaderFor(CheckboxPass(lines, stepNum, Marker(result)), stepNum)
    ensures HasHeaderFor(NotesPass(CheckboxPass(lines, stepNum, Marker(result)), stepNum, result, now), stepNum)
  {
    var p := CheckboxPass(lines, stepNum, Marker(result));
    PassesShape(lines, stepNum, result, now);
    SameShapeHeaderFor(p, lines, stepNum);
    SameShapeHeaderFor(NotesPass(p, stepNum, result, now), p, stepNum);
  }

  lemma SameShapeHeaderFor(a: seq<string>, b: seq<string>, stepNum: int)
    requires SameShape(a, b)
    ensures HasHeaderFor(a, stepNum) == HasHeaderFor(b, stepNum)
  {
    SameShapePrefix(a, b, |a|, stepNum);
    assert a[..|a|] == a && b[..|b|] == b;
  }

  /** A second update of a plan that had the step's block: the same text. */
  lemma IdempotentWhenBlockExists(content: string, stepNum: int, result: StepResult, now: string)
    requires NoPanic(Split(content, '\n'))
    requires HasHeaderFor(Split(content, '\n'), stepNum)
    requires '\n' !in now && '\n' !in result.reason
    ensures var once := Join(UpdatedLines(content, stepNum, result, now), '\n');
      && NoPanic(Split(once, '\n'))
      && Join(UpdatedLines(once, stepNum, result, now), '\n') == once
  {
    var lines := Split(content, '\n');
    SplitPieces(content, '\n');
    var o := NotesPass(CheckboxPass(lines, stepNum, Marker(result)), stepNum, result, now);
    HeaderForIsHeader(lines, stepNum);
    PassesHeaderFor(lines, stepNum, result, now);
    UpdatedLinesWhenFound(content, stepNum, result, now);
    PassesOneLine(lines, stepNum, result, now);
    PassesNoPanic(lines, stepNum, result, now);
    PassesShape(lines, stepNum, result, now);
    SplitJoin(o, '\n');
    PassesFixed(lines, stepNum, result, now);
  }

  /** The lines both passes produced are a fixpoint of the update. */
  lemma PassesFixed(lines: seq<string>, stepNum: int, result: StepResult, now: string)
    requires var p := CheckboxPass(lines, stepNum, Marker(result));
      var o := NotesPass(p, stepNum, result, now);
      |o| >= 1 && OneLine(o) && HasHeaderFor(o, stepNum) && SameShape(p, lines) && SameShape(o, p)
    ensures var o := NotesPass(CheckboxPass(lines, stepNum, Marker(result)), stepNum, result, now);
      UpdatedLines(Join(o, '\n'), stepNum, result, now) == o
  {
    var m := Marker(result);
    var p := CheckboxPass(lines, stepNum, m);
    var o := NotesPass(p, stepNum, result, now);
    forall i | 0 <= i < |o| && IsTargetStepLine(o, i, stepNum)
      ensures UpdateCheckbox(o[i], m) == o[i]
    {
      MarkedLineFixed(lines, stepNum, result, now, i);
    }
    forall i | 0 <= i < |o| && InTarget(o[..i + 1], stepNum)
      ensures RewriteField(o[i], result, now) == o[i]
    {
      RewrittenFieldFixed(p, stepNum, result, now, i);
    }
    FixedPoint(o, stepNum, result, now);
  }

  /** The four lines of a new block. */
  function BlockLines(stepNum: NonNegInt, result: StepResult, now: string): seq<string> {
    ["### Step " + NatToString(stepNum), "**Status**: " + StatusWord(result),
     "**Last Run**: " + now, "**Notes**: " + NotesText(result)]
  }

  lemma BlockJoin(stepNum: NonNegInt, result: StepResult, now: string)
    ensures CreateNotesSection(stepNum, result, now) == Join(BlockLines(stepNum, result, now), '\n')
  {
    var b := BlockLines(stepNum, result, now);
    assert b[2..][1..] == [b[3]];
    assert Join(b[2..], '\n') == b[2] + "\n" + b[3];
    assert b[1..][1..] == b[2..];
    assert Join(b[1..], '\n') == b[1] + "\n" + (b[2] + "\n" + b[3]);
    assert Join(b, '\n') == b[0] + "\n" + (b[1] + "\n" + (b[2] + "\n" + b[3]));
    assert IntToString(stepNum) == NatToString(stepNum);
    BlockAssoc(NatToString(stepNum), StatusWord(result), now, NotesText(result));
  }

  /** The new block, split into lines as the parser reads the file, is its
      four lines: header, Status, Last Run and Notes. */
  lemma CreateNotesSectionLines(stepNum: NonNegInt, result: StepResult, now: string)
    requires '\n' !in now && '\n' !in result.reason
    ensures Split(CreateNotesSection(stepNum, result, now), '\n') == BlockLines(stepNum, result, now)
  {
    BlockJoin(stepNum, result, now);
    TailOneLine(stepNum, result, now);
    assert forall k :: 0 <= k < 4 ==> BlockLines(stepNum, result, now)[k] == Tail(stepNum, result, now)[k + 3];
    SplitJoin(BlockLines(stepNum, result, now), '\n');
  }

  lemma BlockAssoc(h: string, s: string, l: string, n: string)
    ensures "### Step " + h + "\n**Status**: " + s + "\n**Last Run**: " + l + "\n**Notes**: " + n ==
      ("### Step " + h) + "\n" + (("**Status**: " + s) + "\n" + (("**Last Run**: " + l) + "\n" + ("**Notes**: " + n)))
  {
    var x1 := "### Step " + h + "\n**Status**: " + s;
    assert x1 == ("### Step " + h) + "\n" + ("**Status**: " + s) by {
      assert "\n**Status**: " == "\n" + "**Status**: ";
    }
    var x2 := x1 + "\n**Last Run**: " + l;
    assert x2 == x1 + "\n" + ("**Last Run**: " + l) by {
      assert "\n**Last Run**: " == "\n" + "**Last Run**: ";
    }
    assert x2 + "\n**Notes**: " + n == x2 + "\n" + ("**Notes**: " + n) by {
      assert "\n**Notes**: " == "\n" + "**Notes**: ";
    }
  }

  /** The lines a plan without blocks gets at its end, once the text is split again. */
  function Tail(stepNum: NonNegInt, result: StepResult, now: string): seq<string> {
    ["", "## Notes", ""] + BlockLines(stepNum, result, now)
  }

  /** The separator lines written before a new section. */
  lemma SectionLinesInert(result: StepResult, now: string)
    ensures !IsStepLine("") && RewriteField("", result, now) == ""
    ensures MatchNotesHeader("").None? && !HasPrefix("", "### Step")
    ensures !IsStepLine("## Notes") && RewriteField("## Notes", result, now) == "## Notes"
    ensures MatchNotesHeader("## Notes").None? && !HasPrefix("## Notes", "### Step")
  {
    var s := "## Notes";
    assert s[..3] != "###" by { assert s[..3][2] == ' '; }
    assert s[..8] != "### Step" by { assert s[..8][2] == ' '; }
    NonFieldKept(s, result, now);
  }

  /** Line by line, the appended lines are no step lines, only the fourth is
      a block header (for the step), and the field rewrite keeps them all. */
  lemma TailFacts(stepNum: NonNegInt, result: StepResult, now: string)
    ensures var t := Tail(stepNum, result, now);
      && |t| == 7
      && (forall k :: 0 <= k < 7 ==> !IsStepLine(t[k]) && RewriteField(t[k], result, now) == t[k])
      && (forall k :: 0 <= k < 7 && k != 3 ==> MatchNotesHeader(t[k]).None? && !HasPrefix(t[k], "### Step"))
      && MatchNotesHeader(t[3]) == Some(NatToString(stepNum))
      && Parser.ParseStepNumber(NatToString(stepNum)) == stepNum
  {
    var t := Tail(stepNum, result, now);
    forall k | 0 <= k < 7
      ensures !IsStepLine(t[k]) && RewriteField(t[k], result, now) == t[k]
      ensures k != 3 ==> MatchNotesHeader(t[k]).None? && !HasPrefix(t[k], "### Step")
    {
      if k < 3 {
        SectionLinesInert(result, now);
      } else if k == 3 {
        NonFieldKept(t[3], result, now);
        StarOrHashLine(t[3]);
      } else {
        StarLine(t[k]);
        if k == 4 {
          StatusOutputFixed(result, now);
        } else if k == 5 {
          LastRunOutputFixed(result, now);
        } else {
          NotesOutputFixed(result, now);
        }
      }
    }
    Parser.BlockHeaderMatches(stepNum);
  }

  lemma TailOneLine(stepNum: NonNegInt, result: StepResult, now: string)
    requires '\n' !in now && '\n' !in result.reason
    ensures OneLine(Tail(stepNum, result, now))
  {
    FieldsOneLine(result, now);
  }

  /** The new section joins to the same text as the appended lines. */
  lemma SectionJoin(p: seq<string>, stepNum: NonNegInt, result: StepResult, now: string)
    ensures Join(p + ["", "## Notes", "", CreateNotesSection(stepNum, result, now)], '\n') ==
      Join(p + Tail(stepNum, result, now), '\n')
  {
    var a := p + ["", "## Notes", ""];
    var b := BlockLines(stepNum, result, now);
    assert p + ["", "## Notes", "", CreateNotesSection(stepNum, result, now)] == a + [CreateNotesSection(stepNum, result, now)];
    assert p + Tail(stepNum, result, now) == a + b;
    BlockJoin(stepNum, result, now);
    JoinAppend(a, [CreateNotesSection(stepNum, result, now)], '\n');
    JoinAppend(a, b, '\n');
  }

  /** In a plan without blocks the second pass changes nothing. */
  lemma FirstUpdateNoBlocks(lines: seq<string>, stepNum: NonNegInt, result: StepResult, now: string)
    requires LastHeader(lines).None?
    ensures var p := CheckboxPass(lines, stepNum, Marker(result));
      NotesPass(p, stepNum, result, now) == p && SameShape(p, lines)
  {
    var m := Marker(result);
    var p := CheckboxPass(lines, stepNum, m);
    CheckboxPassShape(lines, stepNum, m);
    forall i | 0 <= i < |p| ensures NoHeaderThrough(p, i) {
      SameShapePrefix(p, lines, i + 1, stepNum);
      NoHeaderPrefixes(lines, i + 1);
    }
    NoHeadersNoRewrite(p, stepNum, result, now);
  }

  /** No block header occurs up to and including line `i`. */
  predicate NoHeaderThrough(p: seq<string>, i: nat)
    requires i < |p|
  {
    LastHeader(p[..i + 1]).None?
  }

  lemma NoHeadersNoRewrite(p: seq<string>, stepNum: int, result: StepResult, now: string)
    requires forall i :: 0 <= i < |p| ==> NoHeaderThrough(p, i)
    ensures NotesPass(p, stepNum, result, now) == p
  {
    var o := NotesPass(p, stepNum, result, now);
    forall i | 0 <= i < |p| ensures o[i] == p[i] {
      assert NoHeaderThrough(p, i);
      assert !InTarget(p[..i + 1], stepNum);
    }
  }

  /** The lines after the first pass and the appended ones are single lines. */
  lemma AppendedOneLine(lines: seq<string>, stepNum: NonNegInt, result: StepResult, now: string)
    requires OneLine(lines) && '\n' !in now && '\n' !in result.reason
    ensures OneLine(CheckboxPass(lines, stepNum, Marker(result)) + Tail(stepNum, result, now))
  {
    var p := CheckboxPass(lines, stepNum, Marker(result));
    var t := Tail(stepNum, result, now);
    CheckboxPassOneLine(lines, stepNum, Marker(result));
    TailOneLine(stepNum, result, now);
    forall i | 0 <= i < |p + t| ensures '\n' !in (p + t)[i] {
      if i >= |p| { assert (p + t)[i] == t[i - |p|]; }
    }
  }

  /** A second update of a plan that had no block at all: the same text. */
  lemma IdempotentWhenNoBlocks(content: string, stepNum: NonNegInt, result: StepResult, now: string)
    requires LastHeader(Split(content, '\n')).None?
    requires '\n' !in now && '\n' !in result.reason
    ensures var once := Join(UpdatedLines(content, stepNum, result, now), '\n');
      && NoPanic(Split(once, '\n'))
      && Join(UpdatedLines(once, stepNum, result, now), '\n') == once
  {
    var lines := Split(content, '\n');
    SplitPieces(content, '\n');
    var p := CheckboxPass(lines, stepNum, Marker(result));
    var t := Tail(stepNum, result, now);
    FirstUpdateNoBlocks(lines, stepNum, result, now);
    AppendedOneLine(lines, stepNum, result, now);
    UpdatedLinesWhenNoBlocks(content, stepNum, result, now);
    SectionJoin(p, stepNum, result, now);
    SplitJoin(p + t, '\n');
    AppendedHeaderFor(lines, p, t, stepNum, result, now);
    AppendedNoPanic(lines, p, t, stepNum, result, now);
    AppendedTargetFixed(lines, p, t, stepNum, result, now);
    AppendedFieldsFixed(lines, p, t, stepNum, result, now);
    FixedPoint(p + t, stepNum, result, now);
  }

  /** The conditions a plan without blocks, once updated and split again, meets. */
  predicate AppendedFacts(lines: seq<string>, p: seq<string>, t: seq<string>, stepNum: NonNegInt, result: StepResult, now: string) {
    && LastHeader(lines).None?
    && p == CheckboxPass(lines, stepNum, Marker(result)) && SameShape(p, lines)
    && t == Tail(stepNum, result, now)
  }

  lemma AppendedHeaderFor(lines: seq<string>, p: seq<string>, t: seq<string>, stepNum: NonNegInt, result: StepResult, now: string)
    requires AppendedFacts(lines, p, t, stepNum, result, now)
    ensures HasHeaderFor(p + t, stepNum)
  {
    TailFacts(stepNum, result, now);
    assert (p + t)[|p| + 3] == t[3];
    HeaderAt(p + t, |p| + 3, stepNum);
  }

  lemma AppendedNoPanic(lines: seq<string>, p: seq<string>, t: seq<string>, stepNum: NonNegInt, result: StepResult, now: string)
    requires AppendedFacts(lines, p, t, stepNum, result, now)
    ensures NoPanic(p + t)
  {
    var l2 := p + t;
    TailFacts(stepNum, result, now);
    forall i | 0 <= i < |l2| && HasPrefix(l2[i], "### Step") && LastHeader(l2[..i]).Some?
      ensures IsNotesHeader(l2[i])
    {
      if i < |p| {
        assert l2[..i] == p[..i];
        SameShapePrefix(p, lines, i, stepNum);
        NoHeaderPrefixes(lines, i);
      } else {
        assert l2[i] == t[i - |p|];
      }
    }
  }

  lemma AppendedTargetFixed(lines: seq<string>, p: seq<string>, t: seq<string>, stepNum: NonNegInt, result: StepResult, now: string)
    requires AppendedFacts(lines, p, t, stepNum, result, now)
    ensures forall i :: 0 <= i < |p + t| && IsTargetStepLine(p + t, i, stepNum) ==>
      UpdateCheckbox((p + t)[i], Marker(result)) == (p + t)[i]
  {
    var l2 := p + t;
    TailFacts(stepNum, result, now);
    forall i | 0 <= i < |l2| && IsTargetStepLine(l2, i, stepNum)
      ensures UpdateCheckbox(l2[i], Marker(result)) == l2[i]
    {
      if i < |p| {
        KeptTargetFixed(lines, p, t, stepNum, Marker(result), i);
      } else {
        assert false;
      }
    }
  }

  lemma AppendedFieldsFixed(lines: seq<string>, p: seq<string>, t: seq<string>, stepNum: NonNegInt, result: StepResult, now: string)
    requires AppendedFacts(lines, p, t, stepNum, result, now)
    ensures forall i :: 0 <= i < |p + t| && InTarget((p + t)[..i + 1], stepNum) ==>
      RewriteField((p + t)[i], result, now) == (p + t)[i]
  {
    var l2 := p + t;
    TailFacts(stepNum, result, now);
    forall i | 0 <= i < |l2| && InTarget(l2[..i + 1], stepNum)
      ensures RewriteField(l2[i], result, now) == l2[i]
    {
      if i < |p| {
        assert l2[..i + 1] == p[..i + 1];
        SameShapePrefix(p, lines, i + 1, stepNum);
        NoHeaderPrefixes(lines, i + 1);
      } else {
        assert l2[i] == t[i - |p|];
      }
    }
  }

  lemma KeptTargetFixed(lines: seq<string>, p: seq<string>, t: seq<string>, stepNum: int, m: char, i: nat)
    requires IsBoxMark(m) && p == CheckboxPass(lines, stepNum, m) && SameShape(p, lines)
    requires i < |p| && IsTargetStepLine(p + t, i, stepNum)
    ensures UpdateCheckbox(p[i], m) == p[i]
  {
    assert (p + t)[..i] == p[..i];
    SameShapePrefix(p, lines, i, stepNum);
    assert IsTargetStepLine(lines, i, stepNum);
    UpdateCheckboxIdempotent(lines[i], m);
  }

  /** A line starting with `#` or `*` is no step line. */
  lemma StarOrHashLine(x: string)
    requires |x| > 0 && (x[0] == '*' || x[0] == '#')
    ensures !IsStepLine(x)
  {}

  // ----- a block inserted among others -----

  /** The header of the block for step `n`. */
  function Header(n: NonNegInt): string { "### Step " + NatToString(n) }

  /** A plan holding the block of step `m` with the notes `a`, a blank
      line, and below it a Notes line with `b`. */
  function BeforeInsert(m: NonNegInt, a: string, b: string): seq<string> {
    [Header(m), "**Notes**: " + a, "", "**Notes**: " + b]
  }

  /** The lines of the text after the first update for step `n`. */
  function AfterInsert(m: NonNegInt, n: NonNegInt, a: string, b: string, result: StepResult, now: string): seq<string> {
    [Header(m), "**Notes**: " + a, ""] + BlockLines(n, result, now) + ["", "**Notes**: " + b]
  }

  /** Two different steps, no input holding a newline, and notes to write
      that differ from `b`. */
  predicate InsertCase(m: NonNegInt, n: NonNegInt, a: string, b: string, result: StepResult, now: string) {
    m != n && '\n' !in a && '\n' !in b && '\n' !in now && '\n' !in result.reason && NotesText(result) != b
  }

  /** A Notes line with `t` is a single line. */
  lemma NotesLineOneLine(t: string)
    requires '\n' !in t
    ensures '\n' !in "**Notes**: " + t
  {
    TagOneLine("**Notes**: ");
    LabelOneLine("**Notes**: ", t);
  }

  /** A Notes line is no header and no step line. */
  lemma NotesLinePlain(t: string)
    ensures MatchNotesHeader("**Notes**: " + t).None? && !IsStepLine("**Notes**: " + t)
  {
    var s := "**Notes**: " + t;
    assert s[0] == '*';
    StarLine(s);
  }

  /** A Notes line is no anchor and not blank. */
  lemma NotesLineNoAnchor(t: string)
    ensures !IsAnchor("**Notes**: " + t) && TrimSpace("**Notes**: " + t) != ""
  {
    var s := "**Notes**: " + t;
    assert s[0] == '*';
    StarNotAnchor(s);
    assert TrimLeft(s) == s;
    TrimRightRemovesSpaces(s);
    assert !IsSpace(s[0]);
  }

  /** The field rewrite replaces a Notes line with the result's notes. */
  lemma NotesLineRewritten(t: string, result: StepResult, now: string)
    ensures RewriteField("**Notes**: " + t, result, now) == "**Notes**: " + NotesText(result)
  {
    var s := "**Notes**: " + t;
    NotesPrefixOnly(t);
    assert s[..10] == "**Notes**:";
    assert s[10] == ' ';
  }

  /** A block header is a header for its step and no step line. */
  lemma HeaderMatches(n: NonNegInt)
    ensures MatchNotesHeader(Header(n)) == Some(NatToString(n)) && Parser.ParseStepNumber(NatToString(n)) == n
    ensures !IsStepLine(Header(n))
  {
    var h := Header(n);
    Parser.BlockHeaderMatches(n);
    assert h[0] == '#';
    StarOrHashLine(h);
  }

  /** A block header is an anchor and a single line. */
  lemma HeaderLine(n: NonNegInt)
    ensures IsAnchor(Header(n)) && '\n' !in Header(n)
  {
    var h := Header(n);
    assert h[..8] == "### Step";
    assert forall k :: 0 <= k < |NatToString(n)| ==> IsDigit(NatToString(n)[k]);
    assert forall k :: 0 <= k < |h| ==> h[k] != '\n' by {
      forall k | 0 <= k < |h| ensures h[k] != '\n' {
        if k >= 9 {
          assert h[k] == NatToString(n)[k - 9];
        }
      }
    }
  }

  /** The blank line is no header, no step line and no anchor. */
  lemma BlankLineInert()
    ensures MatchNotesHeader("").None? && !IsStepLine("") && !IsAnchor("") && TrimSpace("") == ""
  {}

  /** A line starting with `*` is no anchor for a new block. */
  lemma StarNotAnchor(x: string)
    requires |x| > 0 && x[0] == '*'
    ensures !IsAnchor(x)
  {
    assert !HasPrefix(x, "## Notes") by { assert |x| < 8 || x[..8][0] == '*'; }
    assert !HasPrefix(x, "### Step") by { assert |x| < 8 || x[..8][0] == '*'; }
  }

  lemma BeforeInsertOneLine(m: NonNegInt, a: string, b: string)
    requires '\n' !in a && '\n' !in b
    ensures OneLine(BeforeInsert(m, a, b))
  {
    HeaderLine(m);
    NotesLineOneLine(a);
    NotesLineOneLine(b);
  }

  lemma BeforeInsertNoSteps(m: NonNegInt, a: string, b: string)
    ensures var l := BeforeInsert(m, a, b);
      !IsStepLine(l[0]) && !IsStepLine(l[1]) && !IsStepLine(l[2]) && !IsStepLine(l[3])
  {
    HeaderMatches(m);
    NotesLinePlain(a);
    NotesLinePlain(b);
    BlankLineInert();
  }

  lemma BeforeInsertHeaderLines(m: NonNegInt, a: string, b: string)
    ensures var l := BeforeInsert(m, a, b);
      && MatchNotesHeader(l[0]) == Some(NatToString(m)) && Parser.ParseStepNumber(NatToString(m)) == m
      && MatchNotesHeader(l[1]).None? && MatchNotesHeader(l[2]).None? && MatchNotesHeader(l[3]).None?
  {
    HeaderMatches(m);
    NotesLinePlain(a);
    NotesLinePlain(b);
    BlankLineInert();
  }

  /** Every line of the plan lies after the header of step `m`. */
  lemma BeforeInsertHeaders(m: NonNegInt, a: string, b: string)
    ensures forall k :: 1 <= k <= 4 ==> LastHeader(BeforeInsert(m, a, b)[..k]) == Some(m)
  {
    var l := BeforeInsert(m, a, b);
    BeforeInsertHeaderLines(m, a, b);
    forall j | 1 <= j < 4 ensures MatchNotesHeader(l[j]).None? {
      assert j == 1 || j == 2 || j == 3;
    }
    forall k | 1 <= k <= 4 ensures LastHeader(l[..k]) == Some(m) {
      HeaderThenPlain(l, m, k);
    }
  }

  /** Below a header for step `m` and above any other header, every line
      lies in the block of step `m`. */
  lemma {:induction false} HeaderThenPlain(l: seq<string>, m: nat, k: nat)
    requires 1 <= k <= |l|
    requires MatchNotesHeader(l[0]).Some? && Parser.ParseStepNumber(MatchNotesHeader(l[0]).value) == m
    requires forall j :: 1 <= j < |l| ==> MatchNotesHeader(l[j]).None?
    ensures LastHeader(l[..k]) == Some(m)
  {
    LastHeaderStep(l, k - 1);
    if k > 1 {
      HeaderThenPlain(l, m, k - 1);
    }
  }

  /** The first pass changes nothing in a plan without step lines. */
  lemma BeforeInsertCheckbox(m: NonNegInt, n: int, a: string, b: string, c: char)
    ensures CheckboxPass(BeforeInsert(m, a, b), n, c) == BeforeInsert(m, a, b)
  {
    var l := BeforeInsert(m, a, b);
    BeforeInsertNoSteps(m, a, b);
    forall i | 0 <= i < 4 ensures !IsStepLine(l[i]) {
      assert i == 0 || i == 1 || i == 2 || i == 3;
    }
  }

  /** No line lies in a block for step `n`, so the second pass changes nothing. */
  lemma BeforeInsertNotes(m: NonNegInt, n: int, a: string, b: string, result: StepResult, now: string)
    requires m != n
    ensures NotesPass(BeforeInsert(m, a, b), n, result, now) == BeforeInsert(m, a, b)
  {
    var l := BeforeInsert(m, a, b);
    BeforeInsertHeaders(m, a, b);
    var o := NotesPass(l, n, result, now);
    forall i | 0 <= i < 4 ensures o[i] == l[i] {
      assert !InTarget(l[..i + 1], n);
    }
  }

  /** The plan has a block, but none for step `n`. */
  lemma BeforeInsertNoHeader(m: NonNegInt, n: int, a: string, b: string)
    requires m != n
    ensures LastHeader(BeforeInsert(m, a, b)).Some? && !HasHeaderFor(BeforeInsert(m, a, b), n)
  {
    var l := BeforeInsert(m, a, b);
    BeforeInsertHeaderLines(m, a, b);
    BeforeInsertHeaders(m, a, b);
    assert l[..4] == l;
    HasHeaderForStep(l, 0, n);
    HasHeaderForStep(l, 1, n);
    HasHeaderForStep(l, 2, n);
    HasHeaderForStep(l, 3, n);
    assert l[..0] == [];
  }

  /** The new block goes after the header of step `m` and its Notes line,
      before the blank line. */
  lemma BeforeInsertPlace(m: NonNegInt, a: string, b: string, block: string)
    ensures var l := BeforeInsert(m, a, b);
      WithBlock(l, block) == l[..2] + ["", block] + l[2..]
  {
    var l := BeforeInsert(m, a, b);
    NotesLineNoAnchor(a);
    NotesLineNoAnchor(b);
    HeaderLine(m);
    assert IsAnchor(l[0]) && !IsAnchor(l[1]) && !IsAnchor(l[2]) && !IsAnchor(l[3]);
    assert !BlankAt(l, 1) && BlankAt(l, 2);
    assert LastAnchor(l, 1) == Some(0);
    assert LastAnchor(l, 2) == Some(0);
    assert LastAnchor(l, 3) == Some(0);
    assert LastAnchor(l, 4) == Some(0);
    assert SkipNonBlank(l, 1) == 2;
  }

  /** The first update finds no block for step `n` and inserts one; its
      text is the text of AfterInsert. */
  lemma FirstInsert(m: NonNegInt, n: NonNegInt, a: string, b: string, result: StepResult, now: string)
    requires InsertCase(m, n, a, b, result, now)
    ensures var once := Join(UpdatedLines(Join(BeforeInsert(m, a, b), '\n'), n, result, now), '\n');
      once == Join(AfterInsert(m, n, a, b, result, now), '\n')
  {
    var l := BeforeInsert(m, a, b);
    var block := CreateNotesSection(n, result, now);
    BeforeInsertOneLine(m, a, b);
    SplitJoin(l, '\n');
    BeforeInsertCheckbox(m, n, a, b, Marker(result));
    BeforeInsertNotes(m, n, a, b, result, now);
    BeforeInsertNoHeader(m, n, a, b);
    UpdatedLinesInsert(Join(l, '\n'), n, result, now);
    BeforeInsertPlace(m, a, b, block);
    InsertedJoin(m, n, a, b, result, now);
  }

  /** The text with the new block as one element is the text of AfterInsert. */
  lemma InsertedJoin(m: NonNegInt, n: NonNegInt, a: string, b: string, result: StepResult, now: string)
    ensures var l := BeforeInsert(m, a, b);
      Join(l[..2] + ["", CreateNotesSection(n, result, now)] + l[2..], '\n') ==
        Join(AfterInsert(m, n, a, b, result, now), '\n')
  {
    var l := BeforeInsert(m, a, b);
    var block := CreateNotesSection(n, result, now);
    var pre := l[..2] + [""];
    var blk := BlockLines(n, result, now);
    var c := ["", "**Notes**: " + b];
    assert l[..2] + ["", block] + l[2..] == pre + ([block] + c);
    assert AfterInsert(m, n, a, b, result, now) == pre + (blk + c);
    BlockJoin(n, result, now);
    JoinAppend(pre, [block] + c, '\n');
    JoinAppend(pre, blk + c, '\n');
    JoinAppend(blk, c, '\n');
    assert ([block] + c)[1..] == c;
  }

  lemma AfterInsertOneLine(m: NonNegInt, n: NonNegInt, a: string, b: string, result: StepResult, now: string)
    requires InsertCase(m, n, a, b, result, now)
    ensures |AfterInsert(m, n, a, b, result, now)| == 9 && OneLine(AfterInsert(m, n, a, b, result, now))
  {
    var l := AfterInsert(m, n, a, b, result, now);
    AfterInsertAt(m, n, a, b, result, now);
    TailOneLine(n, result, now);
    var t := Tail(n, result, now);
    assert l[4] == t[4] && l[5] == t[5] && l[6] == t[6];
    HeaderLine(m);
    HeaderLine(n);
    NotesLineOneLine(a);
    NotesLineOneLine(b);
    forall i | 0 <= i < 9 ensures '\n' !in l[i] {
      assert i == 0 || i == 1 || i == 2 || i == 3 || i == 4 || i == 5 || i == 6 || i == 7 || i == 8;
    }
  }

  /** The lines after the first update, one by one. */
  lemma AfterInsertAt(m: NonNegInt, n: NonNegInt, a: string, b: string, result: StepResult, now: string)
    ensures var l := AfterInsert(m, n, a, b, result, now);
      && |l| == 9 && l[0] == Header(m) && l[1] == "**Notes**: " + a && l[2] == ""
      && l[3] == Header(n) && l[4] == "**Status**: " + StatusWord(result)
      && l[5] == "**Last Run**: " + now && l[6] == "**Notes**: " + NotesText(result)
      && l[7] == "" && l[8] == "**Notes**: " + b
  {}

  lemma AfterInsertLines(m: NonNegInt, n: NonNegInt, a: string, b: string, result: StepResult, now: string)
    ensures var l := AfterInsert(m, n, a, b, result, now);
      && |l| == 9
      && MatchNotesHeader(l[4]).None? && MatchNotesHeader(l[5]).None? && MatchNotesHeader(l[6]).None?
      && MatchNotesHeader(l[7]).None? && MatchNotesHeader(l[8]).None?
      && !IsStepLine(l[0]) && !IsStepLine(l[1]) && !IsStepLine(l[2]) && !IsStepLine(l[3]) && !IsStepLine(l[4])
      && !IsStepLine(l[5]) && !IsStepLine(l[6]) && !IsStepLine(l[7]) && !IsStepLine(l[8])
  {
    AfterInsertAt(m, n, a, b, result, now);
    HeaderMatches(m);
    HeaderMatches(n);
    NotesLinePlain(a);
    NotesLinePlain(b);
    NotesLinePlain(NotesText(result));
    StarLine("**Status**: " + StatusWord(result));
    StarLine("**Last Run**: " + now);
    BlankLineInert();
  }

  /** The first pass changes nothing after the first update: there is no
      step line. */
  lemma AfterInsertCheckbox(m: NonNegInt, n: NonNegInt, a: string, b: string, result: StepResult, now: string, c: char)
    ensures CheckboxPass(AfterInsert(m, n, a, b, result, now), n, c) == AfterInsert(m, n, a, b, result, now)
  {
    var l := AfterInsert(m, n, a, b, result, now);
    AfterInsertLines(m, n, a, b, result, now);
    forall i | 0 <= i < 9 ensures !IsStepLine(l[i]) {
      assert i == 0 || i == 1 || i == 2 || i == 3 || i == 4 || i == 5 || i == 6 || i == 7 || i == 8;
    }
  }

  /** The inserted header is the header of step `n`. */
  lemma AfterInsertStep(m: NonNegInt, n: NonNegInt, a: string, b: string, result: StepResult, now: string)
    ensures var l := AfterInsert(m, n, a, b, result, now);
      |l| == 9 && MatchNotesHeader(l[3]) == Some(NatToString(n)) && Parser.ParseStepNumber(NatToString(n)) == n
  {
    AfterInsertAt(m, n, a, b, result, now);
    HeaderMatches(n);
  }

  /** The last header of the lines after the first update is the inserted
      one, for step `n`. */
  lemma AfterInsertHeader(m: NonNegInt, n: NonNegInt, a: string, b: string, result: StepResult, now: string)
    ensures LastHeader(AfterInsert(m, n, a, b, result, now)) == Some(n)
    ensures HasHeaderFor(AfterInsert(m, n, a, b, result, now), n)
  {
    var l := AfterInsert(m, n, a, b, result, now);
    AfterInsertLines(m, n, a, b, result, now);
    AfterInsertStep(m, n, a, b, result, now);
    assert l[..9] == l;
    LastHeaderStep(l, 8);
    LastHeaderStep(l, 7);
    LastHeaderStep(l, 6);
    LastHeaderStep(l, 5);
    LastHeaderStep(l, 4);
    LastHeaderStep(l, 3);
    HasHeaderForStep(l, 8, n);
    HasHeaderForStep(l, 7, n);
    HasHeaderForStep(l, 6, n);
    HasHeaderForStep(l, 5, n);
    HasHeaderForStep(l, 4, n);
    HasHeaderForStep(l, 3, n);
  }

  /** The second update finds the inserted block and takes the Notes line
      below the blank line for one of its fields, rewriting it. */
  lemma SecondUpdateRewrites(m: NonNegInt, n: NonNegInt, a: string, b: string, result: StepResult, now: string)
    requires InsertCase(m, n, a, b, result, now)
    ensures var l := AfterInsert(m, n, a, b, result, now);
      var u := UpdatedLines(Join(l, '\n'), n, result, now);
      |u| == 9 && OneLine(u) && u[8] != l[8]
  {
    var l := AfterInsert(m, n, a, b, result, now);
    AfterInsertLines(m, n, a, b, result, now);
    AfterInsertOneLine(m, n, a, b, result, now);
    SplitJoin(l, '\n');
    AfterInsertCheckbox(m, n, a, b, result, now, Marker(result));
    AfterInsertHeader(m, n, a, b, result, now);
    UpdatedLinesWhenFound(Join(l, '\n'), n, result, now);
    PassesOneLine(l, n, result, now);
    assert l[..9] == l;
    NotesLineRewritten(b, result, now);
  }

  /** updateStepInContent is not idempotent once it has inserted a block
      among others: given the block of step `m`, a blank line and a Notes
      line below it, the first update for another step `n` puts the new
      block before the blank line, and a second update with the same
      arguments takes the Notes line below for the new block's and
      changes the text. */
  lemma InsertionNotIdempotent(m: NonNegInt, n: NonNegInt, a: string, b: string, result: StepResult, now: string)
    requires InsertCase(m, n, a, b, result, now)
    ensures var once := Join(UpdatedLines(Join(BeforeInsert(m, a, b), '\n'), n, result, now), '\n');
      Join(UpdatedLines(once, n, result, now), '\n') != once
  {
    FirstInsert(m, n, a, b, result, now);
    var l := AfterInsert(m, n, a, b, result, now);
    var u := UpdatedLines(Join(l, '\n'), n, result, now);
    SecondUpdateRewrites(m, n, a, b, result, now);
    AfterInsertOneLine(m, n, a, b, result, now);
    SplitJoin(u, '\n');
    SplitJoin(l, '\n');
  }

  /** The smallest instance: steps 1 and 2, notes `a` and `b`, a failed
      run with reason `r`. */
  lemma InsertionExample()
    ensures InsertCase(1, 2, "a", "b", StepResult(false, "", "r", None, 0), "now")
    ensures BeforeInsert(1, "a", "b") == ["### Step 1", "**Notes**: a", "", "**Notes**: b"]
  {
    assert NotesText(StepResult(false, "", "r", None, 0)) == "Failed: r";
    assert NatToString(1) == ['1'];
    assert Header(1) == "### Step 1";
    assert "**Notes**: " + "a" == "**Notes**: a";
    assert "**Notes**: " + "b" == "**Notes**: b";
  }
}
