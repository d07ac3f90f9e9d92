/** The pure text helpers of internal/loop/promptdetector.go: the prompt
    patterns, ANSI stripping, the padding of box lines, and the context
    lines shown under a warning. */
module DetectorText {
  import opened Text
  import opened Grammar

  // ----- the prompt patterns -----

  /** ASCII case folding, as the `(?i)` flag applies it to ASCII letters. */
  function LowerChar(c: char): char {
    if 'A' <= c <= 'Z' then (c as int + 32) as char else c
  }

  function Lower(s: string): string {
    seq(|s|, i requires 0 <= i < |s| => LowerChar(s[i]))
  }

  /** `open .* close` without anchors: after the leftmost `open`, some
      later `close` (the `.*` may be empty). */
  predicate Around(l: string, open: string, close: string) {
    match IndexOf(l, open)
    case None => false
    case Some(i) => Contains(l[i + |open|..], close)
  }

  /** The inquirer-style pattern `^\s*\?\s+`. */
  predicate InquirerPrompt(line: string) {
    var i := SkipSpaces(line, 0);
    i + 1 < |line| && line[i] == '?' && IsRegexSpace(line[i + 1])
  }

  /** matchesPromptPattern: one of the fourteen patterns occurs in the
      line. All but the inquirer pattern ignore case; they are matched here
      against the lower-cased line. */
  predicate MatchesPromptPattern(line: string)
    ensures AllRegexSpace(line) ==> !MatchesPromptPattern(line)
  {
    BlankMatchesNothing(line);
    var l := Lower(line);
    || Contains(l, "[y/n]")
    || Contains(l, "[yes/no]")
    || Contains(l, "press enter")
    || Contains(l, "press any key")
    || Contains(l, "do you want to continue")
    || Contains(l, "do you want to proceed")
    || Contains(l, "do you want to confirm")
    || Contains(l, "would you like to")
    || Contains(l, "are you sure")
    || Contains(l, "confirm?")
    || Contains(l, "proceed?")
    || Contains(l, "continue?")
    || InquirerPrompt(line)
    || Contains(l, "waiting for input")
    || Contains(l, "waiting for response")
    || Contains(l, "waiting for confirmation")
    || Around(l, "enter ", " to continue")
    || Around(l, "type ", " to confirm")
  }

  /** A text made of spaces contains no text that starts with a non-space. */
  lemma BlankHasNo(l: string, t: string)
    requires AllRegexSpace(l) && |t| > 0 && !IsRegexSpace(t[0])
    ensures !Contains(l, t)
  {}

  /** A blank line matches none of the patterns: each starts with a
      non-space, and the inquirer pattern needs a `?`. */
  lemma BlankMatchesNothing(line: string)
    ensures AllRegexSpace(line) ==>
      var l := Lower(line);
      && !Contains(l, "[y/n]") && !Contains(l, "[yes/no]") && !Contains(l, "press enter")
      && !Contains(l, "press any key") && !Contains(l, "do you want to continue")
      && !Contains(l, "do you want to proceed") && !Contains(l, "do you want to confirm")
      && !Contains(l, "would you like to") && !Contains(l, "are you sure") && !Contains(l, "confirm?")
      && !Contains(l, "proceed?") && !Contains(l, "continue?") && !InquirerPrompt(line)
      && !Contains(l, "waiting for input") && !Contains(l, "waiting for response")
      && !Contains(l, "waiting for confirmation") && !Contains(l, "enter ") && !Contains(l, "type ")
  {
    if AllRegexSpace(line) {
      var l := Lower(line);
      assert AllRegexSpace(l);
      BlankHasNo(l, "[y/n]");
      BlankHasNo(l, "[yes/no]");
      BlankHasNo(l, "press enter");
      BlankHasNo(l, "press any key");
      BlankHasNo(l, "do you want to continue");
      BlankHasNo(l, "do you want to proceed");
      BlankHasNo(l, "do you want to confirm");
      BlankHasNo(l, "would you like to");
      BlankHasNo(l, "are you sure");
      BlankHasNo(l, "confirm?");
      BlankHasNo(l, "proceed?");
      BlankHasNo(l, "continue?");
      BlankHasNo(l, "waiting for input");
      BlankHasNo(l, "waiting for response");
      BlankHasNo(l, "waiting for confirmation");
      BlankHasNo(l, "enter ");
      BlankHasNo(l, "type ");
    }
  }

  lemma {:induction false} SkipSpacesLower(s: string, i: nat)
    requires i <= |s|
    ensures SkipSpaces(Lower(s), i) == SkipSpaces(s, i)
    decreases |s| - i
  {
    if i < |s| && IsRegexSpace(s[i]) {
      SkipSpacesLower(s, i + 1);
    }
  }

  /** The patterns do not depend on the case of ASCII letters: a line and
      its lower-cased form match alike. */
  lemma CaseInsensitive(line: string)
    ensures MatchesPromptPattern(Lower(line)) == MatchesPromptPattern(line)
  {
    assert Lower(Lower(line)) == Lower(line);
    SkipSpacesLower(line, 0);
  }

  // ----- ANSI escapes -----

  const Esc: char := '\U{1B}'

  predicate IsParamChar(c: char) { '0' <= c <= '9' || c == ';' }

  function SkipParams(s: string, i: nat): (k: nat)
    requires i <= |s|
    ensures i <= k <= |s|
    ensures forall j :: i <= j < k ==> IsParamChar(s[j])
    ensures k == |s| || !IsParamChar(s[k])
    decreases |s| - i
  {
    if i < |s| && IsParamChar(s[i]) then SkipParams(s, i + 1) else i
  }

  /** The length of the escape `\x1b\[[0-9;]*m` at the start of `s`, if one is there. */
  function EscapeLength(s: string): (r: Option<nat>)
    ensures r.Some? ==> 3 <= r.value <= |s| && s[0] == Esc && s[r.value - 1] == 'm'
  {
    if |s| >= 2 && s[0] == Esc && s[1] == '[' then
      var k := SkipParams(s, 2);
      if k < |s| && s[k] == 'm' then Some(k + 1) else None
    else None
  }

  /** stripAnsi: every complete color escape removed, scanning left to right. */
  function StripAnsi(s: string): (r: string)
    ensures |r| <= |s|
    decreases |s|
  {
    if |s| == 0 then ""
    else
      match EscapeLength(s)
      case Some(k) => StripAnsi(s[k..])
      case None => [s[0]] + StripAnsi(s[1..])
  }

  /** Without an escape character there is nothing to strip. */
  lemma {:induction false} StripAnsiPlain(s: string)
    requires Esc !in s
    ensures StripAnsi(s) == s
    decreases |s|
  {
    if |s| > 0 {
      assert s[0] != Esc;
      assert Esc !in s[1..];
      StripAnsiPlain(s[1..]);
    }
  }

  lemma {:induction false} SkipParamsExtend(s: string, u: string, i: nat)
    requires i <= |s|
    requires SkipParams(s, i) < |s| || |u| == 0 || !IsParamChar(u[0])
    ensures SkipParams(s + u, i) == SkipParams(s, i)
    decreases |s| - i
  {
    if i < |s| && IsParamChar(s[i]) {
      SkipParamsExtend(s, u, i + 1);
    } else if i == |s| && |u| > 0 {
      assert (s + u)[i] == u[0];
    }
  }

  /** Padding cannot complete or change an escape at the start. */
  lemma EscapePadded(s: string, pad: string)
    requires |s| > 0 && |pad| > 0 && pad[0] == ' '
    ensures EscapeLength(s + pad) == EscapeLength(s)
  {
    if |s| >= 2 && s[0] == Esc && s[1] == '[' {
      SkipParamsExtend(s, pad, 2);
    }
  }

  /** Padding with spaces adds exactly that many visible characters. */
  lemma {:induction false} StripAnsiPadding(s: string, n: nat)
    ensures StripAnsi(s + Repeat(' ', n)) == StripAnsi(s) + Repeat(' ', n)
    decreases |s|
  {
    var pad := Repeat(' ', n);
    var t := s + pad;
    if |s| == 0 {
      assert t == pad;
      StripAnsiPlain(pad);
    } else if n == 0 {
      assert t == s;
    } else {
      EscapePadded(s, pad);
      match EscapeLength(s) {
        case Some(k) =>
          assert t[k..] == s[k..] + pad;
          StripAnsiPadding(s[k..], n);
        case None =>
          assert t[1..] == s[1..] + pad;
          StripAnsiPadding(s[1..], n);
      }
    }
  }

  // ----- box lines -----

  /** formatBoxLine: a line that fits is padded with spaces to `width`
      visible characters; a longer one is cut to `width - 3` characters of
      the original (escapes included) and ends in `...`. */
  function FormatBoxLine(line: string, width: nat): (r: string)
    requires width >= 3
    ensures |StripAnsi(line)| <= width ==> |r| >= |line| && r[..|line|] == line
    ensures |StripAnsi(line)| > width ==> |r| == width && r[width - 3..] == "..."
  {
    var clean := StripAnsi(line);
    if |clean| > width then line[..width - 3] + "..."
    else line + Repeat(' ', width - |clean|)
  }

  /** What formatBoxLine promises: a line that fits keeps all its text and
      shows exactly `width` characters; a longer one is exactly `width`
      characters long, begins like the line and ends in `...`, so it shows
      at most `width`. */
  lemma FormatBoxLineWidth(line: string, width: nat)
    requires width >= 3
    ensures var r := FormatBoxLine(line, width);
      |StripAnsi(line)| <= width ==>
        |StripAnsi(r)| == width && r[..|line|] == line && forall j :: |line| <= j < |r| ==> r[j] == ' '
    ensures var r := FormatBoxLine(line, width);
      |StripAnsi(line)| > width ==>
        |r| == width && |StripAnsi(r)| <= width && r[..width - 3] == line[..width - 3] && r[width - 3..] == "..."
  {
    var clean := StripAnsi(line);
    if |clean| <= width {
      StripAnsiPadding(line, width - |clean|);
    }
  }

  // ----- question context -----

  const NoContext: string := "(no context available)"
  const ContextDepth: nat := 5

  /** Each line trimmed. */
  function Trims(lines: seq<string>): (r: seq<string>)
    ensures |r| == |lines|
  {
    seq(|lines|, j requires 0 <= j < |lines| => TrimSpace(lines[j]))
  }

  lemma TrimsSnoc(lines: seq<string>, i: nat)
    requires i < |lines|
    ensures Trims(lines[..i + 1]) == Trims(lines[..i]) + [TrimSpace(lines[i])]
  {}

  /** The lines that are not empty, in order. */
  function NonEmpty(lines: seq<string>): seq<string> {
    if |lines| == 0 then []
    else NonEmpty(lines[..|lines| - 1]) + (if lines[|lines| - 1] != "" then [lines[|lines| - 1]] else [])
  }

  /** The last `ContextDepth` lines, or all of them when there are fewer. */
  function LastFive(lines: seq<string>): (r: seq<string>)
    ensures |r| == if |lines| > ContextDepth then ContextDepth else |lines|
    ensures r == lines[|lines| - |r|..]
  {
    if |lines| > ContextDepth then lines[|lines| - ContextDepth..] else lines
  }

  /** getQuestionContext on the buffered lines: the last five, trimmed,
      without the empty ones, or the placeholder when none is left. */
  function QuestionContext(recent: seq<string>): seq<string> {
    ContextOf(Trims(LastFive(recent)))
  }

  function ContextOf(trimmed: seq<string>): seq<string> {
    var context := NonEmpty(trimmed);
    if |context| == 0 then [NoContext] else context
  }

  /** NonEmpty keeps exactly the non-empty lines. */
  lemma {:induction false} NonEmptySpec(lines: seq<string>)
    ensures var r := NonEmpty(lines);
      && |r| <= |lines|
      && (forall k :: 0 <= k < |r| ==> r[k] != "" && r[k] in lines)
      && (forall j :: 0 <= j < |lines| && lines[j] != "" ==> lines[j] in r)
      && (|r| == 0 <==> forall j :: 0 <= j < |lines| ==> lines[j] == "")
    decreases |lines|
  {
    if |lines| > 0 {
      var init := lines[..|lines| - 1];
      NonEmptySpec(init);
      var r := NonEmpty(lines);
      assert r[..|NonEmpty(init)|] == NonEmpty(init);
      forall j | 0 <= j < |lines| && lines[j] != "" ensures lines[j] in r {
        if j < |init| {
          assert lines[j] == init[j];
        }
      }
      if |r| == 0 {
        forall j | 0 <= j < |lines| ensures lines[j] == "" {
          if j < |init| {
            assert lines[j] == init[j];
          }
        }
      }
    }
  }

  /** The context of some trimmed lines: the placeholder alone when they
      are all empty; otherwise no more lines than were given, each of them
      one of the non-empty given lines, and every non-empty one among them. */
  lemma ContextOfTrimmed(trimmed: seq<string>)
    ensures var r := ContextOf(trimmed);
      && ((forall j :: 0 <= j < |trimmed| ==> trimmed[j] == "") ==> r == [NoContext])
      && ((exists j :: 0 <= j < |trimmed| && trimmed[j] != "") ==>
            && |r| <= |trimmed|
            && (forall k :: 0 <= k < |r| ==> r[k] != "" && r[k] in trimmed)
            && (forall j :: 0 <= j < |trimmed| && trimmed[j] != "" ==> trimmed[j] in r))
  {
    NonEmptySpec(trimmed);
    var c := NonEmpty(trimmed);
    if exists j :: 0 <= j < |trimmed| && trimmed[j] != "" {
      var j :| 0 <= j < |trimmed| && trimmed[j] != "";
      assert trimmed[j] in c;
    }
  }

  /** The lines the context is drawn from are the last five buffered
      lines, trimmed: no more than five, and each already trimmed. */
  lemma ContextSource(recent: seq<string>)
    ensures var ts := Trims(LastFive(recent));
      && |ts| <= ContextDepth
      && forall j :: 0 <= j < |ts| ==>
           ts[j] == TrimSpace(recent[|recent| - |ts| + j]) && TrimSpace(ts[j]) == ts[j]
  {
    var w := LastFive(recent);
    forall j | 0 <= j < |w|
      ensures TrimSpace(Trims(w)[j]) == Trims(w)[j] && w[j] == recent[|recent| - |w| + j]
    {
      TrimSpaceIdempotent(w[j]);
    }
  }
}
