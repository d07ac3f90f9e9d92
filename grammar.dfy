/** The line grammars of the plan document. Each regular expression of
    internal/plan/parser.go becomes a scanner that follows Go's leftmost-first
    matching (greedy `\s+`, an optional group preferred when it can match,
    backtracking only where it can change the outcome) and returns the
    capture groups the parser and the writer read. The inputs are single
    lines: the callers always split at newlines first. */
module Grammar {
  import opened Text

  /** The first index at or after `i` that does not hold a `\s` character. */
  function SkipSpaces(s: string, i: nat): (k: nat)
    requires i <= |s|
    ensures i <= k <= |s|
    ensures forall j :: i <= j < k ==> IsRegexSpace(s[j])
    ensures k == |s| || !IsRegexSpace(s[k])
    decreases |s| - i
  {
    if i < |s| && IsRegexSpace(s[i]) then SkipSpaces(s, i + 1) else i
  }

  /** SkipSpaces stops at the end of the run of spaces that starts at `i`. */
  lemma {:induction false} SkipSpacesAt(s: string, i: nat, k: nat)
    requires i <= k <= |s|
    requires forall j :: i <= j < k ==> IsRegexSpace(s[j])
    requires k == |s| || !IsRegexSpace(s[k])
    ensures SkipSpaces(s, i) == k
    decreases k - i
  {
    if i < k {
      SkipSpacesAt(s, i + 1, k);
    }
  }

  /** The first index at or after `i` that does not hold a digit. */
  function SkipDigits(s: string, i: nat): (k: nat)
    requires i <= |s|
    ensures i <= k <= |s|
    ensures forall j :: i <= j < k ==> IsDigit(s[j])
    ensures k == |s| || !IsDigit(s[k])
    decreases |s| - i
  {
    if i < |s| && IsDigit(s[i]) then SkipDigits(s, i + 1) else i
  }

  /** The capture of `\s+(.+)$` matched from index `p`. When nothing follows
      the spaces, `.+` backtracks into the last of them (which needs two). */
  function SpacesThenRest(s: string, p: nat): (r: Option<string>)
    requires p <= |s|
    ensures r.Some? ==> |r.value| >= 1
    ensures r.Some? ==> p < |s| && IsRegexSpace(s[p])
  {
    var k := SkipSpaces(s, p);
    if k == p then None
    else if k < |s| then Some(s[k..])
    else if k - p >= 2 then Some([s[k - 1]])
    else None
  }

  predicate IsMarker(c: char) { c == ' ' || c == 'x' || c == '!' || c == '-' }

  /** What a step line yields: its checkbox marker and the capture of the
      final `(.+)`, the untrimmed description. */
  datatype StepMatch = StepMatch(marker: char, text: string)

  /** The optional label `Step\s+(\d+):\s+` followed by `(.+)$`: the capture of `.+`. */
  function StepLabel(r: string): Option<string> {
    if !HasPrefix(r, "Step") then None
    else
      var a := SkipSpaces(r, 4);
      if a == 4 then None
      else
        var b := SkipDigits(r, a);
        if b == a || b >= |r| || r[b] != ':' then None
        else SpacesThenRest(r, b + 1)
  }

  /** stepLineRegex `^-\s+\[([ x!\-])\]\s+(?:Step\s+(\d+):\s+)?(.+)$`. The
      number in the label is matched and then ignored. */
  function MatchStepLine(line: string): (r: Option<StepMatch>)
    ensures r.Some? ==> IsMarker(r.value.marker)
    ensures r.Some? ==> HasPrefix(line, "-")
  {
    if |line| == 0 || line[0] != '-' then None
    else
      var i := SkipSpaces(line, 1);
      if i == 1 || i + 3 > |line| || line[i] != '[' || !IsMarker(line[i + 1]) || line[i + 2] != ']' then None
      else
        var p := i + 3;
        var k := SkipSpaces(line, p);
        if k == p then None
        else
          var rest := line[k..];
          match StepLabel(rest)
          case Some(after) => Some(StepMatch(line[i + 1], after))
          case None =>
            if |rest| > 0 then Some(StepMatch(line[i + 1], rest))
            else if k - p >= 2 then Some(StepMatch(line[i + 1], [line[k - 1]]))
            else None
  }

  predicate IsStepLine(line: string) { MatchStepLine(line).Some? }

  /** The parts a step line is made of: `-`, the spaces up to `i`, the
      checkbox at `i`, and the spaces from `i + 3` up to `k`. */
  predicate StepLineParts(line: string, i: nat, k: nat) {
    && |line| > 0 && line[0] == '-'
    && 1 < i && i + 3 <= |line| && SkipSpaces(line, 1) == i
    && line[i] == '[' && IsMarker(line[i + 1]) && line[i + 2] == ']'
    && i + 3 < k <= |line| && SkipSpaces(line, i + 3) == k
    && (k < |line| || k - (i + 3) >= 2)
  }

  lemma StepLineHasParts(line: string)
    requires IsStepLine(line)
    ensures StepLineParts(line, SkipSpaces(line, 1), SkipSpaces(line, SkipSpaces(line, 1) + 3))
    ensures MatchStepLine(line).value.marker == line[SkipSpaces(line, 1) + 1]
  {}

  lemma StepLineFromParts(line: string, i: nat, k: nat)
    requires StepLineParts(line, i, k)
    ensures IsStepLine(line) && MatchStepLine(line).value.marker == line[i + 1]
  {}

  /** A line that does not start with `#` is no title, header or block header. */
  lemma NoHashNoHeader(line: string)
    requires |line| > 0 && line[0] != '#'
    ensures MatchProjectName(line).None? && MatchNotesHeader(line).None?
    ensures !IsContextHeader(line) && !IsSectionHeader(line) && !HasPrefix(line, "### Step")
  {
    assert !HasPrefix(line, "#") && !HasPrefix(line, "##") && !HasPrefix(line, "###");
  }

  /** A `## <word>` header is no project title: its second character is no space. */
  lemma SectionHeaderIsNoTitle(line: string)
    requires IsSectionHeader(line)
    ensures MatchProjectName(line).None?
  {
    assert line[..2] == "##";
    assert line[1] == '#' && !IsRegexSpace(line[1]);
  }

  /** projectNameRegex `^#\s+Project:\s+(.+)$`: the capture, untrimmed. */
  function MatchProjectName(line: string): (r: Option<string>)
    ensures r.Some? ==> HasPrefix(line, "#")
  {
    if |line| == 0 || line[0] != '#' then None
    else
      var i := SkipSpaces(line, 1);
      if i == 1 || !HasPrefix(line[i..], "Project:") then None
      else SpacesThenRest(line, i + 8)
  }

  /** notesSectionRegex `^###\s+Step\s+(\d+)$`: the digits of the block's step number. */
  function MatchNotesHeader(line: string): (r: Option<string>)
    ensures r.Some? ==> HasPrefix(line, "###") && AllDigits(r.value)
  {
    if !HasPrefix(line, "###") then None
    else
      var i := SkipSpaces(line, 3);
      if i == 3 || !HasPrefix(line[i..], "Step") then None
      else
        var j := SkipSpaces(line, i + 4);
        if j == i + 4 || j == |line| || !AllDigits(line[j..]) then None
        else Some(line[j..])
  }

  predicate IsNotesHeader(line: string) { MatchNotesHeader(line).Some? }

  /** statusRegex `^\*\*Status\*\*:\s+(\w+)$`. */
  function MatchStatusField(line: string): (r: Option<string>)
    ensures r.Some? ==> HasPrefix(line, "**Status**:")
  {
    if !HasPrefix(line, "**Status**:") then None
    else
      var k := SkipSpaces(line, 11);
      if k == 11 || k == |line| || !AllWordChars(line[k..]) then None
      else Some(line[k..])
  }

  /** lastRunRegex `^\*\*Last Run\*\*:\s+(.+)$`. */
  function MatchLastRunField(line: string): (r: Option<string>)
    ensures r.Some? ==> HasPrefix(line, "**Last Run**:")
  {
    if !HasPrefix(line, "**Last Run**:") then None else SpacesThenRest(line, 13)
  }

  /** notesRegex `^\*\*Notes\*\*:\s+(.*)$`. */
  function MatchNotesField(line: string): (r: Option<string>)
    ensures r.Some? ==> HasPrefix(line, "**Notes**:")
  {
    if !HasPrefix(line, "**Notes**:") then None
    else
      var k := SkipSpaces(line, 10);
      if k == 10 then None else Some(line[k..])
  }

  /** retriesRegex `^\*\*Retries\*\*:\s+(\d+)$`: the digits. */
  function MatchRetriesField(line: string): (r: Option<string>)
    ensures r.Some? ==> HasPrefix(line, "**Retries**:") && AllDigits(r.value)
  {
    if !HasPrefix(line, "**Retries**:") then None
    else
      var k := SkipSpaces(line, 12);
      if k == 12 || k == |line| || !AllDigits(line[k..]) then None
      else Some(line[k..])
  }

  /** contextSectionRegex `^##\s+Context\s*$`. */
  predicate IsContextHeader(line: string) {
    HasPrefix(line, "##") &&
    var i := SkipSpaces(line, 2);
    i > 2 && HasPrefix(line[i..], "Context") && AllRegexSpace(line[i + 7..])
  }

  /** sectionHeaderRegex `^##\s+\w+` (not anchored at the end). */
  predicate IsSectionHeader(line: string) {
    HasPrefix(line, "##") &&
    var i := SkipSpaces(line, 2);
    i > 2 && i < |line| && IsWordChar(line[i])
  }

  // ----- the timestamp layout "2006-01-02 15:04:05" -----

  function DigitAt(s: string, i: nat): nat
    requires i < |s| && IsDigit(s[i])
  {
    s[i] as int - '0' as int
  }

  predicate DigitsAt(s: string, i: nat, n: nat) {
    i + n <= |s| && forall j :: i <= j < i + n ==> IsDigit(s[j])
  }

  function TwoDigits(s: string, i: nat): nat
    requires DigitsAt(s, i, 2)
  {
    10 * DigitAt(s, i) + DigitAt(s, i + 1)
  }

  predicate IsLeap(year: nat) {
    year % 4 == 0 && (year % 100 != 0 || year % 400 == 0)
  }

  function DaysIn(month: nat, year: nat): nat
    requires 1 <= month <= 12
  {
    if month == 2 then (if IsLeap(year) then 29 else 28)
    else if month == 4 || month == 6 || month == 9 || month == 11 then 30
    else 31
  }

  /** A value time.Parse accepts for the layout "2006-01-02 15:04:05" in its
      canonical form: fixed-width fields, month 1-12, a day that exists in that
      month, hour below 24, minutes and seconds below 60. */
  predicate IsTimestamp(s: string) {
    |s| == 19 &&
    DigitsAt(s, 0, 4) && s[4] == '-' && DigitsAt(s, 5, 2) && s[7] == '-' && DigitsAt(s, 8, 2) &&
    s[10] == ' ' && DigitsAt(s, 11, 2) && s[13] == ':' && DigitsAt(s, 14, 2) && s[16] == ':' &&
    DigitsAt(s, 17, 2) &&
    var year := 1000 * DigitAt(s, 0) + 100 * DigitAt(s, 1) + 10 * DigitAt(s, 2) + DigitAt(s, 3);
    var month := TwoDigits(s, 5);
    1 <= month <= 12 && 1 <= TwoDigits(s, 8) <= DaysIn(month, year) &&
    TwoDigits(s, 11) < 24 && TwoDigits(s, 14) < 60 && TwoDigits(s, 17) < 60
  }
}
