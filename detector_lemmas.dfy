/** What the detector promises over a sequence of writes, ticks and resets. */
module DetectorLemmas {
  import opened Text
  import opened DetectorText
  import opened Detector

  /** The lines a chunk contributes to the buffer: the non-blank ones, as written. */
  function Stored(lines: seq<string>, kind: string -> LineKind): seq<string> {
    if |lines| == 0 then []
    else
      var l := lines[|lines| - 1];
      Stored(lines[..|lines| - 1], kind) + (if kind(l) != Blank then [l] else [])
  }

  /** The last ten of a sequence of lines. */
  function LastTen(xs: seq<string>): seq<string> {
    if |xs| > MaxRecentLines then xs[|xs| - MaxRecentLines..] else xs
  }

  /** Blank and prompt-like mean what the source tests: empty after
      trimming, and matching a prompt pattern after trimming. */
  lemma ClassifyMeans(line: string)
    ensures Classify(line) == Blank <==> TrimSpace(line) == ""
    ensures Classify(line) == PromptLike <==> TrimSpace(line) != "" && MatchesPromptPattern(TrimSpace(line))
  {}

  /** How one line changes the detector: a blank line changes nothing; any
      other is buffered and stamps the time; the flag goes up (with one box
      of the asking kind) when it is prompt-like and the flag was down. */
  lemma ObserveStep(s: Snapshot, line: string, kind: LineKind, now: nat, box: seq<string> -> seq<string>)
    ensures var r := Observe(s, line, kind, now, box);
      && r.recentLines == (if kind == Blank then s.recentLines else Remember(s.recentLines, line))
      && r.lastLineAt == (if kind == Blank then s.lastLineAt else Some(now))
      && r.warned == (s.warned || kind == PromptLike)
      && r.output == s.output + (if !s.warned && kind == PromptLike then [r.output[|s.output|]] else [])
      && (!s.warned && kind == PromptLike ==> r.output[|s.output|].Box? && r.output[|s.output|].alarm == AskingForInput)
  {}

  lemma RememberLastTen(xs: seq<string>, line: string)
    ensures Remember(LastTen(xs), line) == LastTen(xs + [line])
  {
    var ys := xs + [line];
    if |xs| > MaxRecentLines {
      assert LastTen(xs) + [line] == ys[|ys| - MaxRecentLines - 1..];
    }
  }

  /** The buffer after a run of lines holds the last ten of what it held
      followed by the non-blank lines, untrimmed and in arrival order. */
  lemma {:induction false} RecentWindow(s: Snapshot, lines: seq<string>, now: nat, kind: string -> LineKind, box: seq<string> -> seq<string>)
    requires |s.recentLines| <= MaxRecentLines
    ensures Feed(s, lines, now, kind, box).recentLines == LastTen(s.recentLines + Stored(lines, kind))
    decreases |lines|
  {
    if |lines| == 0 {
      assert s.recentLines + Stored(lines, kind) == s.recentLines;
    } else {
      var init := lines[..|lines| - 1];
      var last := lines[|lines| - 1];
      RecentWindow(s, init, now, kind, box);
      var m := Feed(s, init, now, kind, box);
      ObserveStep(m, last, kind(last), now, box);
      if kind(last) != Blank {
        RememberLastTen(s.recentLines + Stored(init, kind), last);
        assert s.recentLines + Stored(lines, kind) == s.recentLines + Stored(init, kind) + [last];
      } else {
        assert Stored(lines, kind) == Stored(init, kind);
      }
    }
  }

  /** What a successful Write leaves in the buffer: the last ten of the
      earlier lines and the chunk's non-blank lines. Blank lines are never
      buffered. */
  lemma WriteWindow(s: Snapshot, chunk: string, now: nat)
    requires |s.recentLines| <= MaxRecentLines
    ensures var lines := Split(chunk, '\n');
      && AfterWrite(s, chunk, false, now).recentLines == LastTen(s.recentLines + Stored(lines, Classify))
      && forall k :: 0 <= k < |Stored(lines, Classify)| ==>
           TrimSpace(Stored(lines, Classify)[k]) != "" && Stored(lines, Classify)[k] in lines
  {
    var lines := Split(chunk, '\n');
    RecentWindow(s.(output := s.output + [Chunk(chunk)]), lines, now, Classify, BoxFor);
    StoredNonBlank(lines, Classify);
    forall k | 0 <= k < |Stored(lines, Classify)| ensures TrimSpace(Stored(lines, Classify)[k]) != "" {
      ClassifyMeans(Stored(lines, Classify)[k]);
    }
  }

  lemma {:induction false} StoredNonBlank(lines: seq<string>, kind: string -> LineKind)
    ensures forall k :: 0 <= k < |Stored(lines, kind)| ==> kind(Stored(lines, kind)[k]) != Blank && Stored(lines, kind)[k] in lines
    decreases |lines|
  {
    if |lines| > 0 {
      var init := lines[..|lines| - 1];
      StoredNonBlank(init, kind);
      assert forall k :: 0 <= k < |Stored(init, kind)| ==> Stored(lines, kind)[k] == Stored(init, kind)[k];
      assert forall l :: l in init ==> l in lines;
    }
  }

  lemma KindAmongLines(init: seq<string>, last: string, lines: seq<string>, kind: string -> LineKind, k: LineKind)
    requires lines == init + [last]
    ensures (exists j :: 0 <= j < |lines| && kind(lines[j]) == k) ==
            ((exists j :: 0 <= j < |init| && kind(init[j]) == k) || kind(last) == k)
  {
    assert forall j :: 0 <= j < |init| ==> init[j] == lines[j];
    assert lines[|init|] == last;
  }

  /** The warning flag after a run of lines is up exactly when it was up or
      one of the lines is prompt-like; the output grows by one asking box
      exactly when the flag went up, and by nothing otherwise. */
  lemma {:induction false} FeedWarns(s: Snapshot, lines: seq<string>, now: nat, kind: string -> LineKind, box: seq<string> -> seq<string>)
    ensures var r := Feed(s, lines, now, kind, box);
      && r.warned == (s.warned || exists j :: 0 <= j < |lines| && kind(lines[j]) == PromptLike)
      && |r.output| == |s.output| + (if r.warned && !s.warned then 1 else 0)
      && r.output[..|s.output|] == s.output
      && (forall i :: |s.output| <= i < |r.output| ==> r.output[i].Box? && r.output[i].alarm == AskingForInput)
    decreases |lines|
  {
    if |lines| > 0 {
      var init := lines[..|lines| - 1];
      var last := lines[|lines| - 1];
      assert lines == init + [last];
      KindAmongLines(init, last, lines, kind, PromptLike);
      FeedWarns(s, init, now, kind, box);
      var m := Feed(s, init, now, kind, box);
      ObserveStep(m, last, kind(last), now, box);
      var r := Feed(s, lines, now, kind, box);
      assert r.output[..|m.output|] == m.output;
    }
  }

  /** The time is stamped whenever a line of the run is not blank. */
  lemma {:induction false} FeedStamps(s: Snapshot, lines: seq<string>, now: nat, kind: string -> LineKind, box: seq<string> -> seq<string>)
    ensures Feed(s, lines, now, kind, box).lastLineAt ==
      if exists j :: 0 <= j < |lines| && kind(lines[j]) != Blank then Some(now) else s.lastLineAt
    decreases |lines|
  {
    if |lines| > 0 {
      var init := lines[..|lines| - 1];
      var last := lines[|lines| - 1];
      assert lines == init + [last];
      assert forall j :: 0 <= j < |init| ==> init[j] == lines[j];
      assert lines[|init|] == last;
      FeedStamps(s, init, now, kind, box);
      ObserveStep(Feed(s, init, now, kind, box), last, kind(last), now, box);
    }
  }

  /** A successful Write writes the chunk first and then at most one box,
      an asking one, exactly when it raised the flag (which FeedWarns
      relates to the chunk's prompt-like lines). */
  lemma WriteWarns(s: Snapshot, chunk: string, now: nat)
    ensures var r := AfterWrite(s, chunk, false, now);
      && (s.warned ==> r.warned)
      && |r.output| == |s.output| + 1 + (if r.warned && !s.warned then 1 else 0)
      && r.output[..|s.output| + 1] == s.output + [Chunk(chunk)]
      && (forall i :: |s.output| < i < |r.output| ==> r.output[i].Box? && r.output[i].alarm == AskingForInput)
  {
    var s0 := s.(output := s.output + [Chunk(chunk)]);
    var lines := Split(chunk, '\n');
    assert AfterWrite(s, chunk, false, now) == Feed(s0, lines, now, Classify, BoxFor);
    FeedWarns(s0, lines, now, Classify, BoxFor);
  }

  // ----- one warning between resets -----

  /** What happens to a detector: a chunk written (and whether the wrapped
      writer failed), a stall-check tick, or a Reset. */
  datatype Event = Wrote(chunk: string, writeFailed: bool, at: nat) | Tick(at: nat) | Cleared

  function Apply(s: Snapshot, e: Event): Snapshot {
    match e
    case Wrote(chunk, failed, at) => AfterWrite(s, chunk, failed, at)
    case Tick(at) => AfterTick(s, at)
    case Cleared => AfterReset(s)
  }

  function Replay(s: Snapshot, events: seq<Event>): Snapshot
    decreases |events|
  {
    if |events| == 0 then s else Replay(Apply(s, events[0]), events[1..])
  }

  /** The number of warning boxes in an output. */
  function Boxes(out: seq<Output>): nat {
    if |out| == 0 then 0 else Boxes(out[..|out| - 1]) + (if out[|out| - 1].Box? then 1 else 0)
  }

  lemma {:induction false} BoxesAppend(a: seq<Output>, b: seq<Output>)
    ensures Boxes(a + b) == Boxes(a) + Boxes(b)
    decreases |b|
  {
    if |b| == 0 {
      assert a + b == a;
    } else {
      assert (a + b)[..|a + b| - 1] == a + b[..|b| - 1];
      BoxesAppend(a, b[..|b| - 1]);
    }
  }

  /** One event other than Reset: the flag never comes down, and the
      number of boxes grows by one exactly when the flag goes up. */
  lemma EventWarnsOnce(s: Snapshot, e: Event)
    requires !e.Cleared?
    ensures var r := Apply(s, e);
      (s.warned ==> r.warned) && Boxes(r.output) == Boxes(s.output) + (if r.warned && !s.warned then 1 else 0)
  {
    match e {
      case Wrote(chunk, failed, at) =>
        if !failed {
          var s0 := s.(output := s.output + [Chunk(chunk)]);
          assert Boxes(s0.output) == Boxes(s.output) by {
            BoxesAppend(s.output, [Chunk(chunk)]);
            assert Boxes([Chunk(chunk)]) == 0;
          }
          FeedBoxes(s0, Split(chunk, '\n'), at, Classify, BoxFor);
        }
      case Tick(at) =>
        if StallDue(s, at) {
          var box := Box(Stalled, BoxFor(s.recentLines));
          BoxesAppend(s.output, [box]);
          assert Boxes([box]) == Boxes([box][..0]) + 1;
        }
    }
  }

  /** Feeding lines adds one box exactly when the flag goes up. */
  lemma FeedBoxes(s: Snapshot, lines: seq<string>, now: nat, kind: string -> LineKind, box: seq<string> -> seq<string>)
    ensures var r := Feed(s, lines, now, kind, box);
      (s.warned ==> r.warned) && Boxes(r.output) == Boxes(s.output) + (if r.warned && !s.warned then 1 else 0)
  {
    FeedWarns(s, lines, now, kind, box);
    var r := Feed(s, lines, now, kind, box);
    var added := r.output[|s.output|..];
    assert r.output == s.output + added;
    BoxesAppend(s.output, added);
    if |added| == 1 {
      assert Boxes(added) == Boxes(added[..0]) + 1;
    } else {
      assert added == [];
    }
  }

  /** Between two Resets at most one warning is shown, whether it comes
      from a prompt-like line or from a stall: the boxes added are exactly
      one if the flag went up and none otherwise. */
  lemma {:induction false} OneWarningBetweenResets(s: Snapshot, events: seq<Event>)
    requires forall k :: 0 <= k < |events| ==> !events[k].Cleared?
    ensures var r := Replay(s, events);
      (s.warned ==> r.warned) && Boxes(r.output) == Boxes(s.output) + (if r.warned && !s.warned then 1 else 0)
    decreases |events|
  {
    if |events| > 0 {
      EventWarnsOnce(s, events[0]);
      OneWarningBetweenResets(Apply(s, events[0]), events[1..]);
    }
  }

  // ----- the stall check -----

  /** A tick changes the detector only when a line has been seen, more than
      thirty seconds before, and no warning has been shown; it then shows
      the stall box once. */
  lemma StallCheck(s: Snapshot, now: nat)
    ensures AfterTick(s, now) != s <==> StallDue(s, now)
    ensures StallDue(s, now) ==> AfterTick(s, now).warned && !StallDue(AfterTick(s, now), now)
  {
    if StallDue(s, now) {
      assert |AfterTick(s, now).output| == |s.output| + 1;
    }
  }

  /** After a Reset no tick warns until a non-blank line is written. */
  lemma ResetSilencesStalls(s: Snapshot, lines: seq<string>, now: nat, later: nat)
    requires forall j :: 0 <= j < |lines| ==> TrimSpace(lines[j]) == ""
    ensures !StallDue(Feed(AfterReset(s), lines, now, Classify, BoxFor), later)
  {
    forall j | 0 <= j < |lines| ensures Classify(lines[j]) == Blank {
      ClassifyMeans(lines[j]);
    }
    FeedStamps(AfterReset(s), lines, now, Classify, BoxFor);
  }

  /** A written non-blank line stamps the time: once more than thirty
      seconds pass with nothing else written, the next tick warns unless a
      warning was already shown. */
  lemma SilenceAfterOutputWarns(s: Snapshot, chunk: string, now: nat, later: nat)
    requires exists j :: 0 <= j < |Split(chunk, '\n')| && TrimSpace(Split(chunk, '\n')[j]) != ""
    requires later > now + StallAfter
    ensures var r := AfterWrite(s, chunk, false, now);
      !r.warned ==> StallDue(r, later) && AfterTick(r, later).warned
  {
    var lines := Split(chunk, '\n');
    var j :| 0 <= j < |lines| && TrimSpace(lines[j]) != "";
    ClassifyMeans(lines[j]);
    FeedStamps(s.(output := s.output + [Chunk(chunk)]), lines, now, Classify, BoxFor);
  }
}
