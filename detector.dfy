/** The state of the PromptDetector of internal/loop/promptdetector.go: the
    buffer of recent lines, the warn-once flag shared by prompt and stall
    warnings, and the time of the last line. The wrapped writer is the
    `output` field, which records the forwarded chunks and the warning
    boxes in the order they were written. Time is a parameter in
    nanoseconds; the ticker goroutine, the `done` channel and the mutex
    are not modelled. */
module Detector {
  import opened Text
  import opened Durations
  import opened DetectorText

  const MaxRecentLines: nat := 10
  const StallAfter: nat := 30 * Second
  const BoxWidth: nat := 74

  /** Which warning was shown: a prompt pattern was seen, or output stalled. */
  datatype Alarm = AskingForInput | Stalled

  /** What reached the wrapped writer: a chunk passed through, or a warning
      box with its formatted context lines (the fixed banner text is not
      modelled). */
  datatype Output = Chunk(text: string) | Box(alarm: Alarm, lines: seq<string>)

  /** The detector's fields as a value. */
  datatype Snapshot = Snapshot(recentLines: seq<string>, warned: bool, lastLineAt: Option<nat>, output: seq<Output>)

  /** The context lines, each formatted for the box. */
  function BoxLines(context: seq<string>): (r: seq<string>)
    ensures |r| == |context|
    ensures forall i :: 0 <= i < |r| ==> r[i] == FormatBoxLine(context[i], BoxWidth)
  {
    if |context| == 0 then []
    else BoxLines(context[..|context| - 1]) + [FormatBoxLine(context[|context| - 1], BoxWidth)]
  }

  /** Appending a line to the buffer, dropping the oldest past ten. */
  function Remember(recent: seq<string>, line: string): seq<string> {
    var r := recent + [line];
    if |r| > MaxRecentLines then r[1..] else r
  }

  /** The formatted context lines of a box shown with `recent` buffered. */
  function BoxFor(recent: seq<string>): seq<string> {
    BoxLines(QuestionContext(recent))
  }

  /** A warning: shown once, then suppressed until the flag is cleared. The
      box's lines are `box` of the buffer (BoxFor in the detector). */
  function Alert(s: Snapshot, alarm: Alarm, box: seq<string> -> seq<string>): Snapshot {
    if s.warned then s
    else s.(warned := true, output := s.output + [Box(alarm, box(s.recentLines))])
  }

  /** What a line of a chunk is to the detector: blank after trimming,
      prompt-like after trimming, or neither. */
  datatype LineKind = Blank | Plain | PromptLike

  function Classify(line: string): LineKind {
    var trimmed := TrimSpace(line);
    if trimmed == "" then Blank
    else if MatchesPromptPattern(trimmed) then PromptLike
    else Plain
  }

  /** One line of a written chunk, of the given kind, seen at `now`: a
      blank line is skipped; any other is buffered and stamps the time; a
      prompt-like one raises the warning. */
  function Observe(s: Snapshot, line: string, kind: LineKind, now: nat, box: seq<string> -> seq<string>): Snapshot {
    if kind == Blank then s
    else
      var s' := s.(recentLines := Remember(s.recentLines, line), lastLineAt := Some(now));
      if kind == PromptLike then Alert(s', AskingForInput, box) else s'
  }

  /** The lines of a chunk observed in order, each classified by `kind`. */
  function Feed(s: Snapshot, lines: seq<string>, now: nat, kind: string -> LineKind, box: seq<string> -> seq<string>): Snapshot {
    if |lines| == 0 then s
    else
      var last := lines[|lines| - 1];
      Observe(Feed(s, lines[..|lines| - 1], now, kind, box), last, kind(last), now, box)
  }

  /** Write: forward the chunk; if the wrapped writer failed, stop there. */
  function AfterWrite(s: Snapshot, chunk: string, writeFailed: bool, now: nat): Snapshot {
    if writeFailed then s
    else Feed(s.(output := s.output + [Chunk(chunk)]), Split(chunk, '\n'), now, Classify, BoxFor)
  }

  /** The stall condition checked on every tick. */
  predicate StallDue(s: Snapshot, now: nat) {
    s.lastLineAt.Some? && now - s.lastLineAt.value > StallAfter && !s.warned
  }

  function AfterTick(s: Snapshot, now: nat): Snapshot {
    if StallDue(s, now) then Alert(s, Stalled, BoxFor) else s
  }

  function AfterReset(s: Snapshot): Snapshot {
    s.(warned := false, recentLines := [], lastLineAt := None)
  }

  class PromptDetector {
    var recentLines: seq<string>
    var warned: bool
    var lastLineAt: Option<nat>
    var output: seq<Output>

    function Snap(): Snapshot
      reads this
    {
      Snapshot(recentLines, warned, lastLineAt, output)
    }

    predicate Valid()
      reads this
    {
      |recentLines| <= MaxRecentLines
    }

    /** NewPromptDetector: nothing buffered, nothing written. */
    constructor()
      ensures Valid() && Snap() == Snapshot([], false, None, [])
    {
      recentLines := [];
      warned := false;
      lastLineAt := None;
      output := [];
    }

    /** getQuestionContext: the non-blank lines among the last five, trimmed. */
    method GetQuestionContext() returns (context: seq<string>)
      ensures context == QuestionContext(recentLines)
    {
      if |recentLines| == 0 {
        return [NoContext];
      }
      var start := |recentLines| - ContextDepth;
      if start < 0 {
        start := 0;
      }
      var window := recentLines[start..];
      assert window == LastFive(recentLines);
      context := CollectContext(window);
      if |context| == 0 {
        return [NoContext];
      }
    }

    /** The loop of getQuestionContext: the trimmed lines that are not empty. */
    static method CollectContext(window: seq<string>) returns (context: seq<string>)
      ensures context == NonEmpty(Trims(window))
    {
      context := [];
      for i := 0 to |window|
        invariant context == NonEmpty(Trims(window[..i]))
      {
        var line := TrimSpace(window[i]);
        TrimsSnoc(window, i);
        assert Trims(window[..i + 1])[..i] == Trims(window[..i]);
        if line != "" {
          context := context + [line];
        }
      }
      assert window[..|window|] == window;
    }

    /** The box of a warning, written to the wrapped writer. */
    method ShowBox(alarm: Alarm)
      modifies this
      ensures Snap() == old(Snap()).(output := old(output) + [Box(alarm, BoxFor(recentLines))])
    {
      var context := GetQuestionContext();
      var lines: seq<string> := [];
      for i := 0 to |context|
        invariant lines == BoxLines(context[..i])
      {
        assert context[..i + 1][..i] == context[..i];
        lines := lines + [FormatBoxLine(context[i], BoxWidth)];
      }
      assert context[..|context|] == context;
      output := output + [Box(alarm, lines)];
    }

    /** showWarning: the prompt warning, once until the flag is cleared. */
    method ShowWarning()
      modifies this
      ensures Snap() == Alert(old(Snap()), AskingForInput, BoxFor)
    {
      if warned {
        return;
      }
      warned := true;
      ShowBox(AskingForInput);
    }

    /** One line of a chunk: buffered unless blank, and checked for a prompt. */
    method ObserveLine(line: string, now: nat)
      modifies this
      requires Valid()
      ensures Valid()
      ensures Snap() == Observe(old(Snap()), line, Classify(line), now, BoxFor)
    {
      var trimmed := TrimSpace(line);
      if trimmed == "" {
        assert Classify(line) == Blank;
        return;
      }
      ghost var s0 := Snap();
      recentLines := recentLines + [line];
      if |recentLines| > MaxRecentLines {
        recentLines := recentLines[1..];
      }
      lastLineAt := Some(now);
      assert Snap() == s0.(recentLines := Remember(s0.recentLines, line), lastLineAt := Some(now));
      if MatchesPromptPattern(trimmed) {
        assert Classify(line) == PromptLike;
        ShowWarning();
      } else {
        assert Classify(line) == Plain;
      }
    }

    /** Write: forward the chunk first; on the wrapped writer's error return
        at once; otherwise observe its lines in order. The wrapped writer's
        count and error are given. */
    method Write(chunk: string, written: nat, writeFailed: bool, now: nat) returns (n: nat, failed: bool)
      modifies this
      requires Valid()
      ensures Valid()
      ensures n == written && failed == writeFailed
      ensures Snap() == AfterWrite(old(Snap()), chunk, writeFailed, now)
    {
      n, failed := written, writeFailed;
      if writeFailed {
        return;
      }
      output := output + [Chunk(chunk)];
      var lines := Split(chunk, '\n');
      ghost var start := Snap();
      for i := 0 to |lines|
        invariant Valid()
        invariant Snap() == Feed(start, lines[..i], now, Classify, BoxFor)
      {
        assert lines[..i + 1][..i] == lines[..i];
        ObserveLine(lines[i], now);
      }
      assert lines[..|lines|] == lines;
    }

    /** One tick of monitorStalls: the stall warning when a line has been
        seen, more than thirty seconds ago, and no warning was shown yet. */
    method CheckStall(now: nat)
      modifies this
      ensures Snap() == AfterTick(old(Snap()), now)
    {
      if lastLineAt.Some? && now - lastLineAt.value > StallAfter && !warned {
        warned := true;
        ShowBox(Stalled);
      }
    }

    /** Reset: clear the flag, the buffer and the time of the last line. */
    method Reset()
      modifies this
      ensures Valid()
      ensures Snap() == AfterReset(old(Snap()))
    {
      warned := false;
      recentLines := [];
      lastLineAt := None;
    }
  }
}
