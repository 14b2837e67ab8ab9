/**
 * The transcription worker (transcriptionWorker.ts): it receives the whole
 * recording as 16 kHz samples, runs the recogniser window by window,
 * posts a progress event before the first window and after each one,
 * and finally posts the transcript or an error message.
 *
 * The recogniser is a parameter: a total function from a window's samples
 * to what the call returns or throws.
 */
module TranscriptionWorker {
  import opened Wrappers
  import opened Failures
  import opened Strings
  import opened Windowing
  import opened Segments
  import opened TextCleanup
  import opened Sequences

  /** The `data` of a `progress` message. */
  datatype Progress = Progress(progress: nat, currentTime: nat, totalDuration: nat, text: string)

  /** The `data` of a `complete` message. */
  datatype Transcript = Transcript(text: string, chunks: seq<Segment>)

  /** What one recogniser call does: return (with or without `chunks`) or throw. */
  datatype EngineReply = Output(chunks: Option<seq<RawSegment>>) | Threw(error: Thrown)

  /** The progress events one call of `transcribe` posts, and what it returns
      or throws. */
  datatype Run = Run(events: seq<Progress>, outcome: Result<Transcript, Thrown>)

  const StartText := "开始转录..."

  /** `Math.floor(Math.max(1, n / 16000))`: whole seconds, at least one. */
  function TotalDuration(len: nat): (d: nat)
    ensures 1 <= d
    ensures len >= SampleRate ==> d * SampleRate <= len < (d + 1) * SampleRate
    ensures len < SampleRate ==> d == 1
  {
    if len / SampleRate >= 1 then len / SampleRate else 1
  }

  /** `Math.floor(Math.min(100, done / len * 100))` on exact numbers. */
  function Percent(done: nat, len: nat): (p: nat)
    requires 0 < len && done <= len
  {
    done * 100 / len
  }

  /** The percentage is at most 100, and 100 exactly when everything is done. */
  lemma PercentSpec(done: nat, len: nat)
    requires 0 < len && done <= len
    ensures Percent(done, len) <= 100
    ensures Percent(done, len) == 100 <==> done == len
  {
    var q := done * 100 / len;
    assert q * len <= done * 100 < q * len + len;
    assert done * 100 <= 100 * len;
    if q >= 101 {
      MulMonotone(101, q, len);
      assert false;
    }
    if done == len && q <= 99 {
      MulMonotone(q + 1, 100, len);
      assert false;
    }
    if done < len && q >= 100 {
      MulMonotone(100, q, len);
      assert false;
    }
  }

  /** More samples done never shows a smaller percentage. */
  lemma PercentMonotone(a: nat, b: nat, len: nat)
    requires 0 < len && a <= b <= len
    ensures Percent(a, len) <= Percent(b, len)
  {
    DivMonotone(a * 100, b * 100, len);
  }

  function InitialProgress(len: nat): Progress {
    Progress(0, 0, TotalDuration(len), StartText)
  }

  /** The segments after one round: the round's shifted segments appended
      (when the reply has `chunks`), then everything sorted by start. */
  function Collect(segs: seq<Segment>, chunks: Option<seq<RawSegment>>, windowStart: nat): seq<Segment> {
    SortByStart(segs + RoundSegments(chunks, windowStart))
  }

  /** The shifted segments one round contributes. */
  function RoundSegments(chunks: Option<seq<RawSegment>>, windowStart: nat): seq<Segment> {
    match chunks
    case Some(c) => AdjustAll(c, windowStart)
    case None => []
  }

  /** The transcript returned for the collected segments. */
  function Finish(segs: seq<Segment>): Transcript {
    var sorted := SortByStart(segs);
    Transcript(FinalText(JoinTexts(sorted)), sorted)
  }

  /** Every window is non-empty and inside a recording of `len` samples. */
  predicate Inside(ws: seq<Window>, len: nat) {
    forall i :: 0 <= i < |ws| ==> ws[i].start < ws[i].end <= len
  }

  /** The progress event posted after a round that ended at `end`. */
  function RoundEvent(len: nat, end: nat, segs: seq<Segment>): Progress
    requires 0 < end <= len
  {
    Progress(Percent(end, len), end / SampleRate, TotalDuration(len), JoinTexts(segs))
  }

  /** The rounds over the windows `ws`, given the segments collected so far. */
  function RunWindows(audio: seq<real>, engine: seq<real> -> EngineReply, ws: seq<Window>, segs: seq<Segment>): Run
    requires Inside(ws, |audio|)
    decreases |ws|
  {
    if ws == [] then Run([], Ok(Finish(segs)))
    else
      match engine(audio[ws[0].start..ws[0].end])
      case Threw(e) => Run([], Err(e))
      case Output(chunks) =>
        var next := Collect(segs, chunks, ws[0].start);
        var rest := RunWindows(audio, engine, ws[1..], next);
        Run([RoundEvent(|audio|, ws[0].end, next)] + rest.events, rest.outcome)
  }

  /** `transcribe(audioArray)` once the recogniser is loaded. */
  function TranscribeSpec(audio: seq<real>, engine: seq<real> -> EngineReply): Run {
    var r := RunWindows(audio, engine, Windows(|audio|), []);
    Run([InitialProgress(|audio|)] + r.events, r.outcome)
  }

  lemma WindowsFromStep(len: nat, processed: nat)
    requires processed < len
    ensures var w := NextWindow(len, processed);
      && WindowsFrom(len, processed) == [w] + WindowsFrom(len, w.end)
      && WindowsFrom(len, processed)[0] == w
      && WindowsFrom(len, processed)[1..] == WindowsFrom(len, w.end)
  {
  }

  lemma CollectCases(segs: seq<Segment>, chunks: Option<seq<RawSegment>>, windowStart: nat)
    ensures chunks.Some? ==> Collect(segs, chunks, windowStart) == SortByStart(segs + AdjustAll(chunks.value, windowStart))
    ensures chunks.None? ==> Collect(segs, chunks, windowStart) == SortByStart(segs)
  {
    if chunks.None? {
      AppendNil(segs);
    }
  }

  /** The round entered with `processed` samples done, when the recogniser
      call returns: one event, then the rounds from the window's end. */
  lemma RoundReturns(audio: seq<real>, engine: seq<real> -> EngineReply, processed: nat, segs: seq<Segment>, chunks: Option<seq<RawSegment>>)
    requires processed < |audio|
    requires var w := NextWindow(|audio|, processed);
      engine(audio[w.start..w.end]) == Output(chunks)
    ensures var w := NextWindow(|audio|, processed);
      var next := Collect(segs, chunks, w.start);
      var rest := RunWindows(audio, engine, WindowsFrom(|audio|, w.end), next);
      RunWindows(audio, engine, WindowsFrom(|audio|, processed), segs)
        == Run([RoundEvent(|audio|, w.end, next)] + rest.events, rest.outcome)
  {
    WindowsFromStep(|audio|, processed);
  }

  /** The round entered with `processed` samples done, when the recogniser
      call throws: no event, and the run fails with that error. */
  lemma RoundThrows(audio: seq<real>, engine: seq<real> -> EngineReply, processed: nat, segs: seq<Segment>, e: Thrown)
    requires processed < |audio|
    requires var w := NextWindow(|audio|, processed);
      engine(audio[w.start..w.end]) == Threw(e)
    ensures RunWindows(audio, engine, WindowsFrom(|audio|, processed), segs) == Run([], Err(e))
  {
    WindowsFromStep(|audio|, processed);
  }

  /** The loop of `transcribe`, round by round. */
  method Transcribe(audio: seq<real>, engine: seq<real> -> EngineReply) returns (run: Run)
    ensures run == TranscribeSpec(audio, engine)
  {
    var events := [InitialProgress(|audio|)];
    var processed: nat := 0;
    var segs: seq<Segment> := [];
    while processed < |audio|
      invariant var r := RunWindows(audio, engine, WindowsFrom(|audio|, processed), segs);
        TranscribeSpec(audio, engine) == Run(events + r.events, r.outcome)
      decreases |audio| - processed
    {
      var start := if processed >= Overlap then processed - Overlap else 0;
      var end := if start + ChunkSize <= |audio| then start + ChunkSize else |audio|;
      assert NextWindow(|audio|, processed) == Window(start, end);
      ghost var before := segs;
      var reply := engine(audio[start..end]);
      if reply.Threw? {
        RoundThrows(audio, engine, processed, segs, reply.error);
        return Run(events, Err(reply.error));
      }
      RoundReturns(audio, engine, processed, segs, reply.chunks);
      CollectCases(segs, reply.chunks, start);
      if reply.chunks.Some? {
        segs := segs + AdjustAll(reply.chunks.value, start);
      }
      segs := SortByStart(segs);
      ghost var rest := RunWindows(audio, engine, WindowsFrom(|audio|, end), segs);
      var event := Progress(Percent(end, |audio|), end / SampleRate, TotalDuration(|audio|), JoinTexts(segs));
      assert event == RoundEvent(|audio|, end, segs);
      AppendAssoc(events, [event], rest.events);
      events := events + [event];
      processed := end;
    }
    segs := SortByStart(segs);
    run := Run(events, Ok(Transcript(FinalText(JoinTexts(segs)), segs)));
  }

  // ------------------------------------------------- what a run consists of

  /** The shifted segments of the rounds `ws`, in the order they arrive. */
  function Arrivals(audio: seq<real>, engine: seq<real> -> EngineReply, ws: seq<Window>): seq<Segment>
    requires Inside(ws, |audio|)
  {
    if ws == [] then []
    else
      var head := match engine(audio[ws[0].start..ws[0].end])
        case Output(chunks) => RoundSegments(chunks, ws[0].start)
        case Threw(_) => [];
      head + Arrivals(audio, engine, ws[1..])
  }

  /** The error thrown by the first round that throws, if any. */
  function FirstThrow(audio: seq<real>, engine: seq<real> -> EngineReply, ws: seq<Window>): Option<Thrown>
    requires Inside(ws, |audio|)
  {
    if ws == [] then None
    else match engine(audio[ws[0].start..ws[0].end])
      case Threw(e) => Some(e)
      case Output(_) => FirstThrow(audio, engine, ws[1..])
  }

  /** `FirstThrow` is the error of a call that throws and is absent exactly
      when no call throws. */
  lemma {:induction false} FirstThrowSpec(audio: seq<real>, engine: seq<real> -> EngineReply, ws: seq<Window>)
    requires Inside(ws, |audio|)
    ensures FirstThrow(audio, engine, ws).None? <==>
      forall i :: 0 <= i < |ws| ==> engine(audio[ws[i].start..ws[i].end]).Output?
    ensures FirstThrow(audio, engine, ws).Some? ==>
      exists i :: 0 <= i < |ws| && engine(audio[ws[i].start..ws[i].end]) == Threw(FirstThrow(audio, engine, ws).value)
  {
    if ws != [] {
      FirstThrowSpec(audio, engine, ws[1..]);
      var tail := ws[1..];
      if FirstThrow(audio, engine, tail).Some? && engine(audio[ws[0].start..ws[0].end]).Output? {
        var i :| 0 <= i < |tail| && engine(audio[tail[i].start..tail[i].end]) == Threw(FirstThrow(audio, engine, tail).value);
        assert ws[i + 1] == tail[i];
      }
      if FirstThrow(audio, engine, tail).None? && engine(audio[ws[0].start..ws[0].end]).Output? {
        forall i | 0 <= i < |ws| ensures engine(audio[ws[i].start..ws[i].end]).Output? {
          if i > 0 {
            assert ws[i] == tail[i - 1];
          }
        }
      }
    }
  }

  /** The rounds stop with the error of the first window whose recogniser
      call throws. */
  lemma {:induction false} RunWindowsFailure(audio: seq<real>, engine: seq<real> -> EngineReply, ws: seq<Window>, segs: seq<Segment>)
    requires Inside(ws, |audio|)
    requires FirstThrow(audio, engine, ws).Some?
    ensures RunWindows(audio, engine, ws, segs).outcome == Err(FirstThrow(audio, engine, ws).value)
    decreases |ws|
  {
    match engine(audio[ws[0].start..ws[0].end]) {
      case Threw(_) =>
      case Output(chunks) =>
        RunWindowsFailure(audio, engine, ws[1..], Collect(segs, chunks, ws[0].start));
    }
  }

  /** When no call throws, the rounds post one event per window. */
  lemma {:induction false} RunWindowsEventCount(audio: seq<real>, engine: seq<real> -> EngineReply, ws: seq<Window>, segs: seq<Segment>)
    requires Inside(ws, |audio|)
    requires FirstThrow(audio, engine, ws).None?
    ensures |RunWindows(audio, engine, ws, segs).events| == |ws|
    decreases |ws|
  {
    if ws != [] {
      var reply := engine(audio[ws[0].start..ws[0].end]);
      assert reply.Output?;
      RunWindowsEventCount(audio, engine, ws[1..], Collect(segs, reply.chunks, ws[0].start));
    }
  }

  /** When no call throws, the rounds return the stable sort of everything
      collected so far followed by everything still to arrive. */
  lemma {:induction false} RunWindowsSuccess(audio: seq<real>, engine: seq<real> -> EngineReply, ws: seq<Window>, segs: seq<Segment>)
    requires Inside(ws, |audio|)
    requires FirstThrow(audio, engine, ws).None?
    ensures RunWindows(audio, engine, ws, segs).outcome == Ok(Finish(segs + Arrivals(audio, engine, ws)))
    decreases |ws|
  {
    if ws == [] {
      assert segs + [] == segs;
    } else {
      var reply := engine(audio[ws[0].start..ws[0].end]);
      assert reply.Output?;
      var head := RoundSegments(reply.chunks, ws[0].start);
      var rest := Arrivals(audio, engine, ws[1..]);
      var next := Collect(segs, reply.chunks, ws[0].start);
      RunWindowsSuccess(audio, engine, ws[1..], next);
      assert RunWindows(audio, engine, ws, segs).outcome == Ok(Finish(next + rest));
      assert SortByStart(next + rest) == SortByStart(segs + Arrivals(audio, engine, ws)) by {
        assert Arrivals(audio, engine, ws) == head + rest;
        SortAppend(segs + head, rest);
        AppendAssoc(segs, head, rest);
      }
    }
  }

  /** A whole run: the recogniser sees every window once, in order; the run
      fails with the first error it throws; otherwise the transcript's
      segments are all the shifted segments, sorted by start, stably, with
      nothing lost or added, and its text is the cleaned-up join of their
      texts. */
  lemma TranscribeOutcome(audio: seq<real>, engine: seq<real> -> EngineReply)
    ensures var ws := Windows(|audio|);
      var run := TranscribeSpec(audio, engine);
      && (FirstThrow(audio, engine, ws).Some? <==> run.outcome.Err?)
      && (run.outcome.Err? ==> run.outcome.error == FirstThrow(audio, engine, ws).value)
      && (run.outcome.Ok? ==>
            var all := Arrivals(audio, engine, ws);
            && run.outcome.value.chunks == SortByStart(all)
            && Sorted(run.outcome.value.chunks)
            && multiset(run.outcome.value.chunks) == multiset(all)
            && (forall t :: WithStart(run.outcome.value.chunks, t) == WithStart(all, t))
            && run.outcome.value.text == FinalText(JoinTexts(run.outcome.value.chunks))
            && |run.events| == 1 + RoundCount(|audio|))
  {
    var ws := Windows(|audio|);
    if FirstThrow(audio, engine, ws).Some? {
      RunWindowsFailure(audio, engine, ws, []);
    } else {
      RunWindowsSuccess(audio, engine, ws, []);
      RunWindowsEventCount(audio, engine, ws, []);
      var all := Arrivals(audio, engine, ws);
      assert [] + all == all;
      SortByStartSpec(all);
      WindowsCount(|audio|);
    }
  }

  /** The round events report the end of their window, in whole seconds and
      as a percentage, with the recording's total duration. */
  lemma {:induction false} RunWindowsEvents(audio: seq<real>, engine: seq<real> -> EngineReply, ws: seq<Window>, segs: seq<Segment>)
    requires Inside(ws, |audio|)
    ensures var ev := RunWindows(audio, engine, ws, segs).events;
      && |ev| <= |ws|
      && (forall i :: 0 <= i < |ev| ==>
            && ev[i].progress == Percent(ws[i].end, |audio|)
            && ev[i].currentTime == ws[i].end / SampleRate
            && ev[i].totalDuration == TotalDuration(|audio|))
    decreases |ws|
  {
    if ws != [] {
      match engine(audio[ws[0].start..ws[0].end]) {
        case Threw(_) =>
        case Output(chunks) =>
          RunWindowsEvents(audio, engine, ws[1..], Collect(segs, chunks, ws[0].start));
      }
    }
  }

  /** The running text of a round event is the join of everything collected
      up to and including that round, sorted by start; no clean-up step is
      applied to it. */
  lemma {:induction false} RunWindowsText(audio: seq<real>, engine: seq<real> -> EngineReply, ws: seq<Window>, segs: seq<Segment>, i: nat)
    requires Inside(ws, |audio|)
    requires i < |RunWindows(audio, engine, ws, segs).events|
    ensures i < |ws|
    ensures RunWindows(audio, engine, ws, segs).events[i].text
      == JoinTexts(SortByStart(segs + Arrivals(audio, engine, ws[..i + 1])))
    decreases i
  {
    var reply := engine(audio[ws[0].start..ws[0].end]);
    assert reply.Output?;
    var head := RoundSegments(reply.chunks, ws[0].start);
    var next := Collect(segs, reply.chunks, ws[0].start);
    var tail := ws[1..];
    var rest := RunWindows(audio, engine, tail, next).events;
    assert RunWindows(audio, engine, ws, segs).events == [RoundEvent(|audio|, ws[0].end, next)] + rest;
    if i > 0 {
      RunWindowsText(audio, engine, tail, next, i - 1);
    }
    var later := Arrivals(audio, engine, tail[..i]);
    assert Arrivals(audio, engine, ws[..i + 1]) == head + later by {
      var upto := ws[..i + 1];
      assert upto[0] == ws[0] && upto[1..] == tail[..i];
    }
    if i == 0 {
      assert head + later == head;
    } else {
      assert rest[i - 1].text == JoinTexts(SortByStart(next + later)) by {
        assert tail[..i - 1 + 1] == tail[..i];
      }
      SortAppend(segs + head, later);
      AppendAssoc(segs, head, later);
    }
  }

  /** The running text of every progress event after the initial one: the
      trimmed, non-empty texts of all segments received so far, sorted by
      start and joined by single spaces. */
  lemma TranscribeRunningText(audio: seq<real>, engine: seq<real> -> EngineReply, i: nat)
    requires 1 <= i < |TranscribeSpec(audio, engine).events|
    ensures i <= |Windows(|audio|)|
    ensures TranscribeSpec(audio, engine).events[i].text
      == JoinTexts(SortByStart(Arrivals(audio, engine, Windows(|audio|)[..i])))
  {
    var ws := Windows(|audio|);
    assert TranscribeSpec(audio, engine).events == [InitialProgress(|audio|)] + RunWindows(audio, engine, ws, []).events;
    FirstRoundsText(audio, engine, ws, [InitialProgress(|audio|)], i);
  }

  /** The same text, counted from the initial event. */
  lemma FirstRoundsText(audio: seq<real>, engine: seq<real> -> EngineReply, ws: seq<Window>, first: seq<Progress>, i: nat)
    requires Inside(ws, |audio|) && |first| == 1
    requires 1 <= i < 1 + |RunWindows(audio, engine, ws, []).events|
    ensures i <= |ws|
    ensures (first + RunWindows(audio, engine, ws, []).events)[i].text
      == JoinTexts(SortByStart(Arrivals(audio, engine, ws[..i])))
  {
    var rounds := RunWindows(audio, engine, ws, []).events;
    assert (first + rounds)[i] == rounds[i - 1];
    RunWindowsText(audio, engine, ws, [], i - 1);
    var got := Arrivals(audio, engine, ws[..i]);
    assert rounds[i - 1].text == JoinTexts(SortByStart(got)) by {
      assert ws[..i - 1 + 1] == ws[..i];
      AppendNilLeft(got);
    }
  }

  /** The events a run posts: the first is the initial one, and every event
      carries the same total duration and a percentage of at most 100. */
  lemma TranscribeEvents(audio: seq<real>, engine: seq<real> -> EngineReply)
    ensures var ev := TranscribeSpec(audio, engine).events;
      && |ev| >= 1
      && ev[0] == InitialProgress(|audio|)
      && (forall i :: 0 <= i < |ev| ==> ev[i].totalDuration == TotalDuration(|audio|) && ev[i].progress <= 100)
  {
    var ws := Windows(|audio|);
    var ev := TranscribeSpec(audio, engine).events;
    var rounds := RunWindows(audio, engine, ws, []).events;
    RunWindowsEvents(audio, engine, ws, []);
    assert ev == [InitialProgress(|audio|)] + rounds;
    forall i | 0 < i < |ev| ensures ev[i].progress <= 100 {
      assert ev[i] == rounds[i - 1];
      PercentSpec(ws[i - 1].end, |audio|);
    }
  }

  /** Progress and current time never go down from one event to the next. */
  lemma TranscribeProgressMonotone(audio: seq<real>, engine: seq<real> -> EngineReply)
    ensures var ev := TranscribeSpec(audio, engine).events;
      forall i :: 0 < i < |ev| ==> ev[i - 1].progress <= ev[i].progress && ev[i - 1].currentTime <= ev[i].currentTime
  {
    var ws := Windows(|audio|);
    var ev := TranscribeSpec(audio, engine).events;
    var rounds := RunWindows(audio, engine, ws, []).events;
    RunWindowsEvents(audio, engine, ws, []);
    WindowsShape(|audio|);
    assert ev == [InitialProgress(|audio|)] + rounds;
    forall i | 0 < i < |ev| ensures ev[i - 1].progress <= ev[i].progress && ev[i - 1].currentTime <= ev[i].currentTime {
      if i > 1 {
        assert ev[i - 1] == rounds[i - 2] && ev[i] == rounds[i - 1];
        PercentMonotone(ws[i - 2].end, ws[i - 1].end, |audio|);
        DivMonotone(ws[i - 2].end, ws[i - 1].end, SampleRate);
      }
    }
  }

  /** A run that succeeds on a non-empty recording ends at 100 percent, at
      the recording's length in whole seconds. */
  lemma TranscribeEndsAtHundred(audio: seq<real>, engine: seq<real> -> EngineReply)
    requires TranscribeSpec(audio, engine).outcome.Ok? && |audio| > 0
    ensures var ev := TranscribeSpec(audio, engine).events;
      ev[|ev| - 1].progress == 100 && ev[|ev| - 1].currentTime == |audio| / SampleRate
  {
    var ws := Windows(|audio|);
    var rounds := RunWindows(audio, engine, ws, []).events;
    RunWindowsEvents(audio, engine, ws, []);
    if FirstThrow(audio, engine, ws).Some? {
      RunWindowsFailure(audio, engine, ws, []);
    }
    RunWindowsEventCount(audio, engine, ws, []);
    WindowsShape(|audio|);
    assert |rounds| == |ws|;
    PercentSpec(|audio|, |audio|);
  }

  lemma MulMonotone(x: nat, y: nat, d: nat)
    requires x <= y
    ensures x * d <= y * d
  {
    var k: nat := y - x;
    assert y * d == x * d + k * d;
  }

  lemma DivMonotone(a: nat, b: nat, d: nat)
    requires a <= b && 0 < d
    ensures a / d <= b / d
  {
    var qa, qb := a / d, b / d;
    assert qa * d <= a;
    assert b < (qb + 1) * d;
    if qb + 1 <= qa {
      MulMonotone(qb + 1, qa, d);
      assert false;
    }
  }

  /** An empty recording posts only the initial event and gives an empty
      transcript. */
  lemma TranscribeEmpty(engine: seq<real> -> EngineReply)
    ensures TranscribeSpec([], engine) == Run([Progress(0, 0, 1, StartText)], Ok(Transcript("", [])))
  {
    var none: seq<Segment> := [];
    assert Windows(0) == [];
    assert Finish(none) == Transcript("", []) by {
      assert SortByStart(none) == none;
      assert Texts(none) == [];
      assert JoinTexts(none) == "";
      assert |FinalText("")| == 0;
    }
    assert RunWindows([], engine, [], none) == Run([], Ok(Transcript("", [])));
    assert InitialProgress(0) == Progress(0, 0, 1, StartText);
  }

  // ------------------------------------------------- the message handler

  /** What the worker posts to its parent. */
  datatype WorkerMessage = ProgressMessage(data: Progress) | CompleteMessage(result: Transcript) | ErrorMessage(message: string)

  /** How the one-time model load inside the worker ends. */
  datatype LoadOutcome = Loaded | LoadFailed(error: Thrown)

  const NoAudioText := "未收到音频数据"
  const FailedText := "转录失败"

  /** The `data` of an `error` message for what was thrown. */
  function ErrorText(t: Thrown): (m: string)
    ensures t.Error? ==> m == t.message
    ensures t.NonError? ==> m == FailedText
  {
    MessageOr(t, FailedText)
  }

  function ProgressMessages(events: seq<Progress>): (r: seq<WorkerMessage>)
    ensures |r| == |events|
    ensures forall i :: 0 <= i < |events| ==> r[i] == ProgressMessage(events[i])
  {
    seq(|events|, i requires 0 <= i < |events| => ProgressMessage(events[i]))
  }

  /** Everything one `message` posts, given whether the recogniser was
      already loaded. */
  function HandleSpec(loaded: bool, audio: Option<seq<real>>, load: LoadOutcome, engine: seq<real> -> EngineReply): seq<WorkerMessage> {
    match audio
    case None => [ErrorMessage(NoAudioText)]
    case Some(samples) =>
      if !loaded && load.LoadFailed? then [ErrorMessage(ErrorText(load.error))]
      else
        var run := TranscribeSpec(samples, engine);
        ProgressMessages(run.events) + match run.outcome
          case Ok(t) => [CompleteMessage(t)]
          case Err(e) => [ErrorMessage(ErrorText(e))]
  }

  /** A message always ends with exactly one `complete` or `error` message,
      preceded only by progress messages; a message without audio gets the
      missing-audio error and nothing else. */
  lemma HandleSpecShape(loaded: bool, audio: Option<seq<real>>, load: LoadOutcome, engine: seq<real> -> EngineReply)
    ensures var posted := HandleSpec(loaded, audio, load, engine);
      && |posted| >= 1
      && !posted[|posted| - 1].ProgressMessage?
      && (forall i :: 0 <= i < |posted| - 1 ==> posted[i].ProgressMessage?)
      && (audio.None? ==> posted == [ErrorMessage(NoAudioText)])
      && (posted[|posted| - 1].CompleteMessage? ==> audio.Some? && (loaded || load.Loaded?))
  {
  }

  /** The worker thread: its only state is whether the recogniser is loaded. */
  class Worker {
    var transcriberLoaded: bool

    constructor ()
      ensures !transcriberLoaded
    {
      transcriberLoaded := false;
    }

    /** The `message` handler: check for audio, load the recogniser on first
        use, transcribe, and post the result or the error. */
    method HandleMessage(audio: Option<seq<real>>, load: LoadOutcome, engine: seq<real> -> EngineReply)
      returns (posted: seq<WorkerMessage>)
      modifies this
      ensures posted == HandleSpec(old(transcriberLoaded), audio, load, engine)
      ensures transcriberLoaded == (old(transcriberLoaded) || (audio.Some? && load.Loaded?))
    {
      if audio.None? {
        posted := [ErrorMessage(NoAudioText)];
        return;
      }
      if !transcriberLoaded {
        if load.LoadFailed? {
          posted := [ErrorMessage(ErrorText(load.error))];
          return;
        }
        transcriberLoaded := true;
      }
      var run := Transcribe(audio.value, engine);
      posted := ProgressMessages(run.events);
      match run.outcome {
        case Ok(t) => posted := posted + [CompleteMessage(t)];
        case Err(e) => posted := posted + [ErrorMessage(ErrorText(e))];
      }
    }
  }
}
