/**
 * How the transcription worker cuts the audio into windows
 * (transcriptionWorker.ts, lines 47-56 and 82): 30-second windows at
 * 16 kHz, each one starting 5 seconds before the previous one ended.
 */
module Windowing {
  const SampleRate: nat := 16000
  const ChunkSize: nat := 16000 * 30
  const Overlap: nat := 16000 * 5

  /** The samples `[start, end)` handed to the recogniser in one round. */
  datatype Window = Window(start: nat, end: nat)

  /** The window of the round entered with `processed` samples done. */
  function NextWindow(len: nat, processed: nat): (w: Window)
    requires processed < len
    ensures w.start <= processed < w.end <= len
    ensures w.end - w.start <= ChunkSize
    ensures w.start + Overlap >= processed
  {
    var start := if processed >= Overlap then processed - Overlap else 0;
    var end := if start + ChunkSize <= len then start + ChunkSize else len;
    Window(start, end)
  }

  /** The windows of the rounds still to come once `processed` samples are
      done: the loop runs while `processed < len` and then sets
      `processed` to the window's end. */
  function WindowsFrom(len: nat, processed: nat): (ws: seq<Window>)
    ensures forall i :: 0 <= i < |ws| ==> ws[i].start < ws[i].end <= len
    decreases len - processed
  {
    if processed >= len then []
    else
      var w := NextWindow(len, processed);
      [w] + WindowsFrom(len, w.end)
  }

  /** Every window of a whole run, in order. */
  function Windows(len: nat): (ws: seq<Window>)
    ensures forall i :: 0 <= i < |ws| ==> ws[i].start < ws[i].end <= len
  {
    WindowsFrom(len, 0)
  }

  /** The number of rounds for `len` samples: one for up to 30 seconds, then
      one more per started 25 seconds. */
  function RoundCount(len: nat): nat {
    if len == 0 then 0
    else if len <= ChunkSize then 1
    else 1 + (len - ChunkSize + (ChunkSize - Overlap - 1)) / (ChunkSize - Overlap)
  }

  /** Windows are at most 30 seconds long and every window but the last
      is a full 30 seconds; the last one ends at the end of the audio. */
  lemma {:induction false} WindowsFromSizes(len: nat, processed: nat)
    ensures var ws := WindowsFrom(len, processed);
      && (ws == [] <==> processed >= len)
      && (ws != [] ==> ws[0] == NextWindow(len, processed) && ws[|ws| - 1].end == len)
      && (forall i :: 0 <= i < |ws| ==> ws[i].end - ws[i].start <= ChunkSize)
      && (forall i :: 0 <= i < |ws| - 1 ==> ws[i].end - ws[i].start == ChunkSize)
    decreases len - processed
  {
    if processed < len {
      var w := NextWindow(len, processed);
      WindowsFromSizes(len, w.end);
      var ws := WindowsFrom(len, processed);
      var rest := WindowsFrom(len, w.end);
      assert ws == [w] + rest;
      forall i | 0 <= i < |ws| - 1 ensures ws[i].end - ws[i].start == ChunkSize {
        if i > 0 {
          assert ws[i] == rest[i - 1];
        }
      }
    }
  }

  /** Each window after the first starts 5 seconds before its predecessor
      ended and ends later than it. */
  lemma {:induction false} WindowsFromLinks(len: nat, processed: nat)
    requires processed == 0 || ChunkSize <= processed || len <= processed
    ensures var ws := WindowsFrom(len, processed);
      && (forall i :: 0 < i < |ws| ==> ws[i].start + Overlap == ws[i - 1].end)
      && (forall i :: 0 < i < |ws| ==> ws[i - 1].end < ws[i].end)
      && (ws != [] ==> processed < ws[0].end)
    decreases len - processed
  {
    if processed < len {
      var w := NextWindow(len, processed);
      if w.end < len {
        assert w.end == w.start + ChunkSize;
      }
      WindowsFromLinks(len, w.end);
      var ws := WindowsFrom(len, processed);
      var rest := WindowsFrom(len, w.end);
      assert ws == [w] + rest;
      forall i | 0 < i < |ws| ensures ws[i].start + Overlap == ws[i - 1].end && ws[i - 1].end < ws[i].end {
        assert ws[i] == rest[i - 1];
        if i > 1 {
          assert ws[i - 1] == rest[i - 2];
        }
      }
    }
  }

  lemma WindowsFromShape(len: nat, processed: nat)
    requires processed == 0 || ChunkSize <= processed || len <= processed
    ensures var ws := WindowsFrom(len, processed);
      && (ws == [] <==> processed >= len)
      && (ws != [] ==> ws[0] == NextWindow(len, processed) && ws[|ws| - 1].end == len)
      && (forall i :: 0 <= i < |ws| ==> ws[i].end - ws[i].start <= ChunkSize)
      && (forall i :: 0 <= i < |ws| - 1 ==> ws[i].end - ws[i].start == ChunkSize)
      && (forall i :: 0 < i < |ws| ==> ws[i].start + Overlap == ws[i - 1].end)
      && (forall i :: 0 < i < |ws| ==> ws[i - 1].end < ws[i].end)
      && (ws != [] ==> processed < ws[0].end)
  {
    WindowsFromSizes(len, processed);
    WindowsFromLinks(len, processed);
  }

  lemma WindowsShape(len: nat)
    ensures var ws := Windows(len);
      && (ws == [] <==> len == 0)
      && (ws != [] ==> ws[0].start == 0 && ws[|ws| - 1].end == len)
      && (forall i :: 0 <= i < |ws| ==> ws[i].end - ws[i].start <= ChunkSize)
      && (forall i :: 0 <= i < |ws| - 1 ==> ws[i].end - ws[i].start == ChunkSize)
      && (forall i :: 0 < i < |ws| ==> ws[i].start + Overlap == ws[i - 1].end)
      && (forall i :: 0 < i < |ws| ==> ws[i - 1].end < ws[i].end)
  {
    WindowsFromShape(len, 0);
  }

  /** The windows together cover every sample of the audio. */
  lemma WindowsCover(len: nat, k: nat)
    requires k < len
    ensures exists i :: 0 <= i < |Windows(len)| && Windows(len)[i].start <= k < Windows(len)[i].end
  {
    WindowsShape(len);
    var ws := Windows(len);
    var i := 0;
    while ws[i].end <= k
      invariant 0 <= i < |ws| && ws[i].start <= k
      decreases |ws| - i
    {
      i := i + 1;
    }
  }

  /** The loop runs `RoundCount(len)` rounds. */
  lemma {:induction false} WindowsFromCount(len: nat, processed: nat)
    requires processed == 0 || ChunkSize <= processed || len <= processed
    ensures |WindowsFrom(len, processed)| ==
      if processed >= len then 0
      else if processed == 0 then RoundCount(len)
      else 1 + (len - processed - 1) / (ChunkSize - Overlap)
    decreases len - processed
  {
    if processed < len {
      var w := NextWindow(len, processed);
      WindowsFromCount(len, w.end);
    }
  }

  lemma WindowsCount(len: nat)
    ensures |Windows(len)| == RoundCount(len)
  {
    WindowsFromCount(len, 0);
  }
}
