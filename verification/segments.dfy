/**
 * Recognised segments and what the transcription worker does with them
 * (transcriptionWorker.ts, lines 69-79 and 92-96): shift each window's
 * timestamps to the whole recording, keep everything sorted by start time
 * with JavaScript's stable `Array.prototype.sort`, and join the trimmed
 * non-empty texts with single spaces.
 */
module Segments {
  import opened Wrappers
  import opened Strings
  import Windowing

  /** A segment as the recogniser returns it: text and timestamps relative
      to the window, any of them possibly absent. */
  datatype RawSegment = RawSegment(text: Option<string>, start: Option<real>, end: Option<real>)

  /** A segment with timestamps in seconds from the start of the recording. */
  datatype Segment = Segment(text: Option<string>, start: real, end: real)

  /** `(t || 0)`: an absent or zero timestamp counts as 0. */
  function OrZero(t: Option<real>): real {
    t.GetOr(0.0)
  }

  /** Shifts one window's segments by the window's start in seconds. */
  function AdjustAll(raw: seq<RawSegment>, windowStart: nat): (r: seq<Segment>)
    ensures |r| == |raw|
    ensures forall i :: 0 <= i < |raw| ==> r[i].text == raw[i].text
  {
    seq(|raw|, i requires 0 <= i < |raw| =>
      Segment(raw[i].text,
              OrZero(raw[i].start) + (windowStart as real) / (Windowing.SampleRate as real),
              OrZero(raw[i].end) + (windowStart as real) / (Windowing.SampleRate as real)))
  }

  /** Shifting keeps each segment's length and places a segment that starts
      `t` seconds into its window `t` seconds after the window's start. */
  lemma AdjustKeepsDurations(raw: seq<RawSegment>, windowStart: nat, i: nat)
    requires i < |raw|
    ensures var s := AdjustAll(raw, windowStart)[i];
      && s.end - s.start == OrZero(raw[i].end) - OrZero(raw[i].start)
      && s.start * (Windowing.SampleRate as real) == OrZero(raw[i].start) * (Windowing.SampleRate as real) + windowStart as real
  {
  }

  // ---------------------------------------------------------------- sorting

  predicate Sorted(s: seq<Segment>) {
    forall i, j :: 0 <= i < j < |s| ==> s[i].start <= s[j].start
  }

  /** Places `x` after every element that does not start later than it. */
  function Insert(sorted: seq<Segment>, x: Segment): (r: seq<Segment>)
    ensures |r| == |sorted| + 1
    decreases |sorted|
  {
    if sorted == [] || x.start < sorted[0].start then [x] + sorted
    else [sorted[0]] + Insert(sorted[1..], x)
  }

  /** Inserts the elements of `xs` one by one, left to right. */
  function InsertAll(acc: seq<Segment>, xs: seq<Segment>): (r: seq<Segment>)
    ensures |r| == |acc| + |xs|
    decreases |xs|
  {
    if xs == [] then acc else InsertAll(Insert(acc, xs[0]), xs[1..])
  }

  /** `s.sort((a, b) => a.time.start - b.time.start)`: a stable sort by start. */
  function SortByStart(s: seq<Segment>): (r: seq<Segment>)
    ensures |r| == |s|
  {
    InsertAll([], s)
  }

  /** The elements that start at `t`, in their order. */
  function WithStart(s: seq<Segment>, t: real): (r: seq<Segment>)
    ensures |r| <= |s|
  {
    if s == [] then []
    else (if s[0].start == t then [s[0]] else []) + WithStart(s[1..], t)
  }

  lemma {:induction false} WithStartAppend(a: seq<Segment>, b: seq<Segment>, t: real)
    ensures WithStart(a + b, t) == WithStart(a, t) + WithStart(b, t)
    decreases |a|
  {
    if a != [] {
      WithStartAppend(a[1..], b, t);
      var h := if a[0].start == t then [a[0]] else [];
      assert (a + b)[0] == a[0];
      assert (a + b)[1..] == a[1..] + b;
      assert WithStart(a + b, t) == h + WithStart(a[1..] + b, t);
      assert WithStart(a, t) == h + WithStart(a[1..], t);
    } else {
      assert a + b == b;
    }
  }

  /** In a sorted sequence whose first element starts after `t`, nothing
      starts at `t`. */
  lemma {:induction false} SortedWithStart(s: seq<Segment>, t: real)
    requires Sorted(s) && s != [] && t < s[0].start
    ensures WithStart(s, t) == []
    decreases |s|
  {
    if |s| > 1 {
      SortedWithStart(s[1..], t);
    }
  }

  lemma {:induction false} InsertSorted(sorted: seq<Segment>, x: Segment)
    requires Sorted(sorted)
    ensures Sorted(Insert(sorted, x))
    ensures forall y :: y in Insert(sorted, x) ==> y in sorted || y == x
    decreases |sorted|
  {
    if !(sorted == [] || x.start < sorted[0].start) {
      InsertSorted(sorted[1..], x);
      var rest := Insert(sorted[1..], x);
      assert Insert(sorted, x) == [sorted[0]] + rest;
      forall y | y in rest ensures sorted[0].start <= y.start {
        if y != x {
          var k :| 0 <= k < |sorted[1..]| && sorted[1..][k] == y;
          assert sorted[k + 1] == y;
        }
      }
    }
  }

  lemma {:induction false} InsertMultiset(sorted: seq<Segment>, x: Segment)
    ensures multiset(Insert(sorted, x)) == multiset(sorted) + multiset{x}
    decreases |sorted|
  {
    if !(sorted == [] || x.start < sorted[0].start) {
      InsertMultiset(sorted[1..], x);
      assert sorted == [sorted[0]] + sorted[1..];
    }
  }

  lemma {:induction false} InsertStable(sorted: seq<Segment>, x: Segment, t: real)
    requires Sorted(sorted)
    ensures WithStart(Insert(sorted, x), t) == WithStart(sorted, t) + WithStart([x], t)
    decreases |sorted|
  {
    if sorted == [] || x.start < sorted[0].start {
      WithStartAppend([x], sorted, t);
      if sorted != [] && t == x.start {
        SortedWithStart(sorted, t);
      }
    } else {
      InsertStable(sorted[1..], x, t);
      var rest := Insert(sorted[1..], x);
      assert Insert(sorted, x) == [sorted[0]] + rest;
      assert sorted == [sorted[0]] + sorted[1..];
      WithStartAppend([sorted[0]], rest, t);
      WithStartAppend([sorted[0]], sorted[1..], t);
    }
  }

  lemma {:induction false} InsertAllSorted(acc: seq<Segment>, xs: seq<Segment>)
    requires Sorted(acc)
    ensures Sorted(InsertAll(acc, xs))
    decreases |xs|
  {
    if xs != [] {
      InsertSorted(acc, xs[0]);
      InsertAllSorted(Insert(acc, xs[0]), xs[1..]);
    }
  }

  lemma {:induction false} InsertAllMultiset(acc: seq<Segment>, xs: seq<Segment>)
    ensures multiset(InsertAll(acc, xs)) == multiset(acc) + multiset(xs)
    decreases |xs|
  {
    if xs != [] {
      InsertMultiset(acc, xs[0]);
      InsertAllMultiset(Insert(acc, xs[0]), xs[1..]);
      assert xs == [xs[0]] + xs[1..];
    }
  }

  lemma {:induction false} InsertAllStable(acc: seq<Segment>, xs: seq<Segment>, t: real)
    requires Sorted(acc)
    ensures WithStart(InsertAll(acc, xs), t) == WithStart(acc, t) + WithStart(xs, t)
    decreases |xs|
  {
    if xs != [] {
      InsertStable(acc, xs[0], t);
      InsertSorted(acc, xs[0]);
      InsertAllStable(Insert(acc, xs[0]), xs[1..], t);
      assert xs == [xs[0]] + xs[1..];
      WithStartAppend([xs[0]], xs[1..], t);
    }
  }

  /** The sort orders by start, loses and adds nothing, and keeps segments
      with equal starts in their original order. */
  lemma SortByStartSpec(s: seq<Segment>)
    ensures var r := SortByStart(s);
      && Sorted(r)
      && multiset(r) == multiset(s)
      && forall t :: WithStart(r, t) == WithStart(s, t)
  {
    InsertAllSorted([], s);
    InsertAllMultiset([], s);
    forall t ensures WithStart(SortByStart(s), t) == WithStart(s, t) {
      InsertAllStable([], s, t);
    }
  }

  /** Inserting an element that starts no earlier than everything else
      appends it. */
  lemma {:induction false} InsertLast(sorted: seq<Segment>, x: Segment)
    requires forall i :: 0 <= i < |sorted| ==> sorted[i].start <= x.start
    ensures Insert(sorted, x) == sorted + [x]
    decreases |sorted|
  {
    if sorted != [] {
      InsertLast(sorted[1..], x);
    }
  }

  lemma {:induction false} InsertAllOfSorted(acc: seq<Segment>, xs: seq<Segment>)
    requires Sorted(acc + xs)
    ensures InsertAll(acc, xs) == acc + xs
    decreases |xs|
  {
    if xs != [] {
      var s := acc + xs;
      assert forall i :: 0 <= i < |acc| ==> acc[i] == s[i];
      assert s[|acc|] == xs[0];
      InsertLast(acc, xs[0]);
      assert acc + [xs[0]] + xs[1..] == s;
      InsertAllOfSorted(acc + [xs[0]], xs[1..]);
    }
  }

  /** Sorting sorted segments changes nothing. */
  lemma SortSorted(s: seq<Segment>)
    requires Sorted(s)
    ensures SortByStart(s) == s
  {
    InsertAllOfSorted([], s);
  }

  lemma {:induction false} InsertAllAppend(acc: seq<Segment>, a: seq<Segment>, b: seq<Segment>)
    ensures InsertAll(acc, a + b) == InsertAll(InsertAll(acc, a), b)
    decreases |a|
  {
    if a != [] {
      assert (a + b)[0] == a[0];
      assert (a + b)[1..] == a[1..] + b;
      assert InsertAll(acc, a + b) == InsertAll(Insert(acc, a[0]), a[1..] + b);
      InsertAllAppend(Insert(acc, a[0]), a[1..], b);
    } else {
      assert a + b == b;
    }
  }

  /** Sorting in place after every append gives the same order as sorting
      everything once: the worker's repeated `sort` calls leave the stable
      sort of all segments in arrival order. */
  lemma SortAppend(a: seq<Segment>, b: seq<Segment>)
    ensures SortByStart(SortByStart(a) + b) == SortByStart(a + b)
  {
    SortByStartSpec(a);
    SortSorted(SortByStart(a));
    InsertAllAppend([], SortByStart(a), b);
    InsertAllAppend([], a, b);
  }

  // ---------------------------------------------------------------- text

  /** `.map(s => s.text?.trim()).filter(Boolean)`: the trimmed texts that are
      present and not empty, in order. */
  function Texts(segs: seq<Segment>): (r: seq<string>)
    ensures |r| <= |segs|
  {
    if segs == [] then []
    else
      var rest := Texts(segs[1..]);
      match segs[0].text
      case Some(t) => if Trim(t) != [] then [Trim(t)] + rest else rest
      case None => rest
  }

  lemma {:induction false} TextsAreTrimmed(segs: seq<Segment>)
    ensures forall i :: 0 <= i < |Texts(segs)| ==> Texts(segs)[i] != [] && IsTrimmed(Texts(segs)[i])
  {
    if segs != [] {
      TextsAreTrimmed(segs[1..]);
      if segs[0].text.Some? {
        TrimSpec(segs[0].text.value);
      }
    }
  }

  /** `.join(' ')` of those texts: the running transcript. */
  function JoinTexts(segs: seq<Segment>): string {
    Join(Texts(segs), " ")
  }

  /** The running transcript has no white space at either end, is empty
      exactly when no segment has any non-blank text, and otherwise starts
      with the first such text and ends with the last. */
  lemma JoinTextsSpec(segs: seq<Segment>)
    ensures IsTrimmed(JoinTexts(segs))
    ensures JoinTexts(segs) == [] <==> Texts(segs) == []
    ensures var ts := Texts(segs);
      ts != [] ==> JoinTexts(segs)[0] == ts[0][0]
  {
    TextsAreTrimmed(segs);
    JoinTrimmed(Texts(segs));
  }
}
