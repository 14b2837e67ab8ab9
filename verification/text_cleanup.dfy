/**
 * The rewrite chain that turns the joined segment texts into the final
 * transcript (transcriptionWorker.ts, lines 102-111):
 *
 *   trim, then `/\s+/g -> ' '`, then `/(.)\1{2,}/g -> '$1$1'`,
 *   then `/(.{2,})\1+/g -> '$1'`, then `/[，。！？；：、]{2,}/g -> first mark`.
 *
 * Each global regular-expression replacement is a recursive function that
 * scans from the left, as the regular-expression engine does: at the current
 * position it either matches (greedily, with the engine's backtracking order)
 * and continues after the match, or keeps one character and moves on.
 */
module TextCleanup {
  import opened Strings

  /** The marks of the class `[，。！？；：、]`. */
  predicate IsMark(c: char) {
    c == '，' || c == '。' || c == '！' || c == '？' || c == '；' || c == '：' || c == '、'
  }

  /** What a regular-expression `.` matches. */
  predicate IsDot(c: char) {
    !IsLineTerminator(c)
  }

  // ------------------------------------------------- `/\s+/g -> ' '`

  /** The end of the run of white space that starts at or before `i`. */
  function WhiteRunEnd(s: string, i: nat): (e: nat)
    requires i <= |s|
    ensures i <= e <= |s|
    ensures forall j :: i <= j < e ==> IsWhite(s[j])
    ensures e == |s| || !IsWhite(s[e])
    decreases |s| - i
  {
    if i < |s| && IsWhite(s[i]) then WhiteRunEnd(s, i + 1) else i
  }

  /** Every white character is a space, and no two white characters touch. */
  ghost predicate SingleSpaced(r: string) {
    forall i :: 0 <= i < |r| && IsWhite(r[i]) ==> r[i] == ' ' && (i + 1 == |r| || !IsWhite(r[i + 1]))
  }

  /** Each maximal run of white space becomes one space. */
  function CollapseWhitespace(s: string): (r: string)
    ensures |r| <= |s|
    decreases |s|
  {
    if s == [] then []
    else if IsWhite(s[0]) then [' '] + CollapseWhitespace(s[WhiteRunEnd(s, 0)..])
    else [s[0]] + CollapseWhitespace(s[1..])
  }

  /** After the white-space step every white character is a lone space. */
  lemma {:induction false} WhitespaceSpec(s: string)
    ensures var r := CollapseWhitespace(s);
      && (|s| > 0 ==> |r| > 0 && r[0] == (if IsWhite(s[0]) then ' ' else s[0]))
      && SingleSpaced(r)
    decreases |s|
  {
    if s != [] {
      var r := CollapseWhitespace(s);
      if IsWhite(s[0]) {
        var e := WhiteRunEnd(s, 0);
        WhitespaceSpec(s[e..]);
        var rest := CollapseWhitespace(s[e..]);
        assert rest == [] || !IsWhite(rest[0]);
        assert r == [' '] + rest;
      } else {
        WhitespaceSpec(s[1..]);
        assert r == [s[0]] + CollapseWhitespace(s[1..]);
      }
    }
  }

  // ------------------------------------------------- `/(.)\1{2,}/g -> '$1$1'`

  /** The end of the run of characters equal to `s[i]` that starts at `i`. */
  function RunEnd(s: string, i: nat): (e: nat)
    requires i < |s|
    ensures i < e <= |s|
    ensures forall j :: i <= j < e ==> s[j] == s[i]
    ensures e == |s| || s[e] != s[i]
    decreases |s| - i
  {
    if i + 1 < |s| && s[i + 1] == s[i] then RunEnd(s, i + 1) else i + 1
  }

  /** The pattern `(.)\1{2,}` matches at index `i`. */
  predicate TripleAt(s: string, i: nat) {
    i + 2 < |s| && IsDot(s[i]) && s[i + 1] == s[i] && s[i + 2] == s[i]
  }

  ghost predicate NoTriple(s: string) {
    forall i: nat :: !TripleAt(s, i)
  }

  /** A run of three or more equal characters becomes two of them. */
  function CollapseStutter(s: string): (r: string)
    ensures |r| <= |s|
    decreases |s|
  {
    if s == [] then []
    else if TripleAt(s, 0) then [s[0], s[0]] + CollapseStutter(s[RunEnd(s, 0)..])
    else [s[0]] + CollapseStutter(s[1..])
  }

  /** After the stutter step no character `.` matches occurs three times in a
      row, and every character of the result comes from the input. */
  lemma {:induction false} StutterSpec(s: string)
    ensures var r := CollapseStutter(s);
      && (|s| > 0 ==> |r| > 0 && r[0] == s[0])
      && (|s| > 1 ==> |r| > 1 && r[1] == s[1])
      && NoTriple(r)
      && (forall c :: c in r ==> c in s)
    decreases |s|
  {
    if s != [] {
      var r := CollapseStutter(s);
      if TripleAt(s, 0) {
        var e := RunEnd(s, 0);
        StutterSpec(s[e..]);
        var rest := CollapseStutter(s[e..]);
        assert r == [s[0], s[0]] + rest;
        forall i: nat ensures !TripleAt(r, i) {
          if i >= 2 {
            assert TripleAt(r, i) ==> TripleAt(rest, i - 2);
          }
        }
        forall c | c in r ensures c in s {
          if c in rest {
            var k :| 0 <= k < |rest| && rest[k] == c;
          }
        }
      } else {
        StutterSpec(s[1..]);
        var rest := CollapseStutter(s[1..]);
        assert r == [s[0]] + rest;
        forall i: nat ensures !TripleAt(r, i) {
          if i >= 1 {
            assert TripleAt(r, i) ==> TripleAt(rest, i - 1);
          }
        }
        forall c | c in r ensures c in s {
          if c in rest {
            var k :| 0 <= k < |rest| && rest[k] == c;
          }
        }
      }
    }
  }

  // ------------------------------------------------- `/(.{2,})\1+/g -> '$1'`

  /** `(.{2,})\1` can match at the start of `s` with a group of length `L`. */
  predicate SquareAt(s: string, L: nat) {
    && 2 <= L && 2 * L <= |s|
    && (forall j :: 0 <= j < L ==> IsDot(s[j]))
    && s[..L] == s[L..2 * L]
  }

  /** The largest group length at most `L` that `(.{2,})\1` matches with at
      the start of `s`, or 0: the greedy `.{2,}` tries longer groups first. */
  function LongestSquareUpTo(s: string, L: nat): (r: nat)
    ensures r <= L
    ensures r == 0 || SquareAt(s, r)
    ensures forall m :: r < m <= L ==> !SquareAt(s, m)
    decreases L
  {
    if L < 2 then 0 else if SquareAt(s, L) then L else LongestSquareUpTo(s, L - 1)
  }

  function LongestSquare(s: string): (r: nat)
    ensures r == 0 || SquareAt(s, r)
    ensures forall m :: r < m ==> !SquareAt(s, m)
  {
    LongestSquareUpTo(s, |s| / 2)
  }

  /** `s[p..e]` is a run of whole copies of `s[..L]`, back to back. */
  predicate Copies(s: string, L: nat, p: nat, e: nat)
    requires 0 < L && p <= e <= |s|
    decreases e - p
  {
    p == e || (p + L <= e && s[p..p + L] == s[..L] && Copies(s, L, p + L, e))
  }

  /** `\1+` taken greedily: from `p`, skip every further copy of `s[..L]`.
      The part skipped is made of whole copies and no copy follows it. */
  function RepeatEnd(s: string, L: nat, p: nat): (e: nat)
    requires 0 < L <= p <= |s|
    ensures p <= e <= |s|
    ensures p + L <= |s| && s[p..p + L] == s[..L] ==> p + L <= e
    ensures Copies(s, L, p, e)
    ensures !(e + L <= |s| && s[e..e + L] == s[..L])
    decreases |s| - p
  {
    if p + L <= |s| && s[p..p + L] == s[..L] then RepeatEnd(s, L, p + L) else p
  }

  /** The end `RepeatEnd` finds is the only one after whole copies that no
      further copy follows. */
  lemma {:induction false} RepeatEndUnique(s: string, L: nat, p: nat, e: nat)
    requires 0 < L <= p <= e <= |s|
    requires Copies(s, L, p, e) && !(e + L <= |s| && s[e..e + L] == s[..L])
    ensures RepeatEnd(s, L, p) == e
    decreases e - p
  {
    if p < e {
      RepeatEndUnique(s, L, p + L, e);
    }
  }

  /** No position of `s` starts an immediately repeated group of two or more. */
  ghost predicate NoSquare(s: string) {
    forall i, L :: 0 <= i <= |s| ==> !SquareAt(s[i..], L)
  }

  /** A group of two or more characters repeated back to back becomes one copy. */
  function CollapsePhrase(s: string): (r: string)
    ensures |r| <= |s|
    decreases |s|
  {
    if s == [] then []
    else
      var L := LongestSquare(s);
      if L == 0 then [s[0]] + CollapsePhrase(s[1..])
      else s[..L] + CollapsePhrase(s[RepeatEnd(s, L, L)..])
  }

  // ------------------------------------------------- `/[，。！？；：、]{2,}/g -> first mark`

  /** The end of the run of marks that starts at `i`. */
  function MarkRunEnd(s: string, i: nat): (e: nat)
    requires i <= |s|
    ensures i <= e <= |s|
    ensures forall j :: i <= j < e ==> IsMark(s[j])
    ensures e == |s| || !IsMark(s[e])
    decreases |s| - i
  {
    if i < |s| && IsMark(s[i]) then MarkRunEnd(s, i + 1) else i
  }

  predicate MarkPairAt(s: string, i: nat) {
    i + 1 < |s| && IsMark(s[i]) && IsMark(s[i + 1])
  }

  ghost predicate NoAdjacentMarks(s: string) {
    forall i: nat :: !MarkPairAt(s, i)
  }

  /** A run of two or more marks, mixed or not, becomes its first mark. */
  function CollapsePunct(s: string): (r: string)
    ensures |r| <= |s|
    decreases |s|
  {
    if s == [] then []
    else if MarkPairAt(s, 0) then [s[0]] + CollapsePunct(s[MarkRunEnd(s, 0)..])
    else [s[0]] + CollapsePunct(s[1..])
  }

  /** After the punctuation step no two marks are adjacent. */
  lemma {:induction false} PunctSpec(s: string)
    ensures var r := CollapsePunct(s);
      && (|s| > 0 ==> |r| > 0 && r[0] == s[0])
      && NoAdjacentMarks(r)
    decreases |s|
  {
    if s != [] {
      var r := CollapsePunct(s);
      var e := if MarkPairAt(s, 0) then MarkRunEnd(s, 0) else 1;
      PunctSpec(s[e..]);
      var rest := CollapsePunct(s[e..]);
      assert r == [s[0]] + rest;
      forall i: nat ensures !MarkPairAt(r, i) {
        if i >= 1 {
          assert MarkPairAt(r, i) ==> MarkPairAt(rest, i - 1);
        }
      }
    }
  }

  // ------------------------------------------------- the chain

  /** The final transcript built from the joined segment texts. */
  function FinalText(joined: string): (r: string)
    ensures |r| <= |joined|
  {
    CollapsePunct(CollapsePhrase(CollapseStutter(CollapseWhitespace(Trim(joined)))))
  }

  /** The final transcript is never longer than the joined text and has no
      two punctuation marks side by side. */
  lemma FinalTextSpec(joined: string)
    ensures |FinalText(joined)| <= |joined|
    ensures NoAdjacentMarks(FinalText(joined))
  {
    PunctSpec(CollapsePhrase(CollapseStutter(CollapseWhitespace(Trim(joined)))));
  }

  // ------------------------------------------------- what each step leaves alone

  lemma {:induction false} WhitespaceUnchangedIff(s: string)
    ensures CollapseWhitespace(s) == s <==> SingleSpaced(s)
    decreases |s|
  {
    WhitespaceSpec(s);
    if s != [] && SingleSpaced(s) {
      var t := s[1..];
      assert SingleSpaced(t) by {
        forall i | 0 <= i < |t| && IsWhite(t[i])
          ensures t[i] == ' ' && (i + 1 == |t| || !IsWhite(t[i + 1]))
        {
          assert s[i + 1] == t[i];
        }
      }
      WhitespaceUnchangedIff(t);
      if IsWhite(s[0]) {
        assert WhiteRunEnd(s, 1) == 1;
        assert WhiteRunEnd(s, 0) == 1;
      }
    }
  }

  lemma {:induction false} StutterUnchangedIff(s: string)
    ensures CollapseStutter(s) == s <==> NoTriple(s)
    decreases |s|
  {
    StutterSpec(s);
    if s != [] && NoTriple(s) {
      var t := s[1..];
      assert NoTriple(t) by {
        forall i: nat ensures !TripleAt(t, i) {
          assert !TripleAt(s, i + 1);
        }
      }
      StutterUnchangedIff(t);
      assert !TripleAt(s, 0);
    }
  }

  lemma {:induction false} PunctUnchangedIff(s: string)
    ensures CollapsePunct(s) == s <==> NoAdjacentMarks(s)
    decreases |s|
  {
    PunctSpec(s);
    if s != [] && NoAdjacentMarks(s) {
      var t := s[1..];
      assert NoAdjacentMarks(t) by {
        forall i: nat ensures !MarkPairAt(t, i) {
          assert !MarkPairAt(s, i + 1);
        }
      }
      PunctUnchangedIff(t);
      assert !MarkPairAt(s, 0);
    }
  }

  /** A repeated group anywhere makes the phrase step strictly shorten the text. */
  lemma {:induction false} PhraseShrinks(s: string, i: nat, L: nat)
    requires i <= |s| && SquareAt(s[i..], L)
    ensures |CollapsePhrase(s)| < |s|
    decreases i
  {
    var Lg := LongestSquare(s);
    assert s[0..] == s;
    if Lg == 0 {
      assert s[1..][i - 1..] == s[i..];
      PhraseShrinks(s[1..], i - 1, L);
    } else {
      assert s[Lg..Lg + Lg] == s[..Lg];
      var e := RepeatEnd(s, Lg, Lg);
      assert |CollapsePhrase(s[e..])| <= |s| - e;
    }
  }

  lemma {:induction false} PhraseUnchangedIff(s: string)
    ensures CollapsePhrase(s) == s <==> NoSquare(s)
    decreases |s|
  {
    if NoSquare(s) {
      if s != [] {
        assert s[0..] == s;
        assert LongestSquare(s) == 0 by {
          var r := LongestSquare(s);
          assert !SquareAt(s[0..], r);
        }
        var t := s[1..];
        assert NoSquare(t) by {
          forall i, L | 0 <= i <= |t| ensures !SquareAt(t[i..], L) {
            assert t[i..] == s[i + 1..];
          }
        }
        PhraseUnchangedIff(t);
      }
    } else {
      var i, L :| 0 <= i <= |s| && SquareAt(s[i..], L);
      PhraseShrinks(s, i, L);
    }
  }

  lemma StutterIdempotent(s: string)
    ensures CollapseStutter(CollapseStutter(s)) == CollapseStutter(s)
  {
    StutterSpec(s);
    StutterUnchangedIff(CollapseStutter(s));
  }

  lemma PunctIdempotent(s: string)
    ensures CollapsePunct(CollapsePunct(s)) == CollapsePunct(s)
  {
    PunctSpec(s);
    PunctUnchangedIff(CollapsePunct(s));
  }

  // ------------------------------------------------- properties of the chain

  ghost predicate NoThreeInARow(s: string) {
    forall i :: 0 <= i && i + 2 < |s| ==> !(s[i + 1] == s[i] && s[i + 2] == s[i])
  }

  /** In the chain the stutter step sees text whose only white space is single
      spaces, so no character at all is left three times in a row. */
  lemma StutterStepLeavesNoThreeInARow(joined: string)
    ensures NoThreeInARow(CollapseStutter(CollapseWhitespace(Trim(joined))))
  {
    var w := CollapseWhitespace(Trim(joined));
    var r := CollapseStutter(w);
    WhitespaceSpec(Trim(joined));
    StutterSpec(w);
    forall i | 0 <= i && i + 2 < |r| ensures !(r[i + 1] == r[i] && r[i + 2] == r[i]) {
      assert r[i] in w;
      var k :| 0 <= k < |w| && w[k] == r[i];
      if IsWhite(w[k]) {
        assert w[k] == ' ';
      }
      assert IsDot(r[i]);
      assert !TripleAt(r, i);
    }
  }

  /** Text without any repetition or punctuation run comes out of the chain
      exactly as its trimmed, white-space-collapsed form. */
  lemma FinalTextOfCleanInput(joined: string)
    requires var w := CollapseWhitespace(Trim(joined)); NoTriple(w) && NoSquare(w) && NoAdjacentMarks(w)
    ensures FinalText(joined) == CollapseWhitespace(Trim(joined))
  {
    var w := CollapseWhitespace(Trim(joined));
    StutterUnchangedIff(w);
    PhraseUnchangedIff(w);
    PunctUnchangedIff(w);
  }


  // ------------------------------------------------- what one match does

  /** A run of white space becomes one space and the scan resumes after it. */
  lemma WhiteRunBecomesSpace(w: string, q: string)
    requires |w| >= 1 && forall j :: 0 <= j < |w| ==> IsWhite(w[j])
    requires q == [] || !IsWhite(q[0])
    ensures CollapseWhitespace(w + q) == [' '] + CollapseWhitespace(q)
  {
    var s := w + q;
    assert forall j :: 0 <= j < |w| ==> IsWhite(s[j]);
    assert q != [] ==> !IsWhite(s[|w|]);
    var e := WhiteRunEnd(s, 0);
    assert e == |w|;
    assert s[e..] == q;
  }

  /** A character said three or more times in a row is kept twice. */
  lemma StutterRunBecomesTwo(c: char, n: nat, q: string)
    requires n >= 3 && IsDot(c)
    requires q == [] || q[0] != c
    ensures CollapseStutter(seq(n, _ => c) + q) == [c, c] + CollapseStutter(q)
  {
    var s := seq(n, _ => c) + q;
    assert TripleAt(s, 0);
    assert forall j :: 0 <= j < n ==> s[j] == c;
    assert q != [] ==> s[n] != c;
    var e := RunEnd(s, 0);
    assert e == n;
    assert s[e..] == q;
  }

  /** A phrase of two or more characters said twice in a row is kept once. */
  lemma PhraseSaidTwiceKeptOnce(p: string)
    requires |p| >= 2 && forall j :: 0 <= j < |p| ==> IsDot(p[j])
    ensures CollapsePhrase(p + p) == p
  {
    var s := p + p;
    assert SquareAt(s, |p|);
    var L := LongestSquare(s);
    assert L == |p|;
    assert s[|p|..2 * |p|] == s[..|p|];
    assert RepeatEnd(s, L, L) == |s|;
    assert s[..L] == p;
  }

  /** A run of two or more marks, of any kinds, is kept as its first mark. */
  lemma MarkRunBecomesFirst(m: string, q: string)
    requires |m| >= 2 && forall j :: 0 <= j < |m| ==> IsMark(m[j])
    requires q == [] || !IsMark(q[0])
    ensures CollapsePunct(m + q) == [m[0]] + CollapsePunct(q)
  {
    var s := m + q;
    assert MarkPairAt(s, 0);
    assert forall j :: 0 <= j < |m| ==> IsMark(s[j]);
    assert q != [] ==> !IsMark(s[|m|]);
    var e := MarkRunEnd(s, 0);
    assert e == |m|;
    assert s[e..] == q;
  }
}
