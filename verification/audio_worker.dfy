/**
 * The audio worker (audioWorker.ts): it locates ffmpeg, checks the audio
 * path it was started with, converts the file to 16 kHz mono 16-bit PCM
 * and posts the samples scaled to [-1, 1).
 *
 * ffmpeg, the file system and the WAV decoder are outside the model: the
 * existence check, the conversion-and-decode result and the outcome of
 * writing the debug copy are parameters.
 */
module AudioWorker {
  import opened Wrappers
  import opened Failures
  import opened Strings

  // ------------------------------------------------- ffmpeg location

  const Asar := "app.asar"
  const AsarUnpacked := "app.asar.unpacked"
  const Unpacked := "unpacked"
  const NoFfmpegText := "找不到 ffmpeg"

  /** A binary packed into an Electron archive cannot be run from inside it:
      the first `app.asar` of the path is pointed at the unpacked copy. */
  function FixFfmpegPath(p: string): string {
    if Contains(p, Asar) && !Contains(p, Unpacked) then ReplaceFirst(p, Asar, AsarUnpacked) else p
  }

  /** The module start-up: no ffmpeg (an absent or empty path) is an error,
      otherwise the path, rewritten. */
  function ResolveFfmpeg(ffmpegStatic: Option<string>): (r: Result<string, string>)
    ensures r.Err? <==> ffmpegStatic.None? || ffmpegStatic.value == ""
    ensures r.Err? ==> r.error == NoFfmpegText
    ensures r.Ok? ==> r.value == FixFfmpegPath(ffmpegStatic.value)
  {
    match ffmpegStatic
    case None => Err(NoFfmpegText)
    case Some(p) => if p == "" then Err(NoFfmpegText) else Ok(FixFfmpegPath(p))
  }

  /** Paths that do not mention `app.asar`, or that already mention
      `unpacked`, are left alone. */
  lemma FixFfmpegPathUnchanged(p: string)
    ensures !Contains(p, Asar) ==> FixFfmpegPath(p) == p
    ensures Contains(p, Unpacked) ==> FixFfmpegPath(p) == p
  {
  }

  /** Otherwise exactly the first `app.asar` becomes `app.asar.unpacked`:
      the text before it is kept, the text after it is kept, and the path
      grows by 9 characters. */
  lemma FixFfmpegPathRewrites(p: string)
    requires Contains(p, Asar) && !Contains(p, Unpacked)
    ensures var i := IndexOf(p, Asar).value;
      && (forall j :: 0 <= j < i ==> !MatchAt(p, Asar, j))
      && FixFfmpegPath(p) == p[..i] + AsarUnpacked + p[i + |Asar|..]
      && |FixFfmpegPath(p)| == |p| + 9
  {
  }

  /** A rewritten path mentions `unpacked`, so rewriting twice is rewriting
      once. */
  lemma FixFfmpegPathIdempotent(p: string)
    ensures Contains(FixFfmpegPath(p), Unpacked)
      || FixFfmpegPath(p) == p
    ensures FixFfmpegPath(FixFfmpegPath(p)) == FixFfmpegPath(p)
  {
    if Contains(p, Asar) && !Contains(p, Unpacked) {
      var i := IndexOf(p, Asar).value;
      var r := FixFfmpegPath(p);
      assert r == p[..i] + AsarUnpacked + p[i + |Asar|..];
      UnpackedInReplacement();
      ContainsInfix(p[..i], AsarUnpacked, p[i + |Asar|..], Unpacked);
    }
  }

  lemma UnpackedInReplacement()
    ensures Contains(AsarUnpacked, Unpacked)
  {
    assert MatchAt(AsarUnpacked, Unpacked, 9);
    ContainsIff(AsarUnpacked, Unpacked);
  }

  // ------------------------------------------------- sample scaling

  /** A 16-bit sample as a number in [-1, 1): `sample * (1 / 32768)`. The
      scale is a power of two, so on 16-bit samples the product is exact. */
  function Scaled(sample: int): real {
    (sample as real) / 32768.0
  }

  predicate IsPcm16(samples: seq<int>) {
    forall i :: 0 <= i < |samples| ==> -32768 <= samples[i] <= 32767
  }

  /** The conversion loop: a new array, filled index by index. */
  method ScaleSamples(samples: seq<int>) returns (out: array<real>)
    ensures fresh(out)
    ensures out.Length == |samples|
    ensures forall i :: 0 <= i < |samples| ==> out[i] == Scaled(samples[i])
  {
    out := new real[|samples|];
    var i := 0;
    while i < |samples|
      invariant 0 <= i <= |samples|
      invariant forall j :: 0 <= j < i ==> out[j] == Scaled(samples[j])
    {
      out[i] := Scaled(samples[i]);
      i := i + 1;
    }
  }

  /** Scaled 16-bit samples lie in [-1, 1). */
  lemma ScaledRange(samples: seq<int>)
    requires IsPcm16(samples)
    ensures forall i :: 0 <= i < |samples| ==> -1.0 <= Scaled(samples[i]) < 1.0
  {
  }

  // ------------------------------------------------- processAudio

  /** What the worker posts to its parent (the start-up log is left out). */
  datatype AudioMessage =
    | StatusMessage(status: string, message: string)
    | CompleteMessage(samples: seq<real>)
    | ErrorMessage(message: string)

  const NoPathText := "未提供音频文件路径"
  const MissingFileText := "音频文件不存在: "
  const ConvertingText := "正在转换音频格式..."
  const UnknownText := "未知错误"

  /** `error instanceof Error ? error.message : '未知错误'` */
  function FailureText(t: Thrown): (m: string)
    ensures t.Error? ==> m == t.message
    ensures t.NonError? ==> m == UnknownText
  {
    MessageOr(t, UnknownText)
  }

  /** Everything `processAudio` posts. `fileExists` is the file-existence check,
      `decoded` what converting and decoding produced (channel 0's 16-bit
      samples) or threw, and `saveDebug` whether writing the debug copy
      threw. */
  function ProcessAudioSpec(audioPath: Option<string>, fileExists: bool, decoded: Result<seq<int>, Thrown>, saveDebug: Option<Thrown>): seq<AudioMessage> {
    if audioPath.None? || audioPath.value == "" then [ErrorMessage(NoPathText)]
    else if !fileExists then [ErrorMessage(MissingFileText + audioPath.value)]
    else
      [StatusMessage("converting", ConvertingText)] +
      match decoded
      case Err(e) => [ErrorMessage(FailureText(e))]
      case Ok(samples) =>
        match saveDebug
        case Some(e) => [ErrorMessage(FailureText(e))]
        case None => [CompleteMessage(seq(|samples|, i requires 0 <= i < |samples| => Scaled(samples[i])))]
  }

  /** `processAudio`, step by step. */
  method ProcessAudio(audioPath: Option<string>, fileExists: bool, decoded: Result<seq<int>, Thrown>, saveDebug: Option<Thrown>)
    returns (posted: seq<AudioMessage>)
    ensures posted == ProcessAudioSpec(audioPath, fileExists, decoded, saveDebug)
  {
    if audioPath.None? || audioPath.value == "" {
      return [ErrorMessage(NoPathText)];
    }
    if !fileExists {
      return [ErrorMessage(MissingFileText + audioPath.value)];
    }
    posted := [StatusMessage("converting", ConvertingText)];
    if decoded.Err? {
      return posted + [ErrorMessage(FailureText(decoded.error))];
    }
    var scaled := ScaleSamples(decoded.value);
    if saveDebug.Some? {
      return posted + [ErrorMessage(FailureText(saveDebug.value))];
    }
    assert scaled[..] == seq(|decoded.value|, i requires 0 <= i < |decoded.value| => Scaled(decoded.value[i]));
    posted := posted + [CompleteMessage(scaled[..])];
  }

  /** Every run posts exactly one final `complete` or `error` message; a
      missing path is reported before the file is looked for, a missing file
      before anything is converted; `complete` carries the scaled samples. */
  lemma ProcessAudioShape(audioPath: Option<string>, fileExists: bool, decoded: Result<seq<int>, Thrown>, saveDebug: Option<Thrown>)
    ensures var posted := ProcessAudioSpec(audioPath, fileExists, decoded, saveDebug);
      && |posted| >= 1
      && !posted[|posted| - 1].StatusMessage?
      && (forall i :: 0 <= i < |posted| - 1 ==> posted[i].StatusMessage?)
      && (audioPath.None? || audioPath == Some("") <==> posted == [ErrorMessage(NoPathText)])
      && (audioPath.Some? && audioPath.value != "" && !fileExists ==>
            posted == [ErrorMessage(MissingFileText + audioPath.value)])
      && (|posted| == 1 <==> audioPath.None? || audioPath == Some("") || !fileExists)
      && (posted[|posted| - 1].CompleteMessage? <==>
            audioPath.Some? && audioPath.value != "" && fileExists && decoded.Ok? && saveDebug.None?)
      && (posted[|posted| - 1].CompleteMessage? ==>
            var s := posted[|posted| - 1].samples;
            |s| == |decoded.value| && forall i :: 0 <= i < |s| ==> s[i] == Scaled(decoded.value[i]))
  {
    var posted := ProcessAudioSpec(audioPath, fileExists, decoded, saveDebug);
    if audioPath.Some? && audioPath.value != "" && !fileExists {
      assert posted != [ErrorMessage(NoPathText)] by {
        assert |MissingFileText + audioPath.value| > |NoPathText|;
      }
    }
  }
}
