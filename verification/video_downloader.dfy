/**
 * The video downloader (videoDownloader.ts): it asks yt-dlp for the audio
 * track of a video page as an mp3, converts that to 16 kHz mono WAV with
 * ffmpeg and translates the usual yt-dlp failures into messages for the
 * user.
 *
 * The shell, the clock and the file system are parameters: the timestamp,
 * whether each command failed (and with what), whether the mp3 appeared
 * and whether deleting it failed.
 */
module VideoDownloader {
  import opened Wrappers
  import opened Failures
  import opened Strings
  import opened Sequences

  // ------------------------------------------------- Douyin detection

  const DouyinHost := "douyin.com"

  predicate IsDouyinUrl(url: string) {
    Contains(url, DouyinHost)
  }

  /** A URL is a Douyin URL exactly when `douyin.com` occurs in it,
      anywhere. */
  lemma IsDouyinUrlIff(url: string)
    ensures IsDouyinUrl(url) <==>
      exists a: string, b: string :: url == a + DouyinHost + b
  {
    ContainsIff(url, DouyinHost);
    if IsDouyinUrl(url) {
      var i := IndexOf(url, DouyinHost).value;
      assert url == url[..i] + DouyinHost + url[i + |DouyinHost|..];
    } else {
      forall a: string, b: string | url == a + DouyinHost + b ensures false {
        assert MatchAt(url, DouyinHost, |a|);
      }
    }
  }

  // ------------------------------------------------- paths

  const DownloadsDir := "v2tea-downloads"

  /** `path.join` of a directory and a plain file name. */
  function PathJoin(dir: string, name: string): string {
    dir + "/" + name
  }

  function AudioPath(tempDir: string, timestamp: nat): string {
    PathJoin(tempDir, "audio-" + NatToString(timestamp) + ".mp3")
  }

  function WavPath(tempDir: string, timestamp: nat): string {
    PathJoin(tempDir, "temp_" + NatToString(timestamp) + ".wav")
  }

  /** Different timestamps give different files, and the mp3 and the WAV of
      a download are never the same file. */
  lemma DownloadPathsDistinct(tempDir: string, t1: nat, t2: nat)
    ensures AudioPath(tempDir, t1) == AudioPath(tempDir, t2) ==> t1 == t2
    ensures WavPath(tempDir, t1) == WavPath(tempDir, t2) ==> t1 == t2
    ensures AudioPath(tempDir, t1) != WavPath(tempDir, t2)
  {
    var n1, n2 := NatToString(t1), NatToString(t2);
    var k := |tempDir| + 1;
    if AudioPath(tempDir, t1) == AudioPath(tempDir, t2) {
      var a := AudioPath(tempDir, t1);
      assert |n1| == |n2|;
      assert a[k + 6..k + 6 + |n1|] == n1;
      assert AudioPath(tempDir, t2)[k + 6..k + 6 + |n2|] == n2;
      NatToStringInjective(t1, t2);
    }
    if WavPath(tempDir, t1) == WavPath(tempDir, t2) {
      var w := WavPath(tempDir, t1);
      assert |n1| == |n2|;
      assert w[k + 5..k + 5 + |n1|] == n1;
      assert WavPath(tempDir, t2)[k + 5..k + 5 + |n2|] == n2;
      NatToStringInjective(t1, t2);
    }
    assert AudioPath(tempDir, t1)[k] == 'a';
    assert WavPath(tempDir, t2)[k] == 't';
  }

  // ------------------------------------------------- commands

  const YtDlpPrefix := "yt-dlp -x --audio-format mp3"
  const DouyinUserAgent := " --user-agent \"Mozilla/5.0 (iPhone; CPU iPhone OS 14_0 like Mac OS X) AppleWebKit/605.1.15 (KHTML, like Gecko) Version/14.0 Mobile/15E148 Safari/604.1\""
  const DouyinReferer := " --referer \"https://www.douyin.com/\""
  const DouyinCookie := " --add-header \"Cookie: passport_csrf_token=1;\""
  const DouyinOptions := DouyinUserAgent + DouyinReferer + DouyinCookie

  /** ` -o "<audioPath>" "<url>"` */
  function OutputOptions(audioPath: string, url: string): string {
    " -o \"" + audioPath + "\" \"" + url + "\""
  }

  /** The yt-dlp command line for `url`, saving to `audioPath`. */
  function YtDlpCommand(url: string, audioPath: string): string {
    YtDlpPrefix + (if IsDouyinUrl(url) then DouyinOptions else "") + OutputOptions(audioPath, url)
  }

  /** The command always starts with the fixed prefix and ends with the
      output options; between the two stand the Douyin options when the
      URL is a Douyin URL and nothing otherwise. */
  lemma YtDlpCommandShape(url: string, audioPath: string)
    ensures var c, o := YtDlpCommand(url, audioPath), OutputOptions(audioPath, url);
      && |c| >= |YtDlpPrefix| + |o|
      && c[..|YtDlpPrefix|] == YtDlpPrefix
      && c[|c| - |o|..] == o
      && (IsDouyinUrl(url) ==> c[|YtDlpPrefix|..|c| - |o|] == DouyinOptions)
      && (!IsDouyinUrl(url) ==> c == YtDlpPrefix + o)
  {
    var c, o := YtDlpCommand(url, audioPath), OutputOptions(audioPath, url);
    var mid := if IsDouyinUrl(url) then DouyinOptions else "";
    assert c == YtDlpPrefix + mid + o;
    assert c[..|YtDlpPrefix|] == YtDlpPrefix;
    assert c[|c| - |o|..] == o;
    assert c[|YtDlpPrefix|..|c| - |o|] == mid;
  }

  function FfmpegCommand(audioPath: string, wavPath: string): string {
    "ffmpeg -i \"" + audioPath + "\" -ar 16000 -ac 1 -c:a pcm_s16le -y \"" + wavPath + "\""
  }

  // ------------------------------------------------- error classification

  const NotFoundText := "视频不存在或已被删除"
  const PrivateText := "该视频为私密视频，无法访问"
  const DownloadFailedText := "音频下载失败，请确保视频链接有效且可访问"

  /** The `catch` of `downloadAudio`: an Error whose message mentions, in
      any letter case, `unavailable` or `not found` means the video is
      gone; one that mentions `private` (and neither of those) means it is
      private; anything else is rethrown as it is. */
  function ClassifyDownloadError(t: Thrown): (r: Thrown)
    ensures t.NonError? ==> r == t
    ensures t.Error? ==> var lower := ToLower(t.message);
      && ((Contains(lower, "unavailable") || Contains(lower, "not found")) ==> r == Error(NotFoundText))
      && ((!Contains(lower, "unavailable") && !Contains(lower, "not found") && Contains(lower, "private"))
            ==> r == Error(PrivateText))
      && ((!Contains(lower, "unavailable") && !Contains(lower, "not found") && !Contains(lower, "private"))
            ==> r == t)
  {
    match t
    case NonError => t
    case Error(m) =>
      var lower := ToLower(m);
      if Contains(lower, "unavailable") || Contains(lower, "not found") then Error(NotFoundText)
      else if Contains(lower, "private") then Error(PrivateText)
      else t
  }

  /** Letter case does not matter: a message and its lower-cased form are
      either both passed through or turned into the same message. */
  lemma ClassifyIgnoresCase(m: string)
    ensures var a, b := ClassifyDownloadError(Error(m)), ClassifyDownloadError(Error(ToLower(m)));
      (a == Error(m) && b == Error(ToLower(m))) || a == b
  {
    ToLowerIdempotent(m);
  }

  /** Classifying a classified error changes nothing more. */
  lemma ClassifyIdempotent(t: Thrown)
    ensures ClassifyDownloadError(ClassifyDownloadError(t)) == ClassifyDownloadError(t)
  {
    NotFoundTextPlain();
    PrivateTextPlain();
  }

  /** No ASCII pattern occurs in text with no ASCII characters; lowering
      such text changes nothing. */
  lemma {:induction false} NonAsciiText(s: string, pat: string)
    requires forall i :: 0 <= i < |s| ==> s[i] as int >= 128
    requires pat != [] && (pat[0] as int) < 128
    ensures !Contains(s, pat) && ToLower(s) == s
  {
    ContainsIff(s, pat);
  }

  lemma NotFoundTextPlain()
    ensures ToLower(NotFoundText) == NotFoundText
    ensures !Contains(NotFoundText, "unavailable") && !Contains(NotFoundText, "not found")
    ensures !Contains(NotFoundText, "private")
  {
    NonAsciiText(NotFoundText, "unavailable");
    NonAsciiText(NotFoundText, "not found");
    NonAsciiText(NotFoundText, "private");
  }

  lemma PrivateTextPlain()
    ensures ToLower(PrivateText) == PrivateText
    ensures !Contains(PrivateText, "unavailable") && !Contains(PrivateText, "not found")
    ensures !Contains(PrivateText, "private")
  {
    NonAsciiText(PrivateText, "unavailable");
    NonAsciiText(PrivateText, "not found");
    NonAsciiText(PrivateText, "private");
  }

  lemma DownloadFailedTextPlain()
    ensures ClassifyDownloadError(Error(DownloadFailedText)) == Error(DownloadFailedText)
  {
    NonAsciiText(DownloadFailedText, "unavailable");
    NonAsciiText(DownloadFailedText, "not found");
    NonAsciiText(DownloadFailedText, "private");
  }

  // ------------------------------------------------- downloadAudio

  /** The commands run, in order, and what `downloadAudio` resolves to
      (the WAV path) or rejects with. */
  datatype Download = Download(commands: seq<string>, result: Result<string, Thrown>)

  /** `downloadAudio`: `ytDlp` and `ffmpeg` say whether each command failed,
      `mp3Exists` whether yt-dlp left the mp3 behind, `unlink` whether
      deleting the mp3 failed. Every failure goes through the
      classification, the missing-mp3 error included. */
  function DownloadSpec(tempDir: string, url: string, timestamp: nat, ytDlp: Option<Thrown>, mp3Exists: bool, ffmpeg: Option<Thrown>, unlink: Option<Thrown>): Download {
    var audio, wav := AudioPath(tempDir, timestamp), WavPath(tempDir, timestamp);
    var yt := YtDlpCommand(url, audio);
    if ytDlp.Some? then Download([yt], Err(ClassifyDownloadError(ytDlp.value)))
    else if !mp3Exists then Download([yt], Err(ClassifyDownloadError(Error(DownloadFailedText))))
    else
      var ff := FfmpegCommand(audio, wav);
      if ffmpeg.Some? then Download([yt, ff], Err(ClassifyDownloadError(ffmpeg.value)))
      else if unlink.Some? then Download([yt, ff], Err(ClassifyDownloadError(unlink.value)))
      else Download([yt, ff], Ok(wav))
  }

  /** yt-dlp always runs first; ffmpeg runs second and only on the mp3 that
      yt-dlp produced; success yields the WAV of the same timestamp; a
      missing mp3 is reported with its own message. */
  lemma DownloadShape(tempDir: string, url: string, timestamp: nat, ytDlp: Option<Thrown>, mp3Exists: bool, ffmpeg: Option<Thrown>, unlink: Option<Thrown>)
    ensures var d := DownloadSpec(tempDir, url, timestamp, ytDlp, mp3Exists, ffmpeg, unlink);
      var audio := AudioPath(tempDir, timestamp);
      && 1 <= |d.commands| <= 2
      && d.commands[0] == YtDlpCommand(url, audio)
      && (|d.commands| == 2 <==> ytDlp.None? && mp3Exists)
      && (|d.commands| == 2 ==> d.commands[1] == FfmpegCommand(audio, WavPath(tempDir, timestamp)))
      && (d.result.Ok? <==> ytDlp.None? && mp3Exists && ffmpeg.None? && unlink.None?)
      && (d.result.Ok? ==> d.result.value == WavPath(tempDir, timestamp))
      && (ytDlp.None? && !mp3Exists ==> d.result == Err(Error(DownloadFailedText)))
  {
    DownloadFailedTextPlain();
  }

  /** The downloader, with its temporary directory. */
  class Downloader {
    var tempDir: string

    /** `tmpdir` is the operating system's temporary directory; creating
        the folder is left to the file system. */
    constructor(tmpdir: string)
      ensures tempDir == PathJoin(tmpdir, DownloadsDir)
    {
      tempDir := PathJoin(tmpdir, DownloadsDir);
    }

    /** `downloadAudio`, building the yt-dlp command piece by piece. */
    method DownloadAudio(url: string, timestamp: nat, ytDlp: Option<Thrown>, mp3Exists: bool, ffmpeg: Option<Thrown>, unlink: Option<Thrown>)
      returns (commands: seq<string>, result: Result<string, Thrown>)
      ensures Download(commands, result) == DownloadSpec(tempDir, url, timestamp, ytDlp, mp3Exists, ffmpeg, unlink)
    {
      var audioPath := AudioPath(tempDir, timestamp);
      var wavPath := WavPath(tempDir, timestamp);
      var command := YtDlpPrefix;
      ghost var options := "";
      if IsDouyinUrl(url) {
        command := command + DouyinUserAgent;
        command := command + DouyinReferer;
        AppendAssoc(YtDlpPrefix, DouyinUserAgent, DouyinReferer);
        command := command + DouyinCookie;
        AppendAssoc(YtDlpPrefix, DouyinUserAgent + DouyinReferer, DouyinCookie);
        options := DouyinOptions;
      } else {
        AppendNil(YtDlpPrefix);
      }
      assert command == YtDlpPrefix + options;
      command := command + OutputOptions(audioPath, url);
      assert command == YtDlpCommand(url, audioPath);
      commands := [command];
      var failure: Option<Thrown> := None;
      if ytDlp.Some? {
        failure := ytDlp;
      } else if !mp3Exists {
        failure := Some(Error(DownloadFailedText));
      } else {
        commands := commands + [FfmpegCommand(audioPath, wavPath)];
        if ffmpeg.Some? {
          failure := ffmpeg;
        } else if unlink.Some? {
          failure := unlink;
        }
      }
      if failure.Some? {
        result := Err(ClassifyDownloadError(failure.value));
      } else {
        result := Ok(wavPath);
      }
    }
  }
}
