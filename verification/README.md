# v2tea transcription core in Dafny

v2tea is an Electron desktop application. It turns a local audio or video file, or an online video page, into Chinese text. This project models the bookkeeping at its core and proves properties of it:

- **The transcription worker** (`transcriptionWorker.ts`). It cuts the 16 kHz recording into 30-second windows that overlap by 5 seconds. It shifts each window's segment timestamps to the whole recording and keeps all segments stably sorted by start time. It posts integer progress after every window. At the end it builds the transcript through a fixed chain of text rewrites: trim, collapse white space, collapse stutter, collapse repeated phrases, collapse punctuation runs.
- **The transcription service** (`whisperService.ts`). `initializeWhisper` loads the speech model at most once at a time. `handleTranscription` turns the two workers' messages into status events and a result. The `transcribe-audio` handler makes up to three attempts, sends one `error` event per failed attempt, and resets the model between attempts.
- **The video downloader** (`videoDownloader.ts`). It recognises Douyin URLs and builds the yt-dlp and ffmpeg command lines. It classifies download errors into user-facing messages.
- **The audio worker** (`audioWorker.ts`). It points an ffmpeg path inside `app.asar` at the unpacked copy. It checks its audio path in a fixed order, scales the decoded 16-bit samples to [-1, 1), and posts one final `complete` or `error` message.

The speech model, ffmpeg, yt-dlp, the file system, the clock and the workers' transport are collaborators. Their outcomes are parameters of the model:
- the recogniser is a function from a window's samples to a reply, or to an error thrown;
- a model load is `Loaded`, `NotAFunction` or `LoadThrew`;
- a download, a file-existence check or a failing command is an `Option` or `Result` value;
- the messages a job receives are a sequence.

What the service sends to the renderer is recorded as a sequence of effects.

Modules, one per file:

- `wrappers.dfy`: `Wrappers` (Option, Result), `Failures` (a thrown value: an `Error` with a message, or anything else) and `Sequences` (two append facts);
- `strings.dfy`: the JavaScript string built-ins used by the core;
- `windowing.dfy`, `segments.dfy`, `text_cleanup.dfy`, `transcription_worker.dfy`: the transcription worker;
- `audio_worker.dfy`, `video_downloader.dfy`, `whisper_service.dfy`: the rest of the core.

Imperative code is modelled imperatively:
- the window loop of `transcribe` is `TranscriptionWorker.Transcribe`;
- the worker's cached recogniser is the class `TranscriptionWorker.Worker`;
- the sample loop is `AudioWorker.ScaleSamples`, which fills an array;
- `downloadAudio` builds its command with `+=` in `VideoDownloader.Downloader.DownloadAudio`;
- the service's three fields and its `while (retries > 0)` loop are the class `WhisperService.Service`.

Each method is proved equal to a specification function, and the properties are proved about those functions.

Behaviour of the code worth knowing when reading the model:
- **Every error is retried.** That includes `无效的输入` (invalid input) and download errors: every error goes through the same `catch` (whisperService.ts:275-301). `WhisperService.InvalidInputRetried` states this.
- **Every failure sends an `error` event, the last one included.** Three failed attempts send three `error` events and make two resets (`WhisperService.HandlerCounts`).
- **There is no cancellation.** A request runs until it is answered or its job never settles.
- **Punctuation runs keep their first mark.** A run of two or more marks from `，。！？；：、` becomes its first mark, whether or not the marks are the same (`/[，。！？；：、]{2,}/g` with `match[0]`).
- **A failed URL attempt calls `cleanup` again on the previous attempt's path.** `audioPath` is declared once per request (whisperService.ts:255), so a URL attempt whose download throws passes the path of the previous attempt's download to `cleanup` once more (`WhisperService.CleanupAfterFailure`). That file was already removed by the previous attempt's own `catch`.

## Model

| member | source | states |
|---|---|---|
| Strings.TrimSpec | src/main/transcriptionWorker.ts:94 | `trim` keeps one contiguous part of its input, removes only white space before and after it, and leaves no white space at either end |
| Strings.JoinTrimmed | src/main/transcriptionWorker.ts:92-96 | joining non-empty trimmed texts with single spaces gives a trimmed text that starts with the first text's first character and ends with the last text's last character |
| Strings.IndexOfFrom | src/main/audioWorker.ts:26 | the index found is a match, no earlier index matches, and `None` means no index matches |
| Strings.ContainsIff | src/main/videoDownloader.ts:22 | `includes` holds exactly when the pattern occurs at some index |
| Strings.ContainsInfix | src/main/audioWorker.ts:24 | a pattern found in a middle part is found in the whole text |
| Strings.ReplaceFirst | src/main/audioWorker.ts:26 | `replace` with a string pattern rewrites only the first occurrence, keeps the text around it, and changes nothing when the pattern does not occur |
| Strings.ToLower | src/main/videoDownloader.ts:65 | lower-casing keeps the length, leaves no capital A to Z, turns each capital into its small letter and keeps every other character |
| Strings.ToLowerIdempotent | src/main/videoDownloader.ts:65 | lower-casing lower-cased text changes nothing |
| Strings.NatToStringRoundTrip | src/main/videoDownloader.ts:27-29 | the decimal digits of a timestamp read back as that timestamp |
| Strings.NatToStringInjective | src/main/videoDownloader.ts:27-29 | different timestamps have different decimal forms |
| Windowing.NextWindow | src/main/transcriptionWorker.ts:54-55 | a round's window contains the cursor, lies inside the audio, is at most 480000 samples long and starts at most 80000 samples before the cursor |
| Windowing.WindowsShape | src/main/transcriptionWorker.ts:47-56 | there are no windows exactly when the audio is empty; the first starts at 0 and the last ends at the end; all are at most 30 s and all but the last exactly 30 s; each starts 80000 samples before the previous end; the ends strictly increase |
| Windowing.WindowsFromShape | src/main/transcriptionWorker.ts:52-56 | the same shape for the rounds left once the cursor is at 0, past a full window, or at the end |
| Windowing.WindowsCover | src/main/transcriptionWorker.ts:52-56 | every sample of the audio lies in some window |
| Windowing.WindowsCount | src/main/transcriptionWorker.ts:52-82 | the number of rounds is 0 for no audio, 1 up to 30 s, then one more per started 25 s |
| Segments.AdjustAll | src/main/transcriptionWorker.ts:71-77 | shifting keeps the number of segments and their texts |
| Segments.AdjustKeepsDurations | src/main/transcriptionWorker.ts:71-77 | a shifted segment keeps its length and starts `start / 16000` seconds later, with an absent time read as 0 |
| Segments.SortByStartSpec | src/main/transcriptionWorker.ts:93 | the sort is ordered by start, a permutation, and stable: segments with equal starts keep their order |
| Segments.SortSorted | src/main/transcriptionWorker.ts:115 | sorting sorted segments again changes nothing |
| Segments.SortAppend | src/main/transcriptionWorker.ts:78-93 | sorting after each round's append leaves the same order as one stable sort of all segments in arrival order |
| Segments.JoinTextsSpec | src/main/transcriptionWorker.ts:92-96 | the running text has no white space at either end, is empty exactly when no segment has a non-blank text, and starts with the first such text |
| TextCleanup.WhiteRunEnd | src/main/transcriptionWorker.ts:108 | the white-space run found is maximal |
| TextCleanup.WhitespaceSpec | src/main/transcriptionWorker.ts:108 | after `/\s+/g` → `' '` every white-space character is a lone space |
| TextCleanup.WhitespaceUnchangedIff | src/main/transcriptionWorker.ts:108 | the step changes a text exactly when the text is not already single-spaced |
| TextCleanup.WhiteRunBecomesSpace | src/main/transcriptionWorker.ts:108 | a run of white space becomes one space and the rest is processed after it |
| TextCleanup.RunEnd | src/main/transcriptionWorker.ts:109 | the run of one repeated character found is maximal |
| TextCleanup.StutterSpec | src/main/transcriptionWorker.ts:109 | after `/(.)\1{2,}/g` → `'$1$1'` no character `.` matches occurs three times in a row, the first two characters are kept, and no character is new |
| TextCleanup.StutterUnchangedIff | src/main/transcriptionWorker.ts:109 | the step changes a text exactly when it holds such a triple |
| TextCleanup.StutterIdempotent | src/main/transcriptionWorker.ts:109 | applying the step twice is applying it once |
| TextCleanup.StutterRunBecomesTwo | src/main/transcriptionWorker.ts:109 | a character said three or more times in a row is kept twice |
| TextCleanup.LongestSquareUpTo | src/main/transcriptionWorker.ts:110 | the greedy `(.{2,})` picks the longest group that is immediately repeated |
| TextCleanup.LongestSquare | src/main/transcriptionWorker.ts:110 | the group length chosen is repeated at the start and no longer group is |
| TextCleanup.RepeatEnd | src/main/transcriptionWorker.ts:110 | `\1+` absorbs whole copies of the group, back to back, at least one when a copy follows, and stops where no copy follows |
| TextCleanup.RepeatEndUnique | src/main/transcriptionWorker.ts:110 | that end is the only one reached by whole copies with no copy after it |
| TextCleanup.PhraseShrinks | src/main/transcriptionWorker.ts:110 | a text holding a phrase said twice in a row gets shorter |
| TextCleanup.PhraseUnchangedIff | src/main/transcriptionWorker.ts:110 | the phrase step changes a text exactly when some phrase of two or more characters is said twice in a row |
| TextCleanup.PhraseSaidTwiceKeptOnce | src/main/transcriptionWorker.ts:110 | a phrase said twice is kept once |
| TextCleanup.MarkRunEnd | src/main/transcriptionWorker.ts:111 | the run of marks found is maximal |
| TextCleanup.PunctSpec | src/main/transcriptionWorker.ts:111 | after the punctuation step no two marks are adjacent and the first character is kept |
| TextCleanup.PunctUnchangedIff | src/main/transcriptionWorker.ts:111 | the step changes a text exactly when two marks are adjacent |
| TextCleanup.PunctIdempotent | src/main/transcriptionWorker.ts:111 | applying the step twice is applying it once |
| TextCleanup.MarkRunBecomesFirst | src/main/transcriptionWorker.ts:111 | a run of two or more marks of any kinds becomes its first mark |
| TextCleanup.FinalTextSpec | src/main/transcriptionWorker.ts:102-111 | the transcript is never longer than the joined text and has no two adjacent marks |
| TextCleanup.StutterStepLeavesNoThreeInARow | src/main/transcriptionWorker.ts:107-109 | after trim, white-space and stutter steps no character at all occurs three times in a row |
| TextCleanup.FinalTextOfCleanInput | src/main/transcriptionWorker.ts:107-111 | text with no stutter, no repeated phrase and no adjacent marks comes out as its trimmed, single-spaced form |
| TranscriptionWorker.TotalDuration | src/main/transcriptionWorker.ts:32 | the total duration is at least 1 and the whole seconds of the audio when it lasts a second or more |
| TranscriptionWorker.PercentSpec | src/main/transcriptionWorker.ts:83-89 | the percentage is at most 100, and is exactly 100 when all samples are processed |
| TranscriptionWorker.PercentMonotone | src/main/transcriptionWorker.ts:83-89 | more samples processed never shows a smaller percentage |
| TranscriptionWorker.RoundReturns | src/main/transcriptionWorker.ts:52-98 | a round whose recogniser call returns posts one event and continues from the window's end |
| TranscriptionWorker.RoundThrows | src/main/transcriptionWorker.ts:59-67 | a round whose recogniser call throws posts nothing and ends the run with that error |
| TranscriptionWorker.Transcribe | src/main/transcriptionWorker.ts:26-117 | the loop posts exactly the events and returns or throws exactly what the round-by-round specification gives |
| TranscriptionWorker.FirstThrowSpec | src/main/transcriptionWorker.ts:59-67 | no error exactly when every window's call returns; otherwise the error is one some call threw |
| TranscriptionWorker.RunWindowsFailure | src/main/transcriptionWorker.ts:52-67 | a run fails with the error of the first window whose call throws |
| TranscriptionWorker.RunWindowsEventCount | src/main/transcriptionWorker.ts:82-98 | without errors a run posts one event per window |
| TranscriptionWorker.RunWindowsSuccess | src/main/transcriptionWorker.ts:69-114 | without errors a run returns the stable sort of everything collected and still to arrive |
| TranscriptionWorker.TranscribeOutcome | src/main/transcriptionWorker.ts:26-117 | a run fails exactly when some call throws, with the first error; otherwise the chunks are all shifted segments, sorted, stable and a permutation, the text is the cleaned-up join of their texts, and one event is posted per window after the initial one |
| TranscriptionWorker.RunWindowsEvents | src/main/transcriptionWorker.ts:82-98 | each round event reports its window's end as a floored percentage and in whole seconds, with the total duration |
| TranscriptionWorker.RunWindowsText | src/main/transcriptionWorker.ts:78-96 | the running text of a round's event is the join of the trimmed non-empty texts of everything collected up to and including that round, stably sorted by start, with no clean-up step |
| TranscriptionWorker.TranscribeRunningText | src/main/transcriptionWorker.ts:86-96 | the `i`-th progress event after the initial one carries the sorted join of the segments of the first `i` windows |
| TranscriptionWorker.TranscribeEvents | src/main/transcriptionWorker.ts:36-44 | the first event is the initial one at 0; every event has the same total duration and a percentage of at most 100 |
| TranscriptionWorker.TranscribeProgressMonotone | src/main/transcriptionWorker.ts:82-91 | progress and current time never decrease from one event to the next |
| TranscriptionWorker.TranscribeEndsAtHundred | src/main/transcriptionWorker.ts:82-91 | a successful run on non-empty audio ends at 100 percent, at the audio's whole seconds |
| TranscriptionWorker.TranscribeEmpty | src/main/transcriptionWorker.ts:32-56 | empty audio gets only the initial event, with total duration 1, and an empty transcript |
| TranscriptionWorker.ErrorText | src/main/transcriptionWorker.ts:130-133 | an `Error` is reported by its message, anything else as `转录失败` |
| TranscriptionWorker.HandleSpecShape | src/main/transcriptionWorker.ts:119-134 | a message ends with exactly one `complete` or `error`, preceded only by progress; without audio only `未收到音频数据` is posted; `complete` needs a loaded recogniser |
| TranscriptionWorker.Worker.constructor | src/main/transcriptionWorker.ts:5 | the recogniser starts unloaded |
| TranscriptionWorker.Worker.HandleMessage | src/main/transcriptionWorker.ts:119-134 | posts what the specification gives and loads the recogniser once, only when audio arrives and the load succeeds |
| AudioWorker.ResolveFfmpeg | src/main/audioWorker.ts:18-27 | no ffmpeg, absent or empty, is the error `找不到 ffmpeg`; otherwise the rewritten path |
| AudioWorker.FixFfmpegPathUnchanged | src/main/audioWorker.ts:23-24 | a path without `app.asar`, or already containing `unpacked`, is kept |
| AudioWorker.FixFfmpegPathRewrites | src/main/audioWorker.ts:24-27 | otherwise only the first `app.asar` becomes `app.asar.unpacked`, the rest is kept and the path grows by 9 |
| AudioWorker.FixFfmpegPathIdempotent | src/main/audioWorker.ts:24-27 | a rewritten path contains `unpacked`, so rewriting twice is rewriting once |
| AudioWorker.UnpackedInReplacement | src/main/audioWorker.ts:26 | the replacement text itself contains `unpacked` |
| AudioWorker.ScaleSamples | src/main/audioWorker.ts:100-105 | a new array of the same length holding every sample times 1/32768 |
| AudioWorker.ScaledRange | src/main/audioWorker.ts:99-105 | scaled 16-bit samples lie in [-1, 1) |
| AudioWorker.FailureText | src/main/audioWorker.ts:124 | an `Error` is reported by its message, anything else as `未知错误` |
| AudioWorker.ProcessAudio | src/main/audioWorker.ts:47-129 | the worker posts exactly what the specification gives |
| AudioWorker.ProcessAudioShape | src/main/audioWorker.ts:51-60 | one final `complete` or `error`, only statuses before it; a missing path fails with `未提供音频文件路径` before the file check, a missing file with `音频文件不存在: ` and the path, both alone; `complete` exactly when every step succeeds, carrying the scaled samples |
| VideoDownloader.IsDouyinUrlIff | src/main/videoDownloader.ts:21-23 | a URL is a Douyin URL exactly when `douyin.com` occurs in it |
| VideoDownloader.DownloadPathsDistinct | src/main/videoDownloader.ts:27-29 | different timestamps give different files, and a download's mp3 and WAV are never the same file |
| VideoDownloader.YtDlpCommandShape | src/main/videoDownloader.ts:32-41 | the command starts with `yt-dlp -x --audio-format mp3`, ends with the output options, and holds the user-agent, referer and cookie options between them exactly for Douyin URLs |
| VideoDownloader.ClassifyDownloadError | src/main/videoDownloader.ts:62-73 | `unavailable` or `not found` in the lower-cased message gives `视频不存在或已被删除`, checked before `private`, which gives `该视频为私密视频，无法访问`; anything else, and anything that is not an `Error`, is rethrown as it is |
| VideoDownloader.ClassifyIgnoresCase | src/main/videoDownloader.ts:65 | a message and its lower-cased form are classified alike |
| VideoDownloader.ClassifyIdempotent | src/main/videoDownloader.ts:64-72 | classifying a classified error changes nothing |
| VideoDownloader.NonAsciiText | src/main/videoDownloader.ts:65-68 | text without ASCII characters contains no ASCII keyword and lower-cases to itself |
| VideoDownloader.DownloadShape | src/main/videoDownloader.ts:25-74 | yt-dlp runs first; ffmpeg runs second exactly when yt-dlp succeeded and left the mp3, converting that mp3 to the WAV of the same timestamp; success exactly when every step succeeds, giving the WAV path; a missing mp3 is `音频下载失败…` |
| VideoDownloader.Downloader.constructor | src/main/videoDownloader.ts:12-19 | the downloads folder is `v2tea-downloads` in the temporary directory |
| VideoDownloader.Downloader.DownloadAudio | src/main/videoDownloader.ts:25-74 | the commands built piece by piece and the result are those of the specification |
| WhisperService.SettlementOf | src/main/whisperService.ts:153-185 | a settling message resolves or rejects the job |
| WhisperService.HandleTranscriptionFirst | src/main/whisperService.ts:145-187 | the job settles as its first settling message says, and later messages change nothing |
| WhisperService.HandleTranscriptionUnsettled | src/main/whisperService.ts:145-187 | the job never settles exactly when no message settles it |
| WhisperService.HandleTranscriptionOutcome | src/main/whisperService.ts:172-185 | a resolved job is a success carrying some `complete` message's text and chunks, announced by a `completed` event; a rejected job was rejected with a value that is not an `Error` |
| WhisperService.HandleTranscriptionAppend | src/main/whisperService.ts:145-171 | messages before the first settling one only add their events |
| WhisperService.JobAfterAudio | src/main/whisperService.ts:145-161 | the audio worker's final message rejects the job or hands it on to the transcription worker's messages |
| WhisperService.JobOfTranscriber | src/main/whisperService.ts:163-187 | the transcription worker's final message resolves or rejects the job |
| WhisperService.JobOfWorkers | src/main/whisperService.ts:133-204 | end to end, a job resolves exactly when the audio was prepared, the recogniser loaded and no call threw, with exactly the transcript's text and chunks; otherwise it is rejected with a non-`Error` |
| WhisperService.LoadResult | src/main/whisperService.ts:222-247 | awaiting a load succeeds only with a pipeline; a non-function is the error `Pipeline 初始化失败: 返回值不是函数`; a throw is rethrown |
| WhisperService.Settled | src/main/whisperService.ts:238-250 | after a load the pipeline is kept on success, the pipeline and promise are cleared on failure, and `isInitializing` is false |
| WhisperService.InitSpecProperties | src/main/whisperService.ts:206-251 | a cached pipeline is used as it is; a caller finding a load in flight waits for it without starting one; otherwise exactly one load starts; afterwards no load is in flight and a failure leaves neither pipeline nor promise |
| WhisperService.ErrorEvent | src/main/whisperService.ts:280-283 | the failure event has status `error` and message `转换失败: ` followed by the error's message or `未知错误` |
| WhisperService.FailureText | src/main/whisperService.ts:294 | the final failure is the error's message or `转换失败` |
| WhisperService.JobEventsQuiet | src/main/whisperService.ts:145-187 | unless the audio worker forwards a status named `error`, a job sends no `error` event |
| WhisperService.AttemptQuiet | src/main/whisperService.ts:259-277 | the `try` block sends no `error` event and resets nothing |
| WhisperService.AttemptInitializes | src/main/whisperService.ts:260-263 | an attempt without a pipeline begins with the `initializing` event and leaves the fields as `initializeWhisper` does; with a pipeline it keeps it and starts no load |
| WhisperService.AttemptAnswers | src/main/whisperService.ts:265-274 | an attempt that returns returns a success |
| WhisperService.AttemptRoutes | src/main/whisperService.ts:259-277 | a failed initialization ends the attempt first; a file request with a path runs the job and remembers the path; a URL request sends `downloading`, then stops with the download's error keeping the old path, or runs the job on the downloaded file, deletes it when the job resolves and remembers it; anything else fails with `无效的输入` |
| WhisperService.FailureEffectsCount | src/main/whisperService.ts:278-288 | a failed attempt up to the end of its `catch` sends exactly one `error` event and resets nothing |
| WhisperService.HandlerRetry | src/main/whisperService.ts:278-300 | a failed attempt is followed by the `error` event and the clean-up of a URL request's file, on the last attempt too; the last attempt then answers with the failure text, any other is followed by the reset and an attempt that starts with `initializing` |
| WhisperService.HandlerCounts | src/main/whisperService.ts:256-301 | the handler answers or waits on a job that never settles; with `retries` attempts left (3 at the start), a failure answer comes with `retries` `error` events and one reset fewer, and a success or a hang with fewer `error` events than `retries` and as many resets as `error` events |
| WhisperService.HandlerSuccess | src/main/whisperService.ts:258-277 | a success answer is exactly the result some attempt's job resolved with |
| WhisperService.HandlerFirstSuccess | src/main/whisperService.ts:265-274 | the first attempt that returns ends the handler with its result unchanged |
| WhisperService.InvalidInputRetried | src/main/whisperService.ts:275-296 | a request that is neither a file with a path nor a URL with a URL fails on every attempt, whatever the state and path it starts from, and the handler ends with a failure |
| WhisperService.WorkerFailureTexts | src/main/whisperService.ts:157-184 | a job rejected by a worker is reported as `转换失败: 未知错误` and answered as `转换失败` |
| WhisperService.Service.constructor | src/main/whisperService.ts:44-46 | no pipeline, no load in flight, no promise |
| WhisperService.Service.StartLoad | src/main/whisperService.ts:218-219 | a fresh load marks itself in flight with a pending promise |
| WhisperService.Service.SettleLoad | src/main/whisperService.ts:234-250 | the fields after the load settle as `Settled` says, and the call returns what awaiting the load gives |
| WhisperService.Service.InitializeWhisper | src/main/whisperService.ts:206-251 | fields and result are those of the specification, keeping the fields consistent, and the count of loads grows only when this call starts one |
| WhisperService.Service.RunAttempt | src/main/whisperService.ts:259-277 | one attempt's effects, fields and ending are those of the specification |
| WhisperService.Service.HandleTranscribeAudio | src/main/whisperService.ts:254-303 | the loop's effects, final fields and answer are those of the specification |

## Left out

- The speech model, the model loader, ffmpeg, yt-dlp, `exec`, the file system, `Date.now()` and the worker threads are not modelled. Their outcomes are parameters.
- Concurrency is not modelled. Concurrent requests sharing one `initPromise` are modelled only as the in-flight branch of `initializeWhisper`, with the outcome of the awaited load as a parameter.
- The 1-second `setTimeout` between attempts (whisperService.ts:300) is left out: it only delays.
- The workers' `error` and `exit` events (whisperService.ts:189-202) are left out. A job settles only through posted messages.
- Messages posted after a job has settled are left out. The code still forwards their status events to the renderer, but the handler no longer waits on them. Workers left running by earlier attempts are also left out.
- The transcription worker's model-load progress messages (transcriptionWorker.ts:16-18) are left out. So are the `log` messages and every `console` call.
- `CleanedUp` models only the handler's two `videoDownloader.cleanup` calls (whisperService.ts:273 and 285-288). The existence check and the swallowed error inside `cleanup` (videoDownloader.ts:76-84) are left out.
- The audio worker's delete of its temporary WAV (audioWorker.ts:108) is left out: its error is only logged and nothing depends on it.
- The downloader's delete of the mp3 after conversion (videoDownloader.ts:59) is modelled only by whether it throws (the `unlink` outcome of `VideoDownloader.DownloadSpec`), not as an effect.
- The debug copy of the samples (audioWorker.ts:110-115) is modelled only as whether writing it throws.
- Creating the downloads folder (videoDownloader.ts:16-18) is left out.
- `convertToWav` and `convertToFloat32Array` in whisperService.ts are never called, and are not part of this model.
- The React renderer, the preload bridge, the window bootstrap, the model download script and the build configuration are not part of this model.
- Text is a sequence of characters, not UTF-16 code units. Surrogate pairs are not modelled.
- Timestamps and samples are exact reals, not floating point.
- TranscriptionWorker.Percent: the percentage is exact integer division `processed * 100 / len`. JavaScript computes `Math.floor(processed / len * 100)` in floating point, which can be one lower at some exact multiples.
- AudioWorker.ScaleSamples: the samples are scaled exactly. This agrees with `Float32Array` for 16-bit input, because 1/32768 is a power of two. The model does not check that the decoder delivers 16-bit samples.
- Strings.ToLower: only the letters A to Z are lowered. `toLowerCase` also lowers other scripts; the keywords the classifier looks for are plain ASCII.
- VideoDownloader.PathJoin: `path.join` is modelled as concatenation with `/`, without normalising the path.
- WhisperService.HandlerCounts: the counts assume the audio worker never forwards a status named `error`. It never posts one, but such a status would be indistinguishable from the handler's own failure event.
