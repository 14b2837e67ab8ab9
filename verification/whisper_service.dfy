/**
 * The main-process transcription service (whisperService.ts): it loads the
 * speech model once, runs a job through the audio worker and the
 * transcription worker, and answers the renderer's `transcribe-audio`
 * request, retrying a failed job up to three attempts in all.
 *
 * The model loader, the downloader, the workers and the renderer are
 * collaborators: what the loader returns, what the download yields and
 * which messages the workers post are parameters, and what the service
 * sends to the renderer is recorded as a sequence of effects.
 */
module WhisperService {
  import opened Wrappers
  import opened Failures
  import opened Sequences
  import Segments
  import AW = AudioWorker
  import TW = TranscriptionWorker

  // ------------------------------------------------- handleTranscription

  /** One `transcription-status` event sent to the renderer. */
  datatype StatusEvent = StatusEvent(status: string, message: string, progress: Option<TW.Progress>)

  /** What the `transcribe-audio` request answers with. */
  datatype JobResult = Success(text: string, segments: seq<Segments.Segment>) | Failure(error: string)

  /** A message from the audio worker or from the transcription worker. */
  datatype Incoming = FromAudio(audio: AW.AudioMessage) | FromTranscriber(transcriber: TW.WorkerMessage)

  /** The state of the promise `handleTranscription` returns. */
  datatype Settlement = Unsettled | Resolved(value: JobResult) | Rejected(error: Thrown)

  /** The events one job sent and how its promise settled. */
  datatype Job = Job(events: seq<StatusEvent>, settled: Settlement)

  const TranscribingText := "正在转录音频..."
  const CompletedText := "转录完成"

  /** The messages that settle the job's promise: the workers' `complete`
      from the transcription worker, and an `error` from either. */
  predicate Settles(m: Incoming) {
    match m
    case FromAudio(a) => a.ErrorMessage?
    case FromTranscriber(t) => t.CompleteMessage? || t.ErrorMessage?
  }

  /** How a settling message settles the promise. A worker's `error`
      carries a plain object or a string, never an `Error`. */
  function SettlementOf(m: Incoming): (s: Settlement)
    requires Settles(m)
    ensures s != Unsettled
  {
    match m
    case FromAudio(_) => Rejected(NonError)
    case FromTranscriber(t) =>
      if t.CompleteMessage? then Resolved(Success(t.result.text, t.result.chunks)) else Rejected(NonError)
  }

  /** The two workers' message handlers, taking the messages in the order
      they arrive. Once the promise has settled the job is over for the
      request handler, so the model stops there. */
  function HandleTranscriptionSpec(msgs: seq<Incoming>): Job {
    if msgs == [] then Job([], Unsettled)
    else
      var rest := HandleTranscriptionSpec(msgs[1..]);
      match msgs[0]
      case FromAudio(a) =>
        (match a
         case StatusMessage(st, text) => Job([StatusEvent(st, text, None)] + rest.events, rest.settled)
         case CompleteMessage(_) => rest
         case ErrorMessage(_) => Job([], Rejected(NonError)))
      case FromTranscriber(t) =>
        (match t
         case ProgressMessage(p) => Job([StatusEvent("transcribing", TranscribingText, Some(p))] + rest.events, rest.settled)
         case CompleteMessage(r) => Job([StatusEvent("completed", CompletedText, None)], Resolved(Success(r.text, r.chunks)))
         case ErrorMessage(_) => Job([], Rejected(NonError)))
  }

  /** The promise settles as the first settling message says, and nothing
      after that message matters; with no settling message it never
      settles. */
  lemma {:induction false} HandleTranscriptionFirst(msgs: seq<Incoming>, k: nat)
    requires k < |msgs| && Settles(msgs[k])
    requires forall j :: 0 <= j < k ==> !Settles(msgs[j])
    ensures HandleTranscriptionSpec(msgs).settled == SettlementOf(msgs[k])
    ensures HandleTranscriptionSpec(msgs) == HandleTranscriptionSpec(msgs[..k + 1])
  {
    if k > 0 {
      assert msgs[1..][..k] == msgs[..k + 1][1..];
      HandleTranscriptionFirst(msgs[1..], k - 1);
    }
  }

  lemma {:induction false} HandleTranscriptionUnsettled(msgs: seq<Incoming>)
    ensures HandleTranscriptionSpec(msgs).settled == Unsettled <==>
      forall j :: 0 <= j < |msgs| ==> !Settles(msgs[j])
  {
    if msgs != [] {
      HandleTranscriptionUnsettled(msgs[1..]);
      if forall j :: 0 <= j < |msgs[1..]| ==> !Settles(msgs[1..][j]) {
        forall j | 0 < j < |msgs| ensures !Settles(msgs[j]) {
          assert msgs[j] == msgs[1..][j - 1];
        }
      }
    }
  }

  /** `m` is the transcription worker's `complete` carrying the text and
      chunks of `r`. */
  predicate IsCompleteFrom(m: Incoming, r: JobResult) {
    m.FromTranscriber? && m.transcriber.CompleteMessage?
      && r == Success(m.transcriber.result.text, m.transcriber.result.chunks)
  }

  /** A resolved job is a success carrying the transcription worker's text
      and chunks, announced by a `completed` event; a rejected one was
      rejected with something that is not an `Error`. */
  lemma {:induction false} HandleTranscriptionOutcome(msgs: seq<Incoming>)
    ensures var job := HandleTranscriptionSpec(msgs);
      && (job.settled.Resolved? ==>
            && job.settled.value.Success? && job.events != []
            && job.events[|job.events| - 1] == StatusEvent("completed", CompletedText, None))
      && (job.settled.Resolved? ==>
            exists i :: 0 <= i < |msgs| && IsCompleteFrom(msgs[i], job.settled.value))
      && (job.settled.Rejected? ==> job.settled.error == NonError)
  {
    if msgs != [] {
      HandleTranscriptionOutcome(msgs[1..]);
      var job, rest := HandleTranscriptionSpec(msgs), HandleTranscriptionSpec(msgs[1..]);
      if job.settled.Resolved? && !(msgs[0].FromTranscriber? && msgs[0].transcriber.CompleteMessage?) {
        assert job.settled == rest.settled;
        var i :| 0 <= i < |msgs[1..]| && IsCompleteFrom(msgs[1..][i], rest.settled.value);
        assert msgs[i + 1] == msgs[1..][i];
      }
    }
  }

  /** Messages before the first settling one only add their events. */
  lemma {:induction false} HandleTranscriptionAppend(a: seq<Incoming>, b: seq<Incoming>)
    requires forall i :: 0 <= i < |a| ==> !Settles(a[i])
    ensures HandleTranscriptionSpec(a + b).settled == HandleTranscriptionSpec(b).settled
    ensures HandleTranscriptionSpec(a + b).events == HandleTranscriptionSpec(a).events + HandleTranscriptionSpec(b).events
  {
    if a == [] {
      assert a + b == b;
    } else {
      assert (a + b)[0] == a[0];
      assert (a + b)[1..] == a[1..] + b;
      assert forall i :: 0 <= i < |a[1..]| ==> a[1..][i] == a[i + 1];
      HandleTranscriptionAppend(a[1..], b);
      assert !Settles(a[0]);
      var ab, rest := HandleTranscriptionSpec(a + b), HandleTranscriptionSpec(a[1..]);
      if ab.events != HandleTranscriptionSpec(a[1..] + b).events {
        AppendAssoc(ab.events[..1], rest.events, HandleTranscriptionSpec(b).events);
      }
    }
  }

  function FromAudios(posts: seq<AW.AudioMessage>): (msgs: seq<Incoming>)
    ensures |msgs| == |posts| && forall i :: 0 <= i < |posts| ==> msgs[i] == FromAudio(posts[i])
  {
    seq(|posts|, i requires 0 <= i < |posts| => FromAudio(posts[i]))
  }

  function FromTranscribers(posts: seq<TW.WorkerMessage>): (msgs: seq<Incoming>)
    ensures |msgs| == |posts| && forall i :: 0 <= i < |posts| ==> msgs[i] == FromTranscriber(posts[i])
  {
    seq(|posts|, i requires 0 <= i < |posts| => FromTranscriber(posts[i]))
  }

  /** What a job receives when both workers behave as modelled: everything
      the audio worker posts and, once it has posted the samples, everything
      the transcription worker posts for them (`loaded`, `load` and `engine`
      are the transcription worker's state and collaborators). */
  function WorkerMessages(audioPosts: seq<AW.AudioMessage>, loaded: bool, load: TW.LoadOutcome, engine: seq<real> -> TW.EngineReply): seq<Incoming> {
    if audioPosts != [] && audioPosts[|audioPosts| - 1].CompleteMessage? then
      FromAudios(audioPosts) + FromTranscribers(TW.HandleSpec(loaded, Some(audioPosts[|audioPosts| - 1].samples), load, engine))
    else FromAudios(audioPosts)
  }

  /** The audio worker's statuses only add events: its final message
      decides whether the job is rejected or goes on to the transcription
      worker's messages. */
  lemma JobAfterAudio(posts: seq<AW.AudioMessage>, tail: seq<Incoming>)
    requires |posts| >= 1 && forall i :: 0 <= i < |posts| - 1 ==> posts[i].StatusMessage?
    ensures var last, job := posts[|posts| - 1], HandleTranscriptionSpec(FromAudios(posts) + tail);
      && (last.ErrorMessage? ==> job.settled == Rejected(NonError))
      && (last.CompleteMessage? ==> job.settled == HandleTranscriptionSpec(tail).settled)
  {
    var k := |posts| - 1;
    var head := FromAudios(posts[..k]);
    assert FromAudios(posts) == head + [FromAudio(posts[k])];
    assert forall i :: 0 <= i < |head| ==> !Settles(head[i]);
    AppendAssoc(head, [FromAudio(posts[k])], tail);
    HandleTranscriptionAppend(head, [FromAudio(posts[k])] + tail);
    assert ([FromAudio(posts[k])] + tail)[1..] == tail;
  }

  /** Progress messages only add events: the transcription worker's final
      message settles the job. */
  lemma JobOfTranscriber(posted: seq<TW.WorkerMessage>)
    requires |posted| >= 1 && forall i :: 0 <= i < |posted| - 1 ==> posted[i].ProgressMessage?
    ensures var last, job := posted[|posted| - 1], HandleTranscriptionSpec(FromTranscribers(posted));
      && (last.CompleteMessage? ==> job.settled == Resolved(Success(last.result.text, last.result.chunks)))
      && (last.ErrorMessage? ==> job.settled == Rejected(NonError))
  {
    var j := |posted| - 1;
    var pre := FromTranscribers(posted[..j]);
    assert FromTranscribers(posted) == pre + [FromTranscriber(posted[j])];
    assert forall i :: 0 <= i < |pre| ==> !Settles(pre[i]);
    HandleTranscriptionAppend(pre, [FromTranscriber(posted[j])]);
  }

  /** End to end: a job whose audio could not be prepared, or whose
      transcription failed, is rejected with a value that is not an
      `Error`; otherwise it resolves with exactly the text and chunks the
      transcription produced from the audio worker's samples. */
  lemma JobOfWorkers(audioPath: Option<string>, fileExists: bool, decoded: Result<seq<int>, Thrown>, saveDebug: Option<Thrown>,
                     loaded: bool, load: TW.LoadOutcome, engine: seq<real> -> TW.EngineReply)
    ensures var audioPosts := AW.ProcessAudioSpec(audioPath, fileExists, decoded, saveDebug);
      var job := HandleTranscriptionSpec(WorkerMessages(audioPosts, loaded, load, engine));
      var last := audioPosts[|audioPosts| - 1];
      && (!last.CompleteMessage? ==> job.settled == Rejected(NonError))
      && (last.CompleteMessage? ==>
            var outcome := TW.TranscribeSpec(last.samples, engine).outcome;
            && (job.settled.Resolved? <==> (loaded || load.Loaded?) && outcome.Ok?)
            && (job.settled.Resolved? ==> job.settled.value == Success(outcome.value.text, outcome.value.chunks))
            && (!job.settled.Resolved? ==> job.settled == Rejected(NonError)))
  {
    var audioPosts := AW.ProcessAudioSpec(audioPath, fileExists, decoded, saveDebug);
    AW.ProcessAudioShape(audioPath, fileExists, decoded, saveDebug);
    var last := audioPosts[|audioPosts| - 1];
    if !last.CompleteMessage? {
      JobAfterAudio(audioPosts, []);
      assert FromAudios(audioPosts) + [] == FromAudios(audioPosts);
    } else {
      var posted := TW.HandleSpec(loaded, Some(last.samples), load, engine);
      TW.HandleSpecShape(loaded, Some(last.samples), load, engine);
      JobAfterAudio(audioPosts, FromTranscribers(posted));
      JobOfTranscriber(posted);
      var outcome := TW.TranscribeSpec(last.samples, engine).outcome;
      var final := posted[|posted| - 1];
      if (loaded || load.Loaded?) && outcome.Ok? {
        assert final == TW.CompleteMessage(outcome.value);
      } else {
        assert final.ErrorMessage?;
      }
    }
  }

  // ------------------------------------------------- initializeWhisper

  /** A loaded speech-recognition pipeline, told apart by an identity. */
  datatype Pipeline = Pipeline(id: nat)

  /** What the model loader does: hand back a pipeline, hand back
      something that is not a function, or throw. */
  datatype LoadOutcome = Loaded(pipe: Pipeline) | NotAFunction | LoadThrew(error: Thrown)

  /** `initPromise`: none, the load in flight, or a load that succeeded (a
      failed load clears it). */
  datatype InitPromise = NoPromise | PendingLoad | SettledLoad

  datatype ServiceState = ServiceState(transcriber: Option<Pipeline>, isInitializing: bool, initPromise: InitPromise)

  const NotAFunctionText := "Pipeline 初始化失败: 返回值不是函数"

  /** The fields always agree: a load is in flight exactly when the promise
      is pending, and then there is no pipeline yet. */
  predicate Consistent(s: ServiceState) {
    && (s.isInitializing <==> s.initPromise == PendingLoad)
    && (s.isInitializing ==> s.transcriber.None?)
  }

  /** What awaiting a load gives. */
  function LoadResult(load: LoadOutcome): (r: Result<(), Thrown>)
    ensures r.Ok? <==> load.Loaded?
    ensures load.NotAFunction? ==> r == Err(Error(NotAFunctionText))
    ensures load.LoadThrew? ==> r == Err(load.error)
  {
    match load
    case Loaded(_) => Ok(())
    case NotAFunction => Err(Error(NotAFunctionText))
    case LoadThrew(e) => Err(e)
  }

  /** The fields once a load has settled: the pipeline is kept on success;
      on failure the pipeline and the promise are cleared; the `finally`
      clears `isInitializing` either way. */
  function Settled(load: LoadOutcome): (s: ServiceState)
    ensures Consistent(s) && !s.isInitializing
    ensures s.transcriber.Some? <==> load.Loaded?
    ensures load.Loaded? ==> s.transcriber == Some(load.pipe) && s.initPromise == SettledLoad
    ensures !load.Loaded? ==> s.initPromise == NoPromise
  {
    match load
    case Loaded(p) => ServiceState(Some(p), false, SettledLoad)
    case _ => ServiceState(None, false, NoPromise)
  }

  /** One call of `initializeWhisper`: the new fields, what the call returns
      or throws, and whether it started a load of its own. `load` is how the
      load settles, whether this call starts it or finds it in flight. */
  datatype Init = Init(state: ServiceState, result: Result<(), Thrown>, started: bool)

  function InitSpec(s: ServiceState, load: LoadOutcome): Init {
    if s.transcriber.Some? then Init(s, Ok(()), false)
    else if s.isInitializing then Init(Settled(load), LoadResult(load), false)
    else Init(Settled(load), LoadResult(load), true)
  }

  /** A cached pipeline is used as it is; a caller that finds a load in
      flight waits for it and does not start another; otherwise exactly one
      load starts. Afterwards no load is in flight, and a failed load leaves
      neither a pipeline nor a promise behind. */
  lemma InitSpecProperties(s: ServiceState, load: LoadOutcome)
    requires Consistent(s)
    ensures var i := InitSpec(s, load);
      && Consistent(i.state) && !i.state.isInitializing
      && (s.transcriber.Some? ==> i == Init(s, Ok(()), false))
      && (i.started <==> s.transcriber.None? && !s.isInitializing)
      && (i.result.Ok? <==> s.transcriber.Some? || load.Loaded?)
      && (i.result.Err? ==> i.state.transcriber.None? && i.state.initPromise == NoPromise)
      && (i.result.Ok? ==> i.state.transcriber.Some?)
  {
  }

  // ------------------------------------------------- transcribe-audio

  /** The request: `type` and the optional `path` and `url`. */
  datatype Input = Input(kind: string, path: Option<string>, url: Option<string>)

  /** What the collaborators do during one attempt: how the model load
      settles (if one is awaited), what the download yields (for a URL),
      and the messages the workers post. */
  datatype Attempt = Attempt(load: LoadOutcome, download: Result<string, Thrown>, messages: seq<Incoming>)

  /** What the handler does that the outside can see, in order. */
  datatype Effect =
    | Sent(event: StatusEvent)
    | LoadStarted
    | CleanedUp(path: string)
    | TranscriberReset

  const InitializingEvent := StatusEvent("initializing", "正在初始化模型...", None)
  const DownloadingEvent := StatusEvent("downloading", "正在下载音频...", None)
  const InvalidInputText := "无效的输入"
  const FailedPrefix := "转换失败: "
  const UnknownText := "未知错误"
  const FailedText := "转换失败"

  /** The `error` event for a failed attempt. */
  function ErrorEvent(e: Thrown): (ev: StatusEvent)
    ensures ev.status == "error" && ev.progress.None?
    ensures e.Error? ==> ev.message == FailedPrefix + e.message
    ensures e.NonError? ==> ev.message == FailedPrefix + UnknownText
  {
    StatusEvent("error", FailedPrefix + MessageOr(e, UnknownText), None)
  }

  /** The `error` field of the final failure. */
  function FailureText(e: Thrown): (m: string)
    ensures e.Error? ==> m == e.message
    ensures e.NonError? ==> m == FailedText
  {
    MessageOr(e, FailedText)
  }

  predicate IsFileInput(input: Input) {
    input.kind == "file" && input.path.Some? && input.path.value != ""
  }

  predicate IsUrlInput(input: Input) {
    input.kind == "url" && input.url.Some? && input.url.value != ""
  }

  function Sends(events: seq<StatusEvent>): (fx: seq<Effect>)
    ensures |fx| == |events|
    ensures forall i :: 0 <= i < |events| ==> fx[i] == Sent(events[i])
  {
    seq(|events|, i requires 0 <= i < |events| => Sent(events[i]))
  }

  /** How an attempt ended: with an answer, waiting for ever on a job that
      never settles, or with something thrown. */
  datatype AttemptEnd = Answered(reply: JobResult) | Stuck | FailedWith(error: Thrown)

  /** One attempt: its effects, the fields afterwards, how it ended, and
      the `audioPath` variable afterwards (it outlives the attempt). */
  datatype AttemptRun = AttemptRun(effects: seq<Effect>, state: ServiceState, end: AttemptEnd, audioPath: Option<string>)

  function JobEnd(s: Settlement): AttemptEnd {
    match s
    case Unsettled => Stuck
    case Resolved(v) => Answered(v)
    case Rejected(e) => FailedWith(e)
  }

  /** The `if (!this.transcriber)` step that opens every attempt. */
  function AttemptInit(s: ServiceState, a: Attempt): Init {
    if s.transcriber.None? then InitSpec(s, a.load) else Init(s, Ok(()), false)
  }

  /** The effects of that step: the `initializing` event and the load, if
      one is started. */
  function InitEffects(s: ServiceState, a: Attempt): seq<Effect> {
    if s.transcriber.None? then [Sent(InitializingEvent)] + (if AttemptInit(s, a).started then [LoadStarted] else []) else []
  }

  /** The `try` block of one attempt. */
  function AttemptSpec(s: ServiceState, input: Input, a: Attempt, audioPath: Option<string>): AttemptRun {
    var init := AttemptInit(s, a);
    var pre := InitEffects(s, a);
    if init.result.Err? then AttemptRun(pre, init.state, FailedWith(init.result.error), audioPath)
    else if IsFileInput(input) then
      var job := HandleTranscriptionSpec(a.messages);
      AttemptRun(pre + Sends(job.events), init.state, JobEnd(job.settled), Some(input.path.value))
    else if IsUrlInput(input) then
      match a.download
      case Err(e) => AttemptRun(pre + [Sent(DownloadingEvent)], init.state, FailedWith(e), audioPath)
      case Ok(p) =>
        var job := HandleTranscriptionSpec(a.messages);
        var cleanup := if job.settled.Resolved? then [CleanedUp(p)] else [];
        AttemptRun(pre + [Sent(DownloadingEvent)] + Sends(job.events) + cleanup, init.state, JobEnd(job.settled), Some(p))
    else AttemptRun(pre, init.state, FailedWith(Error(InvalidInputText)), audioPath)
  }

  /** Where an attempt goes once the pipeline is there: a file request with
      a path goes straight to the job and remembers its path; a URL request
      announces the download, then either stops with the download's error
      or runs the job on the downloaded file, deletes that file when the job
      resolves and answers with the job's result; any other request fails
      with `无效的输入`. A failed initialization ends the attempt first. */
  lemma AttemptRoutes(s: ServiceState, input: Input, a: Attempt, audioPath: Option<string>)
    ensures var r := AttemptSpec(s, input, a, audioPath);
      var pre := InitEffects(s, a);
      var ok := AttemptInit(s, a).result.Ok?;
      var job := HandleTranscriptionSpec(a.messages);
      && r.state == AttemptInit(s, a).state
      && (!ok ==> r.effects == pre && r.end.FailedWith? && r.audioPath == audioPath)
      && (ok && IsFileInput(input) ==>
            && r.effects == pre + Sends(job.events)
            && r.audioPath == input.path
            && r.end == JobEnd(job.settled))
      && (ok && !IsFileInput(input) && IsUrlInput(input) && a.download.Err? ==>
            && r.effects == pre + [Sent(DownloadingEvent)]
            && r.end == FailedWith(a.download.error)
            && r.audioPath == audioPath)
      && (ok && !IsFileInput(input) && IsUrlInput(input) && a.download.Ok? ==>
            var p := a.download.value;
            && r.audioPath == Some(p)
            && r.end == JobEnd(job.settled)
            && (job.settled.Resolved? ==> r.effects == pre + [Sent(DownloadingEvent)] + Sends(job.events) + [CleanedUp(p)])
            && (!job.settled.Resolved? ==> r.effects == pre + [Sent(DownloadingEvent)] + Sends(job.events)))
      && (ok && !IsFileInput(input) && !IsUrlInput(input) ==>
            r.effects == pre && r.end == FailedWith(Error(InvalidInputText)) && r.audioPath == audioPath)
  {
  }

  /** The `catch` block's clean-up: a URL request deletes whatever audio
      file the request last produced, in this attempt or an earlier one. */
  function CleanupAfterFailure(input: Input, audioPath: Option<string>): seq<Effect> {
    if audioPath.Some? && audioPath.value != "" && input.kind == "url" then [CleanedUp(audioPath.value)] else []
  }

  /** What the handler's promise finally holds: an answer, nothing because
      a job never settled, or `undefined` when the loop runs out (it cannot
      with three retries). */
  datatype Reply = Answer(result: JobResult) | Hangs | NoValue

  datatype Handled = Handled(effects: seq<Effect>, state: ServiceState, reply: Reply)

  /** The handler loop entered with `retries` left, at attempt number `n`
      (counted from 0), with `audioPath` as the last attempt left it. */
  function HandlerFrom(s: ServiceState, input: Input, attempts: nat -> Attempt, retries: nat, n: nat, audioPath: Option<string>): Handled
    decreases retries
  {
    if retries == 0 then Handled([], s, NoValue)
    else
      var r := AttemptSpec(s, input, attempts(n), audioPath);
      match r.end
      case Answered(v) => Handled(r.effects, r.state, Answer(v))
      case Stuck => Handled(r.effects, r.state, Hangs)
      case FailedWith(e) =>
        var fx := r.effects + [Sent(ErrorEvent(e))] + CleanupAfterFailure(input, r.audioPath);
        if retries == 1 then Handled(fx, r.state, Answer(Failure(FailureText(e))))
        else
          var next := HandlerFrom(r.state.(transcriber := None), input, attempts, retries - 1, n + 1, r.audioPath);
          Handled(fx + [TranscriberReset] + next.effects, next.state, next.reply)
  }

  const Retries: nat := 3

  /** The `transcribe-audio` handler: three retries, no `audioPath` yet. */
  function HandleTranscribeAudioSpec(s: ServiceState, input: Input, attempts: nat -> Attempt): Handled {
    HandlerFrom(s, input, attempts, Retries, 0, None)
  }

  // ------------------------------------------------- what the handler promises

  predicate IsErrorEffect(f: Effect) {
    f.Sent? && f.event.status == "error"
  }

  predicate IsReset(f: Effect) {
    f == TranscriberReset
  }

  /** How many effects satisfy `p`. */
  function Count(fx: seq<Effect>, p: Effect -> bool): nat {
    if fx == [] then 0 else (if p(fx[0]) then 1 else 0) + Count(fx[1..], p)
  }

  lemma {:induction false} CountAppend(a: seq<Effect>, b: seq<Effect>, p: Effect -> bool)
    ensures Count(a + b, p) == Count(a, p) + Count(b, p)
  {
    if a != [] {
      assert (a + b)[0] == a[0];
      assert (a + b)[1..] == a[1..] + b;
      CountAppend(a[1..], b, p);
    } else {
      assert a + b == b;
    }
  }

  /** No `error` event and no reset among `fx`. */
  predicate Quiet(fx: seq<Effect>) {
    forall i :: 0 <= i < |fx| ==> !IsErrorEffect(fx[i]) && !IsReset(fx[i])
  }

  lemma QuietAppend(a: seq<Effect>, b: seq<Effect>)
    requires Quiet(a) && Quiet(b)
    ensures Quiet(a + b)
  {
    forall i | 0 <= i < |a + b| ensures !IsErrorEffect((a + b)[i]) && !IsReset((a + b)[i]) {
      if i < |a| {
        assert (a + b)[i] == a[i];
      } else {
        assert (a + b)[i] == b[i - |a|];
      }
    }
  }

  lemma {:induction false} QuietCount(fx: seq<Effect>)
    requires Quiet(fx)
    ensures Count(fx, IsErrorEffect) == 0 && Count(fx, IsReset) == 0
  {
    if fx != [] {
      assert forall i :: 0 <= i < |fx[1..]| ==> fx[1..][i] == fx[i + 1];
      QuietCount(fx[1..]);
    }
  }

  /** The audio worker forwards a status called `error`: only such a
      message could be mistaken for the handler's own failure event. */
  predicate ForwardsError(m: Incoming) {
    m.FromAudio? && m.audio.StatusMessage? && m.audio.status == "error"
  }

  predicate QuietAttempt(a: Attempt) {
    forall i :: 0 <= i < |a.messages| ==> !ForwardsError(a.messages[i])
  }

  /** Without a forwarded `error` status, a job sends no `error` event. */
  lemma {:induction false} JobEventsQuiet(msgs: seq<Incoming>)
    requires forall i :: 0 <= i < |msgs| ==> !ForwardsError(msgs[i])
    ensures Quiet(Sends(HandleTranscriptionSpec(msgs).events))
  {
    if msgs != [] {
      assert forall i :: 0 <= i < |msgs[1..]| ==> msgs[1..][i] == msgs[i + 1];
      JobEventsQuiet(msgs[1..]);
      var job, rest := HandleTranscriptionSpec(msgs), HandleTranscriptionSpec(msgs[1..]);
      assert !ForwardsError(msgs[0]);
      if job.events != rest.events && job.events != [] {
        var head := job.events[0];
        assert head.status != "error";
        if |job.events| > 1 {
          assert job.events == [head] + rest.events;
          assert Sends(job.events) == [Sent(head)] + Sends(rest.events);
          QuietAppend([Sent(head)], Sends(rest.events));
        }
      }
    }
  }

  /** An attempt sends no `error` event and does not reset the pipeline:
      both belong to the `catch`. */
  lemma AttemptQuiet(s: ServiceState, input: Input, a: Attempt, audioPath: Option<string>)
    requires QuietAttempt(a)
    ensures Quiet(AttemptSpec(s, input, a, audioPath).effects)
  {
    var init := if s.transcriber.None? then InitSpec(s, a.load) else Init(s, Ok(()), false);
    var pre := if s.transcriber.None? then [Sent(InitializingEvent)] + (if init.started then [LoadStarted] else []) else [];
    assert Quiet(pre);
    var job := HandleTranscriptionSpec(a.messages);
    JobEventsQuiet(a.messages);
    if init.result.Ok? {
      if IsFileInput(input) {
        QuietAppend(pre, Sends(job.events));
      } else if IsUrlInput(input) {
        QuietAppend(pre, [Sent(DownloadingEvent)]);
        if a.download.Ok? {
          var cleanup := if job.settled.Resolved? then [CleanedUp(a.download.value)] else [];
          QuietAppend(pre + [Sent(DownloadingEvent)], Sends(job.events));
          QuietAppend(pre + [Sent(DownloadingEvent)] + Sends(job.events), cleanup);
        }
      }
    }
  }

  /** An attempt begins with the `initializing` event when there is no
      pipeline, and then leaves the fields as `initializeWhisper` does; with
      a pipeline it keeps it and loads nothing. */
  lemma AttemptInitializes(s: ServiceState, input: Input, a: Attempt, audioPath: Option<string>)
    ensures var r := AttemptSpec(s, input, a, audioPath);
      && (s.transcriber.None? ==>
            && r.effects != [] && r.effects[0] == Sent(InitializingEvent)
            && r.state == InitSpec(s, a.load).state)
      && (s.transcriber.Some? ==> r.state == s && LoadStarted !in r.effects)
  {
    var r := AttemptSpec(s, input, a, audioPath);
    if s.transcriber.Some? && IsUrlInput(input) && a.download.Ok? {
      var job := HandleTranscriptionSpec(a.messages);
      assert forall i :: 0 <= i < |Sends(job.events)| ==> Sends(job.events)[i].Sent?;
    }
  }

  /** The effects of a failed attempt up to its `catch` block's end: one
      `error` event, and no reset. */
  lemma FailureEffectsCount(fx: seq<Effect>, e: Thrown, cleanup: seq<Effect>)
    requires Quiet(fx) && Quiet(cleanup)
    ensures Count(fx + [Sent(ErrorEvent(e))] + cleanup, IsErrorEffect) == 1
    ensures Count(fx + [Sent(ErrorEvent(e))] + cleanup, IsReset) == 0
  {
    QuietCount(fx);
    QuietCount(cleanup);
    CountAppend(fx, [Sent(ErrorEvent(e))], IsErrorEffect);
    CountAppend(fx + [Sent(ErrorEvent(e))], cleanup, IsErrorEffect);
    CountAppend(fx, [Sent(ErrorEvent(e))], IsReset);
    CountAppend(fx + [Sent(ErrorEvent(e))], cleanup, IsReset);
  }

  /** An attempt that answers answers with a success: a job that fails
      rejects, so the `catch` takes over. */
  lemma AttemptAnswers(s: ServiceState, input: Input, a: Attempt, audioPath: Option<string>)
    ensures var r := AttemptSpec(s, input, a, audioPath);
      r.end.Answered? ==> r.end.reply.Success?
  {
    HandleTranscriptionOutcome(a.messages);
  }

  /** Effects of a failed attempt, a reset, then the next attempts' effects. */
  lemma ResetCounts(fx: seq<Effect>, next: seq<Effect>)
    requires Count(fx, IsErrorEffect) == 1 && Count(fx, IsReset) == 0
    ensures Count(fx + [TranscriberReset] + next, IsErrorEffect) == 1 + Count(next, IsErrorEffect)
    ensures Count(fx + [TranscriberReset] + next, IsReset) == 1 + Count(next, IsReset)
  {
    CountAppend(fx, [TranscriberReset], IsErrorEffect);
    CountAppend(fx + [TranscriberReset], next, IsErrorEffect);
    CountAppend(fx, [TranscriberReset], IsReset);
    CountAppend(fx + [TranscriberReset], next, IsReset);
  }

  /** A job that fails is followed by exactly one `error` event and, for a
      URL request that has an audio file, by its clean-up, on the last
      attempt as on the others; on the last attempt the handler then answers
      with the failure, otherwise the pipeline is reset and the next attempt
      begins by initializing again. */
  lemma HandlerRetry(s: ServiceState, input: Input, attempts: nat -> Attempt, retries: nat, n: nat, audioPath: Option<string>)
    requires retries >= 1
    requires AttemptSpec(s, input, attempts(n), audioPath).end.FailedWith?
    ensures var r := AttemptSpec(s, input, attempts(n), audioPath);
      var fx := r.effects + [Sent(ErrorEvent(r.end.error))] + CleanupAfterFailure(input, r.audioPath);
      var h := HandlerFrom(s, input, attempts, retries, n, audioPath);
      && (IsUrlInput(input) && r.audioPath.Some? && r.audioPath.value != "" ==> fx == r.effects + [Sent(ErrorEvent(r.end.error)), CleanedUp(r.audioPath.value)])
      && (retries == 1 ==> h.effects == fx && h.reply == Answer(Failure(FailureText(r.end.error))))
      && (retries >= 2 ==>
            && |h.effects| >= |fx| + 2
            && h.effects[..|fx|] == fx
            && h.effects[|fx|] == TranscriberReset
            && h.effects[|fx| + 1] == Sent(InitializingEvent))
  {
    var r := AttemptSpec(s, input, attempts(n), audioPath);
    var fx := r.effects + [Sent(ErrorEvent(r.end.error))] + CleanupAfterFailure(input, r.audioPath);
    if retries == 1 {
      return;
    }
    var s1 := r.state.(transcriber := None);
    AttemptInitializes(s1, input, attempts(n + 1), r.audioPath);
    var next := HandlerFrom(s1, input, attempts, retries - 1, n + 1, r.audioPath);
    assert next.effects != [] && next.effects[0] == Sent(InitializingEvent);
    var h := HandlerFrom(s, input, attempts, retries, n, audioPath);
    assert h.effects == fx + [TranscriberReset] + next.effects;
  }

  /** Attempts `n` to `n + retries - 1` are quiet. */
  predicate QuietFrom(attempts: nat -> Attempt, n: nat, retries: nat) {
    forall k :: n <= k < n + retries ==> QuietAttempt(attempts(k))
  }

  /** The handler always answers or waits on a job that never settles; it
      answers with a failure only after `retries` failed attempts, each
      reported by one `error` event, with a reset between two of them; a
      success or a hang comes after fewer failures, as many as resets. */
  lemma {:induction false} HandlerCounts(s: ServiceState, input: Input, attempts: nat -> Attempt, retries: nat, n: nat, audioPath: Option<string>)
    requires retries >= 1 && QuietFrom(attempts, n, retries)
    ensures var h := HandlerFrom(s, input, attempts, retries, n, audioPath);
      var errors, resets := Count(h.effects, IsErrorEffect), Count(h.effects, IsReset);
      && (h.reply.Answer? || h.reply.Hangs?)
      && (h.reply.Answer? && h.reply.result.Failure? ==> errors == retries && resets == retries - 1)
      && (h.reply.Answer? && h.reply.result.Success? ==> errors == resets < retries)
      && (h.reply.Hangs? ==> errors == resets < retries)
    decreases retries
  {
    var r := AttemptSpec(s, input, attempts(n), audioPath);
    var h := HandlerFrom(s, input, attempts, retries, n, audioPath);
    AttemptQuiet(s, input, attempts(n), audioPath);
    if r.end.Answered? {
      AttemptAnswers(s, input, attempts(n), audioPath);
      QuietCount(r.effects);
      assert h == Handled(r.effects, r.state, Answer(r.end.reply));
    } else if r.end.Stuck? {
      QuietCount(r.effects);
      assert h == Handled(r.effects, r.state, Hangs);
    } else {
      var fx := r.effects + [Sent(ErrorEvent(r.end.error))] + CleanupAfterFailure(input, r.audioPath);
      FailureEffectsCount(r.effects, r.end.error, CleanupAfterFailure(input, r.audioPath));
      if retries > 1 {
        var s1 := r.state.(transcriber := None);
        HandlerCounts(s1, input, attempts, retries - 1, n + 1, r.audioPath);
        var next := HandlerFrom(s1, input, attempts, retries - 1, n + 1, r.audioPath);
        assert h == Handled(fx + [TranscriberReset] + next.effects, next.state, next.reply);
        ResetCounts(fx, next.effects);
      } else {
        assert h == Handled(fx, r.state, Answer(Failure(FailureText(r.end.error))));
      }
    }
  }

  /** A success is the value some attempt's job resolved with, returned as
      it is. */
  lemma {:induction false} HandlerSuccess(s: ServiceState, input: Input, attempts: nat -> Attempt, retries: nat, n: nat, audioPath: Option<string>)
    ensures var h := HandlerFrom(s, input, attempts, retries, n, audioPath);
      h.reply.Answer? && h.reply.result.Success? ==>
        exists k :: n <= k < n + retries && HandleTranscriptionSpec(attempts(k).messages).settled == Resolved(h.reply.result)
    decreases retries
  {
    if retries > 0 {
      var r := AttemptSpec(s, input, attempts(n), audioPath);
      if r.end.Answered? {
        assert HandleTranscriptionSpec(attempts(n).messages).settled == Resolved(r.end.reply);
      } else if r.end.FailedWith? && retries > 1 {
        HandlerSuccess(r.state.(transcriber := None), input, attempts, retries - 1, n + 1, r.audioPath);
      }
    }
  }

  /** An attempt whose job resolves ends the handler with that very
      result. */
  lemma HandlerFirstSuccess(s: ServiceState, input: Input, attempts: nat -> Attempt, retries: nat, n: nat, audioPath: Option<string>)
    requires retries >= 1
    requires AttemptSpec(s, input, attempts(n), audioPath).end.Answered?
    ensures HandlerFrom(s, input, attempts, retries, n, audioPath).reply == Answer(AttemptSpec(s, input, attempts(n), audioPath).end.reply)
  {
  }

  /** A request that is neither a file with a path nor a URL with a URL
      fails on every attempt, is retried like any other failure and ends
      with a failure. */
  lemma {:induction false} InvalidInputRetried(s: ServiceState, input: Input, attempts: nat -> Attempt, retries: nat, n: nat, audioPath: Option<string>)
    requires !IsFileInput(input) && !IsUrlInput(input) && retries >= 1
    ensures var h := HandlerFrom(s, input, attempts, retries, n, audioPath);
      && h.reply.Answer? && h.reply.result.Failure?
      && (forall t, k, p :: AttemptSpec(t, input, attempts(k), p).end.FailedWith?)
    decreases retries
  {
    forall t, k, p ensures AttemptSpec(t, input, attempts(k), p).end.FailedWith? {
    }
    var r := AttemptSpec(s, input, attempts(n), audioPath);
    if retries > 1 {
      InvalidInputRetried(r.state.(transcriber := None), input, attempts, retries - 1, n + 1, r.audioPath);
    }
  }

  /** A job rejected by either worker reaches the renderer as
      `转换失败: 未知错误` and, if it was the last attempt, the answer's error
      is `转换失败`. */
  lemma WorkerFailureTexts(msgs: seq<Incoming>)
    requires HandleTranscriptionSpec(msgs).settled.Rejected?
    ensures var e := HandleTranscriptionSpec(msgs).settled.error;
      ErrorEvent(e).message == FailedPrefix + UnknownText && FailureText(e) == FailedText
  {
    HandleTranscriptionOutcome(msgs);
  }

  // ------------------------------------------------- the service object

  class Service {
    var transcriber: Option<Pipeline>
    var isInitializing: bool
    var initPromise: InitPromise
    /** How many loads this service has started. */
    ghost var loadsStarted: nat

    function State(): ServiceState
      reads this
    {
      ServiceState(transcriber, isInitializing, initPromise)
    }

    predicate Valid()
      reads this
    {
      Consistent(State())
    }

    constructor ()
      ensures Valid()
      ensures State() == ServiceState(None, false, NoPromise) && loadsStarted == 0
    {
      transcriber := None;
      isInitializing := false;
      initPromise := NoPromise;
      loadsStarted := 0;
    }

    /** The first half of a fresh load: mark it in flight. */
    method StartLoad()
      requires Valid() && transcriber.None? && !isInitializing
      modifies this
      ensures Valid()
      ensures State() == ServiceState(None, true, PendingLoad)
      ensures loadsStarted == old(loadsStarted) + 1
    {
      isInitializing := true;
      initPromise := PendingLoad;
      loadsStarted := loadsStarted + 1;
    }

    /** The second half: the load settles, and the fields follow. */
    method SettleLoad(load: LoadOutcome) returns (r: Result<(), Thrown>)
      requires Valid() && isInitializing
      modifies this
      ensures Valid()
      ensures State() == Settled(load) && r == LoadResult(load)
      ensures loadsStarted == old(loadsStarted)
    {
      match load {
        case Loaded(p) =>
          transcriber := Some(p);
          initPromise := SettledLoad;
          r := Ok(());
        case NotAFunction =>
          transcriber := None;
          initPromise := NoPromise;
          r := Err(Error(NotAFunctionText));
        case LoadThrew(e) =>
          transcriber := None;
          initPromise := NoPromise;
          r := Err(e);
      }
      isInitializing := false;
    }

    /** `initializeWhisper`. When a load is already in flight this call
        only waits for it: `load` is how that load settles. */
    method InitializeWhisper(load: LoadOutcome) returns (r: Result<(), Thrown>)
      requires Valid()
      modifies this
      ensures Valid()
      ensures State() == InitSpec(old(State()), load).state && r == InitSpec(old(State()), load).result
      ensures loadsStarted == old(loadsStarted) + (if InitSpec(old(State()), load).started then 1 else 0)
    {
      if transcriber.Some? {
        return Ok(());
      }
      if isInitializing {
        r := SettleLoad(load);
        return;
      }
      StartLoad();
      r := SettleLoad(load);
    }

    /** One attempt of the handler's loop, up to its `catch`. */
    method RunAttempt(input: Input, a: Attempt, audioPath: Option<string>) returns (r: AttemptRun)
      requires Valid()
      modifies this
      ensures Valid()
      ensures r == AttemptSpec(old(State()), input, a, audioPath) && State() == r.state
    {
      ghost var s := State();
      var effects: seq<Effect> := [];
      var init: Result<(), Thrown> := Ok(());
      if transcriber.None? {
        effects := [Sent(InitializingEvent)];
        if !isInitializing {
          effects := effects + [LoadStarted];
        }
        init := InitializeWhisper(a.load);
      }
      if init.Err? {
        return AttemptRun(effects, State(), FailedWith(init.error), audioPath);
      }
      if IsFileInput(input) {
        var job := HandleTranscriptionSpec(a.messages);
        return AttemptRun(effects + Sends(job.events), State(), JobEnd(job.settled), Some(input.path.value));
      } else if IsUrlInput(input) {
        effects := effects + [Sent(DownloadingEvent)];
        if a.download.Err? {
          return AttemptRun(effects, State(), FailedWith(a.download.error), audioPath);
        }
        var p := a.download.value;
        var job := HandleTranscriptionSpec(a.messages);
        effects := effects + Sends(job.events);
        if job.settled.Resolved? {
          effects := effects + [CleanedUp(p)];
        } else {
          AppendNil(effects);
        }
        return AttemptRun(effects, State(), JobEnd(job.settled), Some(p));
      } else {
        return AttemptRun(effects, State(), FailedWith(Error(InvalidInputText)), audioPath);
      }
    }

    /** The `transcribe-audio` handler: the `while (retries > 0)` loop. */
    method HandleTranscribeAudio(input: Input, attempts: nat -> Attempt) returns (effects: seq<Effect>, reply: Reply)
      requires Valid()
      modifies this
      ensures Valid()
      ensures Handled(effects, State(), reply) == HandleTranscribeAudioSpec(old(State()), input, attempts)
    {
      ghost var s0 := State();
      var audioPath: Option<string> := None;
      var retries: nat := Retries;
      effects := [];
      while retries > 0
        invariant Valid() && retries <= Retries
        invariant var h := HandlerFrom(State(), input, attempts, retries, Retries - retries, audioPath);
          HandleTranscribeAudioSpec(s0, input, attempts) == Handled(effects + h.effects, h.state, h.reply)
        decreases retries
      {
        ghost var before := effects;
        ghost var h := HandlerFrom(State(), input, attempts, retries, Retries - retries, audioPath);
        var r := RunAttempt(input, attempts(Retries - retries), audioPath);
        if !r.end.FailedWith? {
          effects := effects + r.effects;
          reply := if r.end.Answered? then Answer(r.end.reply) else Hangs;
          return;
        }
        var e := r.end.error;
        audioPath := r.audioPath;
        var fx := r.effects + [Sent(ErrorEvent(e))] + CleanupAfterFailure(input, audioPath);
        retries := retries - 1;
        if retries == 0 {
          effects := effects + fx;
          reply := Answer(Failure(FailureText(e)));
          return;
        }
        transcriber := None;
        ghost var next := HandlerFrom(State(), input, attempts, retries, Retries - retries, audioPath);
        assert h == Handled(fx + [TranscriberReset] + next.effects, next.state, next.reply);
        AppendAssoc(before, fx + [TranscriberReset], next.effects);
        effects := effects + (fx + [TranscriberReset]);
      }
      reply := NoValue;
    }
  }
}
