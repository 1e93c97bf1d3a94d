/**
 * The recording session of the page: the start handler that acquires the
 * capture streams for one of four recording types and starts a recorder on
 * them, the recorder's data and stop callbacks, and the stop handler.
 *
 * The browser is an oracle record `Platform` fixed for one start attempt:
 * which permission prompts are granted, whether the canvas and the hidden
 * video elements are there, which MIME types `MediaRecorder.isTypeSupported`
 * accepts, whether the recorder can be built and started, and the MIME type it
 * reports when it was given none. Media tracks are values with a counter id;
 * a log of every track acquired and every track stopped makes "no capture
 * device is left on" a provable invariant.
 */
module Capture {
  import opened Opt
  import opened Media
  import Catalog
  import Encoding

  /** The four recording types the record view offers. */
  datatype RecordType = Webcam | Screen | AudioOnly | ScreenWebcam

  /** The name each type goes by in the handlers and in file names. */
  function TypeName(t: RecordType): string
  {
    match t
    case Webcam => "webcam"
    case Screen => "screen"
    case AudioOnly => "audio"
    case ScreenWebcam => "screen_webcam"
  }

  /** The start handler's comparison of its `type` argument with the four names. */
  function ParseType(s: string): (r: Option<RecordType>)
    ensures r.Some? ==> TypeName(r.value) == s
    ensures r.None? <==> forall t :: TypeName(t) != s
  {
    if s == "webcam" then Some(Webcam)
    else if s == "screen" then Some(Screen)
    else if s == "audio" then Some(AudioOnly)
    else if s == "screen_webcam" then Some(ScreenWebcam)
    else None
  }

  /** Every type is recognised by its own name, and by no other. */
  lemma ParseTypeName(t: RecordType)
    ensures ParseType(TypeName(t)) == Some(t)
  {
    assert "webcam"[0] != "screen"[0] && "webcam"[0] != "audio"[0];
    assert "screen"[0] != "audio"[0] && |"screen"| != |"screen_webcam"|;
  }

  /** A media track, audio or video. */
  datatype Track = Track(id: nat, audio: bool)

  /** One `Blob` delivered by `ondataavailable`, as its bytes. */
  type Fragment = seq<Byte>

  /** The answer to the screen-sharing prompt: refused, or shared with or without its own audio. */
  datatype Display = Refused | Shared(withAudio: bool)

  /** What the browser does during one start attempt. */
  datatype Platform = Platform(
    camera: bool,
    microphone: bool,
    display: Display,
    surfacesReady: bool,
    supported: string -> bool,
    recorderStarts: bool,
    defaultMime: string)

  /** The recorder reports either no MIME type or a `type/subtype` one. */
  predicate SaneDefault(env: Platform)
  {
    env.defaultMime == "" || '/' in env.defaultMime
  }

  /** Why a start attempt ends in the error path. */
  datatype Failure = DeviceDenied | SurfaceMissing | InvalidType | RecorderFailed

  datatype StartOutcome = Started | AlreadyRecording | Failed(reason: Failure)

  /** The kinds of the tracks one device request asks for, in order: at most a video and an audio track. */
  type Request = audio: seq<bool> | |audio| <= 2

  /** The tracks one granted request hands out, with ids counted up from `base`, the k-th an audio track iff `audio[k]`. */
  function Fresh(base: nat, audio: Request): set<Track>
  {
    if audio == [] then {}
    else if |audio| == 1 then {Track(base, audio[0])}
    else {Track(base, audio[0]), Track(base + 1, audio[1])}
  }

  predicate HasAudio(s: set<Track>)
  {
    exists t :: t in s && t.audio
  }

  predicate HasVideo(s: set<Track>)
  {
    exists t :: t in s && !t.audio
  }

  /** Every track ever acquired, and those stopped since; `next` is the next free id. */
  datatype TrackLog = TrackLog(next: nat, acquired: set<Track>, stopped: set<Track>)
  {
    ghost predicate Wf()
    {
      stopped <= acquired && forall t :: t in acquired ==> t.id < next
    }

    /** The tracks still capturing. */
    function Live(): set<Track>
    {
      acquired - stopped
    }

    /** A device request granted with the given tracks. */
    function Obtain(audio: Request): TrackLog
    {
      TrackLog(next + |audio|, acquired + Fresh(next, audio), stopped)
    }

    /** `track.stop()` on each of `ts`. */
    function Release(ts: set<Track>): TrackLog
    {
      this.(stopped := stopped + (ts * acquired))
    }
  }

  /** The k-th track asked for is among the fresh ones. */
  lemma FreshHas(base: nat, audio: Request, k: nat)
    requires k < |audio|
    ensures Track(base + k, audio[k]) in Fresh(base, audio)
  {
  }

  /** The fresh tracks hold an audio (video) track exactly when one was asked for, with ids in range. */
  lemma FreshKinds(base: nat, audio: Request)
    ensures forall t :: t in Fresh(base, audio) ==> base <= t.id < base + |audio|
    ensures HasAudio(Fresh(base, audio)) <==> true in audio
    ensures HasVideo(Fresh(base, audio)) <==> false in audio
  {
    if |audio| > 0 {
      FreshHas(base, audio, 0);
    }
    if |audio| > 1 {
      FreshHas(base, audio, 1);
    }
  }

  /** A grant adds exactly its fresh tracks to the live ones, none of them seen before. */
  lemma ObtainLive(log: TrackLog, audio: Request)
    requires log.Wf()
    ensures log.Obtain(audio).Wf()
    ensures Fresh(log.next, audio) !! log.acquired
    ensures log.Obtain(audio).Live() == log.Live() + Fresh(log.next, audio)
  {
    FreshKinds(log.next, audio);
  }

  /** Stopping tracks removes them, and only them, from the live ones. */
  lemma ReleaseLive(log: TrackLog, ts: set<Track>)
    requires log.Wf()
    ensures log.Release(ts).Wf()
    ensures log.Release(ts).Live() == log.Live() - ts
  {
  }

  /**
   * Why the device requests of a start attempt fail, or `None` when every
   * device the recording type needs is granted, following the requests each
   * type makes in order.
   */
  function DeviceFailure(t: RecordType, env: Platform): Option<Failure>
  {
    match t
    case Webcam => if env.camera then None else Some(DeviceDenied)
    case Screen =>
      if env.display.Refused? || (!env.display.withAudio && !env.microphone) then Some(DeviceDenied) else None
    case AudioOnly => if env.microphone then None else Some(DeviceDenied)
    case ScreenWebcam =>
      if env.display.Refused? || !env.camera then Some(DeviceDenied)
      else if !env.surfacesReady then Some(SurfaceMissing)
      else None
  }

  /** Why a start attempt from idle with the `type` argument `kind` fails, or `None` when the recorder starts. */
  function StartFailure(kind: string, env: Platform): Option<Failure>
  {
    match ParseType(kind)
    case None => Some(InvalidType)
    case Some(t) =>
      if DeviceFailure(t, env).Some? then DeviceFailure(t, env)
      else if !env.recorderStarts then Some(RecorderFailed)
      else None
  }

  /** Only the four type names can start, and each starts exactly when its devices and the recorder are available. */
  lemma StartConditions(kind: string, env: Platform)
    ensures StartFailure(kind, env) == None ==> ParseType(kind).Some?
    ensures (forall t :: TypeName(t) != kind) ==> StartFailure(kind, env) == Some(InvalidType)
    ensures kind == "audio" ==> (StartFailure(kind, env) == None <==> env.microphone && env.recorderStarts)
    ensures kind == "webcam" ==> (StartFailure(kind, env) == None <==> env.camera && env.recorderStarts)
    ensures kind == "screen" ==>
      (StartFailure(kind, env) == None <==>
         env.display.Shared? && (env.display.withAudio || env.microphone) && env.recorderStarts)
    ensures kind == "screen_webcam" ==>
      (StartFailure(kind, env) == None <==>
         env.display.Shared? && env.camera && env.surfacesReady && env.recorderStarts)
  {
    ParseTypeName(Webcam);
    ParseTypeName(Screen);
    ParseTypeName(AudioOnly);
    ParseTypeName(ScreenWebcam);
  }

  /** Tracks held in the recorded stream and the two side streams. */
  function Held(toRecord: Option<set<Track>>, display: set<Track>, webcam: set<Track>): set<Track>
  {
    (if toRecord.Some? then toRecord.value else {}) + display + webcam
  }

  /** The MIME type the recorder reports: the chosen candidate, or the platform's default when none was supported. */
  function RecorderMime(t: RecordType, env: Platform): string
  {
    match Encoding.FirstSupported(Encoding.Candidates(TypeName(t)), env.supported)
    case Some(m) => m
    case None => env.defaultMime
  }

  /** The MIME type of the saved file: the recorder's, or a `webm` fallback when it reports none. */
  function FinalMime(recorderMime: string, t: RecordType): string
  {
    if recorderMime != "" then recorderMime
    else if t == AudioOnly then "audio/webm"
    else "video/webm"
  }

  /** Whatever the platform does, the saved file's MIME type is a `type/subtype` one. */
  lemma FinalMimeHasSlash(t: RecordType, env: Platform)
    requires SaneDefault(env)
    ensures '/' in FinalMime(RecorderMime(t, env), t)
  {
    Encoding.CandidatesHaveSlash(TypeName(t));
    var m := RecorderMime(t, env);
    if m == "" {
      var f := FinalMime(m, t);
      assert f[5] == '/';
    }
  }

  /** The fragments `ondataavailable` keeps: the non-empty ones, in order. */
  function Kept(delivered: seq<Fragment>): (r: seq<Fragment>)
    ensures forall k :: 0 <= k < |r| ==> |r[k]| > 0
  {
    if delivered == [] then []
    else
      var last := delivered[|delivered| - 1];
      Kept(delivered[..|delivered| - 1]) + (if |last| > 0 then [last] else [])
  }

  /** `new Blob(chunks)`: the fragments' bytes, concatenated in order. */
  function Flatten(fs: seq<Fragment>): seq<Byte>
  {
    if fs == [] then [] else Flatten(fs[..|fs| - 1]) + fs[|fs| - 1]
  }

  /** `ondataavailable` on one more fragment. */
  lemma KeptAppend(delivered: seq<Fragment>, f: Fragment)
    ensures Kept(delivered + [f]) == if |f| > 0 then Kept(delivered) + [f] else Kept(delivered)
  {
    assert (delivered + [f])[..|delivered|] == delivered;
  }

  lemma FlattenAppend(fs: seq<Fragment>, f: Fragment)
    ensures Flatten(fs + [f]) == Flatten(fs) + f
  {
    assert (fs + [f])[..|fs|] == fs;
  }

  /** Dropping the empty fragments loses no byte: the blob holds everything the recorder delivered. */
  lemma {:induction false} FlattenKept(delivered: seq<Fragment>)
    ensures Flatten(Kept(delivered)) == Flatten(delivered)
  {
    if delivered != [] {
      var init := delivered[..|delivered| - 1];
      var last := delivered[|delivered| - 1];
      FlattenKept(init);
      if |last| > 0 {
        FlattenAppend(Kept(init), last);
      } else {
        assert Kept(delivered) == Kept(init) + [];
        assert Flatten(delivered) == Flatten(init) + last;
        assert last == [];
        assert Kept(init) + [] == Kept(init);
        assert Flatten(init) + last == Flatten(init);
      }
    }
  }

  /** The item the stop callback saves for a recording, given the recorder's state and the callback's inputs. */
  ghost predicate SavedAs(item: MediaItem, t: RecordType, recorderMime: string,
                          delivered: seq<Fragment>, id: nat, url: string, at: Instant)
  {
    var mime := FinalMime(recorderMime, t);
    && ExtensionOfMime(mime).Some?
    && var ext := ExtensionOfMime(mime).value;
    && item == MediaItem(id, RecordingName(TypeName(t), at, ext),
                         if t == AudioOnly then Audio else Video, url,
                         FileData(RecordingFileName(TypeName(t), ext), mime, Flatten(delivered)),
                         Recorded, at)
  }

  /**
   * The record buttons: while a recording runs, only the button of the
   * running type stays enabled.
   */
  function RecordButtonEnabled(isRecording: bool, recordingType: Option<string>, button: string): (enabled: bool)
    ensures !isRecording ==> enabled
    ensures isRecording && recordingType == Some(button) ==> enabled
    ensures isRecording && recordingType != Some(button) ==> !enabled
  {
    !(isRecording && recordingType != Some(button))
  }

  /** While a recording of a known type runs, exactly one record button is enabled, its own. */
  lemma OneButtonWhileRecording(t: RecordType, u: RecordType)
    ensures RecordButtonEnabled(true, Some(TypeName(t)), TypeName(u)) <==> t == u
  {
    ParseTypeName(t);
    ParseTypeName(u);
  }

  /**
   * A sequence of device requests starting from `log0` ended at `log`: every
   * track granted meanwhile is fresh, still live and held in one of the three
   * streams, and nothing was stopped.
   */
  ghost predicate Acquired(log0: TrackLog, log: TrackLog, toRecord: Option<set<Track>>,
                           displayStream: set<Track>, webcamStream: set<Track>)
  {
    Grew(log0, log, Held(toRecord, displayStream, webcamStream))
  }

  /** From `log0` to `log`, exactly the tracks `held` were granted, all fresh, and none was stopped. */
  ghost predicate Grew(log0: TrackLog, log: TrackLog, held: set<Track>)
  {
    && log.Wf() && log.stopped == log0.stopped && log.next >= log0.next
    && log.Live() == log0.Live() + held
    && forall t :: t in held ==> t.id >= log0.next
  }

  /** No request at all grants nothing. */
  lemma GrewNothing(log0: TrackLog)
    requires log0.Wf()
    ensures Grew(log0, log0, {})
  {
  }

  /** One more granted request adds its fresh tracks to those granted so far. */
  lemma GrowMore(log0: TrackLog, log: TrackLog, held: set<Track>, audio: Request)
    requires Grew(log0, log, held)
    ensures Grew(log0, log.Obtain(audio), held + Fresh(log.next, audio))
  {
    ObtainLive(log, audio);
    FreshKinds(log.next, audio);
  }

  /** A recorded stream with audio, and with video unless the recording is audio only. */
  predicate Recordable(t: RecordType, s: set<Track>)
  {
    HasAudio(s) && (HasVideo(s) <==> t != AudioOnly)
  }

  /** The tracks a granted request yields on `log`, with what the caller needs to know about them. */
  function Grant(log: TrackLog, audio: Request): (ts: set<Track>)
    requires log.Wf()
    ensures ts == Fresh(log.next, audio)
    ensures Grew(log, log.Obtain(audio), ts)
    ensures HasAudio(ts) <==> true in audio
    ensures HasVideo(ts) <==> false in audio
  {
    ObtainLive(log, audio);
    FreshKinds(log.next, audio);
    Fresh(log.next, audio)
  }

  /**
   * The device requests of the start handler, in order, on the track log
   * `log0`: the stream to record, the screen and camera streams a
   * screen-and-camera recording composes, and the first failure.
   */
  method Acquire(t: RecordType, env: Platform, log0: TrackLog)
    returns (log: TrackLog, toRecord: Option<set<Track>>, displayStream: set<Track>,
             webcamStream: set<Track>, failure: Option<Failure>)
    requires log0.Wf()
    ensures Acquired(log0, log, toRecord, displayStream, webcamStream)
    ensures failure == DeviceFailure(t, env)
    ensures failure.None? ==>
      toRecord.Some? && Recordable(t, toRecord.value) && (displayStream != {} <==> t == ScreenWebcam)
  {
    displayStream := {};
    webcamStream := {};
    match t
    case Webcam =>
      log, toRecord, failure := AcquireCamera(env, log0);
    case Screen =>
      log, toRecord, failure := AcquireScreen(env, log0);
    case AudioOnly =>
      log, toRecord, failure := AcquireMicrophone(env, log0);
    case ScreenWebcam =>
      log, toRecord, displayStream, webcamStream, failure := AcquireComposite(env, log0);
  }

  /** A webcam recording: one camera request for video and audio. */
  method AcquireCamera(env: Platform, log0: TrackLog)
    returns (log: TrackLog, toRecord: Option<set<Track>>, failure: Option<Failure>)
    requires log0.Wf()
    ensures Acquired(log0, log, toRecord, {}, {})
    ensures failure == DeviceFailure(Webcam, env)
    ensures failure.None? ==> toRecord.Some? && Recordable(Webcam, toRecord.value)
  {
    if env.camera {
      toRecord := Some(Grant(log0, [false, true]));
      log := log0.Obtain([false, true]);
      failure := None;
    } else {
      log, toRecord, failure := log0, None, Some(DeviceDenied);
    }
  }

  /** An audio recording: one microphone request. */
  method AcquireMicrophone(env: Platform, log0: TrackLog)
    returns (log: TrackLog, toRecord: Option<set<Track>>, failure: Option<Failure>)
    requires log0.Wf()
    ensures Acquired(log0, log, toRecord, {}, {})
    ensures failure == DeviceFailure(AudioOnly, env)
    ensures failure.None? ==> toRecord.Some? && Recordable(AudioOnly, toRecord.value)
  {
    if env.microphone {
      toRecord := Some(Grant(log0, [true]));
      log := log0.Obtain([true]);
      failure := None;
    } else {
      log, toRecord, failure := log0, None, Some(DeviceDenied);
    }
  }

  /**
   * A screen recording: the screen-sharing request, and when the shared
   * screen brings no audio, a microphone request whose track joins the stream.
   */
  method AcquireScreen(env: Platform, log0: TrackLog)
    returns (log: TrackLog, toRecord: Option<set<Track>>, failure: Option<Failure>)
    requires log0.Wf()
    ensures Acquired(log0, log, toRecord, {}, {})
    ensures failure == DeviceFailure(Screen, env)
    ensures failure.None? ==> toRecord.Some? && Recordable(Screen, toRecord.value)
  {
    log, toRecord, failure := log0, None, None;
    GrewNothing(log0);
    match env.display
    case Refused =>
      failure := Some(DeviceDenied);
    case Shared(withAudio) =>
      if withAudio {
        toRecord := Some(Grant(log, [false, true]));
        log := log.Obtain([false, true]);
      } else {
        var screen := Grant(log, [false]);
        GrowMore(log0, log, {}, [false]);
        log := log.Obtain([false]);
        toRecord := Some(screen);
        assert {} + screen == screen;
        if env.microphone {
          var mic := Grant(log, [true]);
          GrowMore(log0, log, screen, [true]);
          log := log.Obtain([true]);
          toRecord := Some(screen + mic);
        } else {
          failure := Some(DeviceDenied);
        }
      }
  }

  /**
   * A screen-and-camera recording: the screen, then the camera, then the
   * drawing surfaces, then the canvas capture stream with the mixed audio
   * destination's track.
   */
  method AcquireComposite(env: Platform, log0: TrackLog)
    returns (log: TrackLog, toRecord: Option<set<Track>>, displayStream: set<Track>,
             webcamStream: set<Track>, failure: Option<Failure>)
    requires log0.Wf()
    ensures Acquired(log0, log, toRecord, displayStream, webcamStream)
    ensures failure == DeviceFailure(ScreenWebcam, env)
    ensures failure.None? ==> toRecord.Some? && Recordable(ScreenWebcam, toRecord.value) && displayStream != {}
  {
    log, toRecord, displayStream, webcamStream, failure := log0, None, {}, {}, None;
    GrewNothing(log0);
    match env.display
    case Refused =>
      failure := Some(DeviceDenied);
    case Shared(withAudio) =>
      var shared := if withAudio then [false, true] else [false];
      displayStream := Fresh(log.next, shared);
      FreshHas(log.next, shared, 0);
      GrowMore(log0, log, {}, shared);
      log := log.Obtain(shared);
      assert {} + displayStream == Held(toRecord, displayStream, webcamStream);
      if !env.camera {
        failure := Some(DeviceDenied);
      } else {
        webcamStream := Fresh(log.next, [false, true]);
        GrowMore(log0, log, displayStream, [false, true]);
        log := log.Obtain([false, true]);
        assert displayStream + webcamStream == Held(toRecord, displayStream, webcamStream);
        if !env.surfacesReady {
          failure := Some(SurfaceMissing);
        } else {
          var canvas := Fresh(log.next, [false, true]);
          FreshKinds(log.next, [false, true]);
          GrowMore(log0, log, displayStream + webcamStream, [false, true]);
          log := log.Obtain([false, true]);
          toRecord := Some(canvas);
          assert displayStream + webcamStream + canvas == Held(toRecord, displayStream, webcamStream);
        }
      }
  }

  /**
   * The start handler up to the recorder: the device requests, then the
   * encoding choice and the recorder's construction and start, with the MIME
   * type the recorder then reports.
   */
  method Prepare(t: RecordType, env: Platform, log0: TrackLog)
    returns (log: TrackLog, toRecord: Option<set<Track>>, displayStream: set<Track>,
             webcamStream: set<Track>, mime: string, failure: Option<Failure>)
    requires log0.Wf() && SaneDefault(env)
    ensures Acquired(log0, log, toRecord, displayStream, webcamStream)
    ensures failure == StartFailure(TypeName(t), env)
    ensures failure.None? ==>
      && toRecord.Some? && Recordable(t, toRecord.value)
      && (displayStream != {} <==> t == ScreenWebcam)
      && mime == RecorderMime(t, env) && '/' in FinalMime(mime, t)
  {
    ParseTypeName(t);
    log, toRecord, displayStream, webcamStream, failure := Acquire(t, env, log0);
    mime := "";
    if failure.None? {
      var mimeType, asked := Encoding.ChooseEncoding(TypeName(t), env.supported);
      mime := if mimeType.Some? then mimeType.value else env.defaultMime;
      FinalMimeHasSlash(t, env);
      if !env.recorderStarts {
        failure := Some(RecorderFailed);
      }
    }
  }

  /**
   * What the record view keeps between handler calls: the React state
   * `isRecording` and `recordingType`, the chunk list, the recorded stream,
   * the recorder with what its stop callback closes over (the side streams,
   * the recording type and the recorder's MIME type), and the track log.
   * `delivered` is every fragment handed to `ondataavailable` since the last
   * start, empty ones included; it is there to state that no byte is lost.
   */
  datatype SessionState = SessionState(
    isRecording: bool, recordingType: Option<string>,
    chunks: seq<Fragment>, delivered: seq<Fragment>,
    stream: Option<set<Track>>, display: set<Track>, webcam: set<Track>,
    recorderActive: bool, recorderMime: string, recorderType: RecordType,
    log: TrackLog)
  {
    /** The tracks the session holds a reference to. */
    function Owned(): set<Track>
    {
      Held(stream, display, webcam)
    }
  }

  /** The state of a freshly mounted record view. */
  function Initial(): SessionState
  {
    SessionState(false, None, [], [], None, {}, {}, false, "", Webcam, TrackLog(0, {}, {}))
  }

  /**
   * The live tracks are exactly those the session holds; the chunks are the
   * non-empty fragments delivered; the flag and the recorder agree; a
   * recording has a stream and a MIME type a file extension can be read
   * from; and an idle session holds no stream.
   */
  ghost predicate Coherent(s: SessionState)
  {
    && s.log.Wf()
    && s.log.Live() == s.Owned()
    && s.chunks == Kept(s.delivered)
    && (s.isRecording <==> s.recorderActive)
    && (s.isRecording ==>
          && s.recordingType == Some(TypeName(s.recorderType))
          && s.stream.Some?
          && '/' in FinalMime(s.recorderMime, s.recorderType))
    && (!s.isRecording ==> s.recordingType == None && s.stream == None && s.display == {} && s.webcam == {})
  }

  /** An unknown recording type: the chunks are emptied before the type test fails. */
  function Cleared(s: SessionState): SessionState
  {
    s.(chunks := [], delivered := [])
  }

  /** The recorder started on `toRecord` with the side streams and the track log the device requests left. */
  function Launched(t: RecordType, log: TrackLog, toRecord: Option<set<Track>>,
                    display: set<Track>, webcam: set<Track>, mime: string): SessionState
  {
    SessionState(true, Some(TypeName(t)), [], [], toRecord, display, webcam, true, mime, t, log)
  }

  /** The error path of a start attempt: the tracks `held` are stopped and the session stays idle. */
  function Abandoned(s: SessionState, log: TrackLog, held: set<Track>): SessionState
  {
    Cleared(s).(log := log.Release(held))
  }

  /** `ondataavailable` on one fragment. */
  function Delivered(s: SessionState, f: Fragment): SessionState
  {
    s.(chunks := if |f| > 0 then s.chunks + [f] else s.chunks, delivered := s.delivered + [f])
  }

  /** The end of the stop callback: every held track stopped, the refs cleared, the session idle. */
  function Closed(s: SessionState): SessionState
  {
    s.(isRecording := false, recordingType := None, stream := None, display := {}, webcam := {},
       recorderActive := false, log := s.log.Release(s.Owned()))
  }

  /** The stop handler without a running recorder: the stream, if any, is stopped and the flags reset. */
  function Reset(s: SessionState): SessionState
  {
    var released := if s.stream.Some? then s.log.Release(s.stream.value) else s.log;
    s.(isRecording := false, recordingType := None, stream := None, log := released)
  }

  lemma InitialCoherent()
    ensures Coherent(Initial()) && Initial().log.Live() == {}
  {
    assert Kept([]) == [];
  }

  lemma ClearedCoherent(s: SessionState)
    requires Coherent(s) && !s.isRecording
    ensures Coherent(Cleared(s)) && Cleared(s).log == s.log
  {
    assert Kept([]) == [];
  }

  /** A started recorder with a recordable stream is a coherent recording session. */
  lemma LaunchedCoherent(t: RecordType, log: TrackLog, toRecord: Option<set<Track>>,
                         display: set<Track>, webcam: set<Track>, mime: string)
    requires log.Wf() && log.Live() == Held(toRecord, display, webcam)
    requires toRecord.Some? && '/' in FinalMime(mime, t)
    ensures Coherent(Launched(t, log, toRecord, display, webcam, mime))
  {
    assert Kept([]) == [];
  }

  /** The error path leaves an idle session with no live track. */
  lemma AbandonedCoherent(s: SessionState, log: TrackLog, held: set<Track>)
    requires Coherent(s) && !s.isRecording
    requires log.Wf() && log.Live() == held
    ensures Coherent(Abandoned(s, log, held))
    ensures Abandoned(s, log, held).log.Live() == {}
  {
    ClearedCoherent(s);
    ReleaseLive(log, held);
  }

  /** A delivered fragment keeps the chunks equal to the non-empty fragments delivered. */
  lemma DeliveredCoherent(s: SessionState, f: Fragment)
    requires Coherent(s)
    ensures Coherent(Delivered(s, f))
  {
    KeptAppend(s.delivered, f);
  }

  /** Closing leaves an idle session with no live track. */
  lemma ClosedCoherent(s: SessionState)
    requires Coherent(s)
    ensures Coherent(Closed(s)) && Closed(s).log.Live() == {}
  {
    ReleaseLive(s.log, s.Owned());
  }

  /** The recorder's last fragment followed by the stop callback leaves an idle session with no live track. */
  lemma StoppedCoherent(s: SessionState, flush: Fragment)
    requires Coherent(s)
    ensures Coherent(Closed(Delivered(s, flush)))
    ensures Closed(Delivered(s, flush)).log.Live() == {}
  {
    DeliveredCoherent(s, flush);
    ClosedCoherent(Delivered(s, flush));
  }

  /** The stop handler on an idle session changes nothing: an idle session holds no stream. */
  lemma ResetIdle(s: SessionState)
    requires Coherent(s) && !s.recorderActive
    ensures Reset(s) == s
  {
  }

  /**
   * The record view's recording logic. Each handler replaces the state with
   * a new value, as the component's state setters and ref assignments do.
   */
  class CaptureSession {
    var state: SessionState

    ghost predicate Valid()
      reads this
    {
      Coherent(state)
    }

    constructor ()
      ensures Valid() && state == Initial()
    {
      InitialCoherent();
      state := Initial();
    }

    /**
     * The start handler. While a recording runs it changes nothing and
     * reports it; an unknown type fails at once; otherwise it begins a new
     * attempt. Either way the chunks of the previous recording are cleared.
     */
    method Start(kind: string, env: Platform) returns (outcome: StartOutcome)
      requires Valid() && SaneDefault(env)
      modifies this
      ensures Valid()
      ensures old(state.isRecording) ==> outcome == AlreadyRecording && state == old(state)
      ensures !old(state.isRecording) ==> state.chunks == [] && state.delivered == []
      ensures !old(state.isRecording) ==> (outcome == Started <==> StartFailure(kind, env) == None)
      ensures !old(state.isRecording) && outcome != Started ==> outcome == Failed(StartFailure(kind, env).value)
      ensures outcome.Failed? ==> !state.isRecording && state.log.Live() == {}
      ensures outcome == Started ==>
        && state.isRecording && state.recordingType == Some(kind)
        && state.recorderMime == RecorderMime(state.recorderType, env)
        && Recordable(state.recorderType, state.stream.value)
        && (forall t :: t in state.Owned() ==> t.id >= old(state.log.next))
        && (state.display != {} <==> kind == "screen_webcam")
    {
      if state.isRecording {
        return AlreadyRecording;
      }
      var t := ParseType(kind);
      if t.None? {
        // the type test throws before any device is requested
        ClearedCoherent(state);
        state := Cleared(state);
        outcome := Failed(InvalidType);
      } else {
        ParseTypeName(ScreenWebcam);
        outcome := Begin(t.value, env);
      }
    }

    /**
     * A start attempt of a known type from idle: it clears the chunks,
     * requests the devices the type needs, chooses the encoding and starts
     * the recorder; when any step fails, every track acquired so far is
     * stopped and the session is idle again.
     */
    method Begin(t: RecordType, env: Platform) returns (outcome: StartOutcome)
      requires Valid() && SaneDefault(env) && !state.isRecording
      modifies this
      ensures Valid()
      ensures state.chunks == [] && state.delivered == []
      ensures outcome == Started <==> StartFailure(TypeName(t), env) == None
      ensures outcome != Started ==> outcome == Failed(StartFailure(TypeName(t), env).value)
      ensures outcome.Failed? ==> !state.isRecording && state.log.Live() == {}
      ensures outcome == Started ==>
        && state.isRecording && state.recorderType == t && state.recordingType == Some(TypeName(t))
        && state.recorderMime == RecorderMime(t, env)
        && Recordable(t, state.stream.value)
        && (forall u :: u in state.Owned() ==> u.id >= old(state.log.next))
        && (state.display != {} <==> t == ScreenWebcam)
    {
      var log, toRecord, displayStream, webcamStream, mime, failure := Prepare(t, env, state.log);
      if failure.None? {
        LaunchedCoherent(t, log, toRecord, displayStream, webcamStream, mime);
        state := Launched(t, log, toRecord, displayStream, webcamStream, mime);
        outcome := Started;
      } else {
        // the error path stops every track acquired so far
        var held := Held(toRecord, displayStream, webcamStream);
        AbandonedCoherent(state, log, held);
        state := Abandoned(state, log, held);
        outcome := Failed(failure.value);
      }
    }

    /** The recorder's `ondataavailable`: a non-empty fragment is appended to the chunks, an empty one dropped. */
    method OnDataAvailable(f: Fragment)
      requires Valid()
      modifies this
      ensures Valid()
      ensures state == Delivered(old(state), f)
    {
      DeliveredCoherent(state, f);
      state := Delivered(state, f);
    }

    /**
     * The stop handler. A running recorder hands over its last fragment and
     * runs its stop callback, which saves the recording into `catalog` and
     * stops every track; without one, the stream is released and the flags
     * are reset, which on a coherent session changes nothing.
     */
    method Stop(catalog: Catalog.MediaCatalog, flush: Fragment, url: string, at: Instant)
      returns (saved: Option<MediaItem>)
      requires Valid() && catalog.Valid()
      modifies this, catalog
      ensures Valid() && catalog.Valid()
      ensures !state.isRecording && state.recordingType == None && state.log.Live() == {}
      ensures old(state.recorderActive) ==>
        && state == Closed(Delivered(old(state), flush))
        && saved.Some?
        && SavedAs(saved.value, old(state.recorderType), old(state.recorderMime),
                   old(state.delivered) + [flush], old(catalog.nextId), url, at)
        && catalog.items == old(catalog.items) + [saved.value]
        && catalog.selected == Some(saved.value)
      ensures !old(state.recorderActive) ==> state == old(state) && saved == None && unchanged(catalog)
      ensures catalog.revoked == old(catalog.revoked)
    {
      if state.recorderActive {
        var item := SaveRecording(catalog, state, flush, url, at);
        StoppedCoherent(state, flush);
        state := Closed(Delivered(state, flush));
        saved := Some(item);
      } else {
        ResetIdle(state);
        state := Reset(state);
        saved := None;
      }
    }
  }

  /**
   * The recorder's last fragment and the first half of its stop callback on
   * the session state `s`: the chunks become one file under the recorder's
   * MIME type, and the catalog gains it as a new selected recording.
   */
  method SaveRecording(catalog: Catalog.MediaCatalog, s: SessionState, flush: Fragment, url: string, at: Instant)
    returns (item: MediaItem)
    requires Coherent(s) && s.isRecording && catalog.Valid()
    modifies catalog
    ensures catalog.Valid()
    ensures SavedAs(item, s.recorderType, s.recorderMime, s.delivered + [flush], old(catalog.nextId), url, at)
    ensures catalog.items == old(catalog.items) + [item] && catalog.selected == Some(item)
    ensures catalog.revoked == old(catalog.revoked)
  {
    KeptAppend(s.delivered, flush);
    FlattenKept(s.delivered + [flush]);
    var all := if |flush| > 0 then s.chunks + [flush] else s.chunks;
    var mime := FinalMime(s.recorderMime, s.recorderType);
    ExtensionOfMimeDefined(mime);
    var ext := ExtensionOfMime(mime).value;
    var kind := if s.recorderType == AudioOnly then Audio else Video;
    var name := TypeName(s.recorderType);
    var file := FileData(RecordingFileName(name, ext), mime, Flatten(all));
    item := catalog.AddRecording(RecordingName(name, at, ext), kind, url, file, at);
  }
}
