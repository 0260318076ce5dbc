/** The browser's side of a session (frontend/src/hooks/useInterviewSocket.js):
    an energy voice detector run once per animation frame, the recorder
    guard, the buffer of recorded chunks sealed into one outbound frame,
    the dispatcher for inbound frames, and the setup answer that moves the
    screen and status.

    The hook's state (its React state and refs) is the class
    `InterviewClient`; each browser event is one of its methods. What an
    event does is a function from the old state to the new one (the
    `...Step` functions over the value `Client`), and the methods are
    proved to do exactly that. Media devices, the socket, timers and
    animation frames are not modelled as objects: their events are method
    calls, and what they would report is a parameter. */
module InterviewSocket {
  import opened Common

  /** `SILENCE_THRESHOLD_MS`: how long silence must last after speech
      before the recording stops. */
  const SilenceThresholdMs := 2000

  /** `VOICE_THRESHOLD`: a sample this far above the centre 128 (or as far
      below) is no longer silence. */
  const VoiceThreshold := 132

  function Abs(x: int): (r: nat)
    ensures r == x || r == -x
  {
    if x < 0 then -x else x
  }

  /** The test the voice loop applies to one sample. */
  predicate Loud(sample: byte)
  {
    Abs(sample as int - 128) > VoiceThreshold - 128
  }

  /** A frame of time-domain samples holds voice when some sample is loud. */
  predicate HasVoice(samples: seq<byte>)
  {
    exists i :: 0 <= i < |samples| && Loud(samples[i])
  }

  /** With the threshold at 132, a sample is loud exactly when it lies
      outside 124..132. */
  lemma LoudBand(sample: byte)
    ensures Loud(sample) <==> sample < 124 || sample > 132
  {
  }

  /** A frame holds voice iff one of its samples lies outside 124..132. */
  lemma HasVoiceBand(samples: seq<byte>)
    ensures HasVoice(samples) <==> exists i :: 0 <= i < |samples| && (samples[i] < 124 || samples[i] > 132)
  {
    if HasVoice(samples) {
      var i :| 0 <= i < |samples| && Loud(samples[i]);
      LoudBand(samples[i]);
    }
    if exists i :: 0 <= i < |samples| && (samples[i] < 124 || samples[i] > 132) {
      var i :| 0 <= i < |samples| && (samples[i] < 124 || samples[i] > 132);
      LoudBand(samples[i]);
    }
  }

  /** The `for` loop of `detectVoice` over the analyser's `Uint8Array`,
      which stops at the first loud sample. */
  method ScanForVoice(dataArray: array<byte>) returns (hasVoice: bool)
    ensures hasVoice == HasVoice(dataArray[..])
  {
    hasVoice := false;
    var i := 0;
    while i < dataArray.Length
      invariant 0 <= i <= dataArray.Length
      invariant forall j :: 0 <= j < i ==> !Loud(dataArray[j])
    {
      if Abs(dataArray[i] as int - 128) > VoiceThreshold - 128 {
        hasVoice := true;
        assert dataArray[..][i] == dataArray[i];
        return;
      }
      i := i + 1;
    }
    assert forall j :: 0 <= j < |dataArray[..]| ==> dataArray[..][j] == dataArray[j];
  }

  /** `MediaRecorder.state` as the hook reads it. */
  datatype RecorderState = Inactive | Recording

  /** `WebSocket.readyState`. */
  datatype ReadyState = Connecting | Open | Closing | Closed

  /** How the setup request ended: the JSON body's `status` and `message`,
      or an exception (the request failed or the body was not JSON). */
  datatype SetupResult = Replied(status: string, message: string) | Threw

  /** An inbound text frame: a JSON object with its `type` and `data`, or
      text that does not parse. */
  datatype Inbound = Json(kind: string, data: string) | Unparsable

  /** The hook's state.
      - `interviewState`, `status`, `transcript`: its React state;
      - `socket`: the socket's ready state, once one was created
        (`socketRef`); `sent`: every frame sent over it, in order;
      - `recorder`: the recorder's state, once one exists;
        `analyserReady`: an analyser exists; `chunks`: the buffered audio;
      - `speaking`: `isSpeakingRef`; `silenceTimer`: the time (in ms) at
        which the pending silence timer fires, if one is pending;
        `frameRequested`: the voice loop's next frame is pending;
      - `player`: the audio element's current source; `replayArmed`: its
        `onended` handler (which starts recording) is installed. */
  datatype Client = Client(
    interviewState: string, status: string, transcript: seq<string>,
    socket: Option<ReadyState>, sent: seq<seq<byte>>,
    recorder: Option<RecorderState>, analyserReady: bool, chunks: seq<seq<byte>>,
    speaking: bool, silenceTimer: Option<int>, frameRequested: bool,
    player: Option<seq<byte>>, replayArmed: bool)

  /** The hook's state when `App` first renders. */
  const Initial := Client("SETUP", "Idle", [], None, [], None, false, [], false, None, false, None, false)

  /** A pending silence timer was armed when speech stopped, and speech
      has not resumed since (resuming would have cleared it). */
  predicate TimerInvariant(c: Client)
  {
    c.silenceTimer.Some? ==> !c.speaking
  }

  /** `detectVoice`, run on an animation frame at time `now` (ms) with
      the analyser's samples. Without an analyser or a running recording
      the loop ends. Otherwise a loud frame marks speech and clears the
      silence timer; a quiet frame right after speech arms one to fire
      `SILENCE_THRESHOLD_MS` later; a quiet frame in silence changes
      nothing; and the next frame is requested. */
  function DetectVoiceStep(c: Client, now: int, samples: seq<byte>): Client
  {
    if !c.analyserReady || c.recorder != Some(Recording) then c.(frameRequested := false)
    else if HasVoice(samples) then c.(speaking := true, silenceTimer := None, frameRequested := true)
    else if c.speaking then
      c.(speaking := false, silenceTimer := Some(now + SilenceThresholdMs), frameRequested := true)
    else c.(frameRequested := true)
  }

  /** `stopRecordingAndSend`: only a running recording is stopped; the
      status becomes 'Processing...' and the voice loop is cancelled. */
  function StopStep(c: Client): Client
  {
    if c.recorder == Some(Recording) then
      c.(recorder := Some(Inactive), status := "Processing...", frameRequested := false)
    else c
  }

  /** The silence timer firing at time `now` (ms): it is no longer
      pending, and it calls `stopRecordingAndSend`. Only a timer that
      `detectVoice` armed and did not clear can fire, and not before its
      deadline; otherwise the event changes nothing. */
  function SilenceTimeoutStep(c: Client, now: int): Client
  {
    if c.silenceTimer.None? || now < c.silenceTimer.value then c
    else StopStep(c.(silenceTimer := None))
  }

  /** `startRecording`: only an inactive recorder starts; the buffer is
      emptied, the status becomes 'Recording...' and the voice loop is
      started. */
  function StartStep(c: Client): Client
  {
    if c.recorder == Some(Inactive) then
      c.(chunks := [], recorder := Some(Recording), status := "Recording...", frameRequested := true)
    else c
  }

  /** `ondataavailable`: a non-empty chunk is buffered at the end. */
  function DataAvailableStep(c: Client, data: seq<byte>): Client
  {
    if |data| > 0 then c.(chunks := c.chunks + [data]) else c
  }

  /** `onstop`: with nothing buffered the status becomes 'Listening...';
      otherwise the chunks are sealed into one blob, which is sent only
      if the socket is open, and the buffer is emptied either way. */
  function RecorderStopStep(c: Client): Client
  {
    if c.chunks == [] then c.(status := "Listening...")
    else
      c.(sent := if c.socket == Some(Open) then c.sent + [Concat(c.chunks)] else c.sent,
         chunks := [])
  }

  /** `connect`: once a socket exists (even a closed one, since the ref
      is never cleared) nothing happens; otherwise one is opened. */
  function ConnectStep(c: Client): Client
  {
    if c.socket.Some? then c
    else c.(status := "Connecting...", socket := Some(Connecting))
  }

  /** `onopen`: the status becomes 'Connected' and the setup request goes
      out (its answer is `SetupResultStep`). */
  function SocketOpenStep(c: Client): Client
  {
    c.(status := "Connected", socket := Some(Open))
  }

  /** `socketRef.current?.close()`. */
  function Close(s: Option<ReadyState>): Option<ReadyState>
  {
    match s
    case Some(Connecting) => Some(Closing)
    case Some(Open) => Some(Closing)
    case _ => s
  }

  /** The end of `onSocketOpen`: 'success' shows the interview and keeps
      the status; any other answer sets 'Idle' and closes the socket; an
      exception sets 'Error'. */
  function SetupResultStep(c: Client, r: SetupResult): Client
  {
    match r
    case Replied(status, _) =>
      if status == "success" then c.(interviewState := "INTERVIEW")
      else c.(status := "Idle", socket := Close(c.socket))
    case Threw => c.(status := "Error")
  }

  /** `onclose`: the finished screen; the socket stays in its ref. */
  function SocketCloseStep(c: Client): Client
  {
    c.(interviewState := "FINISHED", socket := if c.socket.Some? then Some(Closed) else None)
  }

  /** A binary frame: the status becomes 'Speaking...', the audio element
      plays it in place of whatever it held, and its end will start a
      recording. */
  function BinaryMessageStep(c: Client, blob: seq<byte>): Client
  {
    c.(status := "Speaking...", player := Some(blob), replayArmed := true)
  }

  /** A text frame: a 'transcript' message adds its data as the last line;
      anything else is ignored. */
  function TextMessageStep(c: Client, m: Inbound): Client
  {
    match m
    case Json(kind, data) => if kind == "transcript" then c.(transcript := c.transcript + [data]) else c
    case Unparsable => c
  }

  /** The audio element's `ended` event. */
  function AudioEndedStep(c: Client): Client
  {
    if c.replayArmed then StartStep(c) else c
  }

  /** `startInterview`: 'Setting up...'; if the microphone and recorder
      could be set up, a fresh inactive recorder and an analyser are
      installed and `connect` runs; otherwise 'Error: Mic required'. */
  function StartInterviewStep(c: Client, micGranted: bool): Client
  {
    if micGranted then
      ConnectStep(c.(status := "Setting up...", analyserReady := true, recorder := Some(Inactive)))
    else c.(status := "Error: Mic required")
  }

  /** The events the hook reacts to. */
  datatype Event =
    | Frame(now: int, samples: seq<byte>)
    | SilenceTimeout(now: int)
    | DataAvailable(data: seq<byte>)
    | RecorderStop
    | SocketOpen
    | SetupAnswer(result: SetupResult)
    | SocketClose
    | BinaryMessage(blob: seq<byte>)
    | TextMessage(message: Inbound)
    | AudioEnded
    | StartInterview(micGranted: bool)

  function Apply(c: Client, e: Event): Client
  {
    match e
    case Frame(now, samples) => DetectVoiceStep(c, now, samples)
    case SilenceTimeout(now) => SilenceTimeoutStep(c, now)
    case DataAvailable(data) => DataAvailableStep(c, data)
    case RecorderStop => RecorderStopStep(c)
    case SocketOpen => SocketOpenStep(c)
    case SetupAnswer(r) => SetupResultStep(c, r)
    case SocketClose => SocketCloseStep(c)
    case BinaryMessage(blob) => BinaryMessageStep(c, blob)
    case TextMessage(m) => TextMessageStep(c, m)
    case AudioEnded => AudioEndedStep(c)
    case StartInterview(mic) => StartInterviewStep(c, mic)
  }

  /** The state after the events, handled one at a time in arrival order. */
  function Run(c: Client, events: seq<Event>): Client
    decreases |events|
  {
    if events == [] then c else Run(Apply(c, events[0]), events[1..])
  }

  // ---------------------------------------------------------------------
  // Properties of the steps

  /** A loud frame during a recording marks speech and leaves no silence
      timer pending; a quiet frame after speech ends it and arms a timer
      for 2000 ms later, when none was pending before (so one timer id is
      never overwritten); a quiet frame in silence changes nothing but the
      frame request. */
  lemma DetectVoiceCases(c: Client, now: int, samples: seq<byte>)
    requires TimerInvariant(c)
    requires c.analyserReady && c.recorder == Some(Recording)
    ensures var d := DetectVoiceStep(c, now, samples);
      && (HasVoice(samples) ==> d.speaking && d.silenceTimer.None?)
      && (!HasVoice(samples) && c.speaking ==>
            !d.speaking && d.silenceTimer == Some(now + 2000) && c.silenceTimer.None?)
      && (!HasVoice(samples) && !c.speaking ==> d == c.(frameRequested := true))
      && d.frameRequested
  {
  }

  /** Without an analyser or a running recording the loop ends at once and
      nothing else changes. */
  lemma DetectVoiceStops(c: Client, now: int, samples: seq<byte>)
    requires !c.analyserReady || c.recorder != Some(Recording)
    ensures DetectVoiceStep(c, now, samples) == c.(frameRequested := false)
  {
  }

  /** Every event keeps a pending silence timer away from speech. */
  lemma ApplyKeepsTimerInvariant(c: Client, e: Event)
    requires TimerInvariant(c)
    ensures TimerInvariant(Apply(c, e))
  {
  }

  /** So does every run of events from any state where it holds, the
      initial one included. */
  lemma {:induction false} RunKeepsTimerInvariant(c: Client, events: seq<Event>)
    requires TimerInvariant(c)
    ensures TimerInvariant(Run(c, events))
    decreases |events|
  {
    if events != [] {
      ApplyKeepsTimerInvariant(c, events[0]);
      RunKeepsTimerInvariant(Apply(c, events[0]), events[1..]);
    }
  }

  /** A run of quiet frames that starts in silence with no timer pending
      never arms one. */
  lemma {:induction false} QuietFramesNeverArmTimer(c: Client, frames: seq<(int, seq<byte>)>)
    requires !c.speaking && c.silenceTimer.None?
    requires forall i :: 0 <= i < |frames| ==> !HasVoice(frames[i].1)
    ensures RunFrames(c, frames).silenceTimer.None? && !RunFrames(c, frames).speaking
    decreases |frames|
  {
    if frames != [] {
      QuietFramesNeverArmTimer(DetectVoiceStep(c, frames[0].0, frames[0].1), frames[1..]);
    }
  }

  /** The first quiet frame after speech, at time `at`, arms a timer that
      cannot stop the recording before `SILENCE_THRESHOLD_MS` have passed,
      and does stop it once they have. */
  lemma SilenceStopsAfterThreshold(c: Client, at: int, samples: seq<byte>, now: int)
    requires c.analyserReady && c.recorder == Some(Recording) && c.speaking
    requires !HasVoice(samples)
    ensures var d := DetectVoiceStep(c, at, samples);
      && (now < at + SilenceThresholdMs ==> SilenceTimeoutStep(d, now) == d)
      && (now >= at + SilenceThresholdMs ==>
            SilenceTimeoutStep(d, now).recorder == Some(Inactive)
            && SilenceTimeoutStep(d, now).status == "Processing..."
            && SilenceTimeoutStep(d, now).silenceTimer.None?)
  {
  }

  /** An event that cannot end a silent recording by itself: anything but
      a frame with voice in it, or `startInterview` (which installs a new
      recorder in place of the running one). */
  predicate QuietEvent(e: Event)
  {
    !(e.Frame? && HasVoice(e.samples)) && !e.StartInterview?
  }

  /** One quiet event keeps a silent recording running with no timer. */
  lemma QuietEventKeepsRecording(c: Client, e: Event)
    requires c.recorder == Some(Recording) && !c.speaking && c.silenceTimer.None?
    requires QuietEvent(e)
    ensures var d := Apply(c, e);
      d.recorder == Some(Recording) && !d.speaking && d.silenceTimer.None?
  {
  }

  /** A recording in which nobody speaks is never stopped by silence: from
      a running recording with no speech and no timer pending, any run of
      quiet events leaves it running, silent and with no timer pending. */
  lemma {:induction false} SilentRecordingNeverStops(c: Client, events: seq<Event>)
    requires c.recorder == Some(Recording) && !c.speaking && c.silenceTimer.None?
    requires forall i :: 0 <= i < |events| ==> QuietEvent(events[i])
    ensures Run(c, events).recorder == Some(Recording)
    ensures !Run(c, events).speaking && Run(c, events).silenceTimer.None?
    decreases |events|
  {
    if events != [] {
      QuietEventKeepsRecording(c, events[0]);
      SilentRecordingNeverStops(Apply(c, events[0]), events[1..]);
    }
  }

  /** The state after consecutive animation frames, each with its time
      and samples. */
  function RunFrames(c: Client, frames: seq<(int, seq<byte>)>): Client
    decreases |frames|
  {
    if frames == [] then c else RunFrames(DetectVoiceStep(c, frames[0].0, frames[0].1), frames[1..])
  }

  /** `startRecording` and `stopRecordingAndSend` act only in the recorder
      state they expect, and each undoes the other's recorder state. */
  lemma RecorderGuards(c: Client)
    ensures c.recorder != Some(Inactive) ==> StartStep(c) == c
    ensures c.recorder != Some(Recording) ==> StopStep(c) == c
    ensures c.recorder == Some(Inactive) ==>
      StartStep(c).recorder == Some(Recording) && StartStep(c).chunks == []
      && StartStep(c).status == "Recording..." && StartStep(c).frameRequested
    ensures c.recorder == Some(Recording) ==>
      StopStep(c).recorder == Some(Inactive) && StopStep(c).status == "Processing..." && !StopStep(c).frameRequested
  {
  }

  /** Chunks recorded after `startRecording` are all that `onstop` can
      send: the buffer restarts empty, keeps non-empty chunks in arrival
      order, and is sealed into one blob holding their bytes in order. */
  lemma {:induction false} RecordedChunksAreSent(c: Client, chunks: seq<seq<byte>>)
    requires c.recorder == Some(Inactive) && c.socket == Some(Open)
    requires chunks != [] && forall i :: 0 <= i < |chunks| ==> |chunks[i]| > 0
    ensures RecorderStopStep(Buffer(StartStep(c), chunks)).sent == c.sent + [Concat(chunks)]
    ensures RecorderStopStep(Buffer(StartStep(c), chunks)).chunks == []
  {
    var started := StartStep(c);
    BufferAppends(started, chunks);
    assert started.chunks + chunks == chunks;
  }

  /** The state after `ondataavailable` for each chunk in turn. */
  function Buffer(c: Client, chunks: seq<seq<byte>>): Client
    decreases |chunks|
  {
    if chunks == [] then c else Buffer(DataAvailableStep(c, chunks[0]), chunks[1..])
  }

  /** Buffering non-empty chunks appends them, in order, and touches
      nothing else. */
  lemma {:induction false} BufferAppends(c: Client, chunks: seq<seq<byte>>)
    requires forall i :: 0 <= i < |chunks| ==> |chunks[i]| > 0
    ensures Buffer(c, chunks) == c.(chunks := c.chunks + chunks)
    decreases |chunks|
  {
    if chunks != [] {
      var d := DataAvailableStep(c, chunks[0]);
      BufferAppends(d, chunks[1..]);
      assert c.chunks + [chunks[0]] + chunks[1..] == c.chunks + chunks;
    }
  }

  /** What `onstop` sends: one blob exactly when something was buffered and
      the socket is open, holding every buffered byte in order; the buffer
      is empty afterwards; only an empty buffer shows 'Listening...'. */
  lemma RecorderStopSends(c: Client)
    ensures var d := RecorderStopStep(c);
      && (c.chunks != [] && c.socket == Some(Open) ==> d.sent == c.sent + [Concat(c.chunks)])
      && (c.chunks == [] || c.socket != Some(Open) ==> d.sent == c.sent)
      && d.chunks == []
      && (c.chunks == [] ==> d.status == "Listening...")
      && (c.chunks != [] ==> d.status == c.status)
  {
  }

  /** Once a socket was created, `connect` never opens another, not even
      after it closed. */
  lemma NoReconnect(c: Client)
    requires c.socket.Some?
    ensures ConnectStep(c) == c
    ensures ConnectStep(SocketCloseStep(c)) == SocketCloseStep(c)
    ensures SocketCloseStep(c).interviewState == "FINISHED"
  {
  }

  /** Transcript messages append their data at the end and nothing else
      changes; every other text frame is ignored. */
  lemma TextMessageAppends(c: Client, m: Inbound)
    ensures m.Json? && m.kind == "transcript" ==>
      TextMessageStep(c, m) == c.(transcript := c.transcript + [m.data])
    ensures !(m.Json? && m.kind == "transcript") ==> TextMessageStep(c, m) == c
  {
  }

  /** The setup answer: 'success' shows the interview and leaves the status
      as it was; any other answer goes back to 'Idle' with the socket
      closing; an exception shows 'Error' and leaves the screen. */
  lemma SetupResultCases(c: Client, r: SetupResult)
    ensures r.Replied? && r.status == "success" ==>
      SetupResultStep(c, r).interviewState == "INTERVIEW" && SetupResultStep(c, r).status == c.status
    ensures r.Replied? && r.status != "success" ==>
      SetupResultStep(c, r).status == "Idle" && SetupResultStep(c, r).interviewState == c.interviewState
      && (c.socket == Some(Open) ==> SetupResultStep(c, r).socket == Some(Closing))
    ensures r.Threw? ==> SetupResultStep(c, r) == c.(status := "Error")
  {
  }

  /** The reply audio replaces what the player held (nothing is queued),
      and its end starts a recording when the recorder is idle. */
  lemma BinaryThenEndedRecords(c: Client, blob: seq<byte>)
    requires c.recorder == Some(Inactive)
    ensures BinaryMessageStep(c, blob).player == Some(blob)
    ensures AudioEndedStep(BinaryMessageStep(c, blob)).recorder == Some(Recording)
    ensures AudioEndedStep(BinaryMessageStep(c, blob)).status == "Recording..."
  {
  }

  // ---------------------------------------------------------------------
  // The hook

  class InterviewClient {
    var interviewState: string
    var status: string
    var transcript: seq<string>
    var socket: Option<ReadyState>
    var sent: seq<seq<byte>>
    var recorder: Option<RecorderState>
    var analyserReady: bool
    var chunks: seq<seq<byte>>
    var speaking: bool
    var silenceTimer: Option<int>
    var frameRequested: bool
    var player: Option<seq<byte>>
    var replayArmed: bool

    /** The fields, as one value. */
    function State(): Client
      reads this
    {
      Client(interviewState, status, transcript, socket, sent, recorder, analyserReady, chunks,
             speaking, silenceTimer, frameRequested, player, replayArmed)
    }

    predicate Valid()
      reads this
    {
      TimerInvariant(State())
    }

    /** `useInterviewSocket()` on first render. */
    constructor ()
      ensures State() == Initial && Valid()
    {
      interviewState, status, transcript := "SETUP", "Idle", [];
      socket, sent := None, [];
      recorder, analyserReady, chunks := None, false, [];
      speaking, silenceTimer, frameRequested := false, None, false;
      player, replayArmed := None, false;
    }

    /** `detectVoice`, on an animation frame at time `now`; `samples` is
        what `getByteTimeDomainData` copies into the fresh array. */
    method DetectVoice(now: int, samples: seq<byte>)
      requires Valid()
      modifies this
      ensures State() == DetectVoiceStep(old(State()), now, samples) && Valid()
    {
      if !analyserReady || recorder != Some(Recording) {
        frameRequested := false;
        return;
      }
      var dataArray := new byte[|samples|](i requires 0 <= i < |samples| => samples[i]);
      assert dataArray[..] == samples;
      var hasVoice := ScanForVoice(dataArray);
      if hasVoice {
        speaking := true;
        silenceTimer := None;
      } else if speaking {
        speaking := false;
        silenceTimer := Some(now + SilenceThresholdMs);
      }
      frameRequested := true;
    }

    /** `stopRecordingAndSend`. */
    method StopRecordingAndSend()
      requires Valid()
      modifies this
      ensures State() == StopStep(old(State())) && Valid()
    {
      if recorder == Some(Recording) {
        recorder := Some(Inactive);
        status := "Processing...";
        frameRequested := false;
      }
    }

    /** The pending silence timer fires at time `now`, once its deadline
        has come. */
    method SilenceTimeout(now: int)
      requires Valid() && silenceTimer.Some? && now >= silenceTimer.value
      modifies this
      ensures State() == SilenceTimeoutStep(old(State()), now) && Valid()
    {
      silenceTimer := None;
      StopRecordingAndSend();
    }

    /** `startRecording`. */
    method StartRecording()
      requires Valid()
      modifies this
      ensures State() == StartStep(old(State())) && Valid()
    {
      if recorder == Some(Inactive) {
        chunks := [];
        recorder := Some(Recording);
        status := "Recording...";
        frameRequested := true;
      }
    }

    /** The recorder's `ondataavailable`. */
    method OnDataAvailable(data: seq<byte>)
      requires Valid()
      modifies this
      ensures State() == DataAvailableStep(old(State()), data) && Valid()
    {
      if |data| > 0 {
        chunks := chunks + [data];
      }
    }

    /** The recorder's `onstop`. */
    method OnRecorderStop()
      requires Valid()
      modifies this
      ensures State() == RecorderStopStep(old(State())) && Valid()
    {
      if chunks == [] {
        status := "Listening...";
        return;
      }
      var audioBlob := Concat(chunks);
      if socket == Some(Open) {
        sent := sent + [audioBlob];
      }
      chunks := [];
    }

    /** `connect`. */
    method Connect()
      requires Valid()
      modifies this
      ensures State() == ConnectStep(old(State())) && Valid()
    {
      if socket.Some? {
        return;
      }
      status := "Connecting...";
      socket := Some(Connecting);
    }

    /** The socket's `onopen`. */
    method OnSocketOpen()
      requires Valid()
      modifies this
      ensures State() == SocketOpenStep(old(State())) && Valid()
    {
      socket := Some(Open);
      status := "Connected";
    }

    /** The answer to the setup request made by `onSocketOpen`. */
    method OnSetupResult(result: SetupResult)
      requires Valid()
      modifies this
      ensures State() == SetupResultStep(old(State()), result) && Valid()
    {
      match result
      case Replied(st, _) =>
        if st == "success" {
          interviewState := "INTERVIEW";
        } else {
          status := "Idle";
          socket := Close(socket);
        }
      case Threw =>
        status := "Error";
    }

    /** The socket's `onclose`. */
    method OnSocketClose()
      requires Valid()
      modifies this
      ensures State() == SocketCloseStep(old(State())) && Valid()
    {
      interviewState := "FINISHED";
      if socket.Some? {
        socket := Some(Closed);
      }
    }

    /** `onmessage` with a binary frame. */
    method OnBinaryMessage(blob: seq<byte>)
      requires Valid()
      modifies this
      ensures State() == BinaryMessageStep(old(State()), blob) && Valid()
    {
      status := "Speaking...";
      player := Some(blob);
      replayArmed := true;
    }

    /** `onmessage` with a text frame. */
    method OnTextMessage(message: Inbound)
      requires Valid()
      modifies this
      ensures State() == TextMessageStep(old(State()), message) && Valid()
    {
      if message.Json? && message.kind == "transcript" {
        transcript := transcript + [message.data];
      }
    }

    /** The audio element's `ended` event. */
    method OnAudioEnded()
      requires Valid()
      modifies this
      ensures State() == AudioEndedStep(old(State())) && Valid()
    {
      if replayArmed {
        StartRecording();
      }
    }

    /** `startInterview`; `micGranted` says whether `getUserMedia` and the
        audio set-up succeeded. */
    method StartInterview(micGranted: bool)
      requires Valid()
      modifies this
      ensures State() == StartInterviewStep(old(State()), micGranted) && Valid()
    {
      status := "Setting up...";
      if !micGranted {
        status := "Error: Mic required";
        return;
      }
      analyserReady := true;
      recorder := Some(Inactive);
      Connect();
    }
  }
}
