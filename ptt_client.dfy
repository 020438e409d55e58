/**
 * example_app/client.py: the push-to-talk streaming client.
 *
 * Pure parts (input-modality detection, inbound classification, the retry
 * schedule, the work a capture cycle hands to the event loop) are functions;
 * the PTTClient object, whose fields are flipped by key callbacks, by the
 * capture loop and by the retry loop, is the class Client.
 *
 * Sends and control calls are fire-and-forget submissions to the event loop
 * that owns the sockets; the model records each submission, in order, in the
 * field `submitted` and does not model what the event loop later does with it.
 */
module PttClient {
  import opened Wire
  import opened Messages

  const SampleRate: nat := 16000
  /** Adaptive fallbacks when reconnecting, largest first. */
  const ChunkSizes: seq<nat> := [4096, 2048, 1024]
  const MaxRetries: nat := 6
  const BaseBackoffSeconds: nat := 1

  // ---------------------------------------------------------------------
  // Input modality
  // ---------------------------------------------------------------------

  /** An environment variable counts as set when it is present and non-empty. */
  predicate EnvSet(v: Option<string>)
  {
    v.Some? && v.value != ""
  }

  /** Global key capture is impossible on Linux without a display, and under Wayland. */
  function EnvBlocksGlobalHotkeys(platform: string, display: Option<string>, wayland: Option<string>): (blocked: bool)
    ensures blocked <==> StartsWith(platform, "linux") && (EnvSet(wayland) || !EnvSet(display))
    ensures !StartsWith(platform, "linux") ==> !blocked
  {
    if StartsWith(platform, "linux") then
      if !EnvSet(display) && !EnvSet(wayland) then true
      else if EnvSet(wayland) then true
      else false
    else false
  }

  /** The terminal toggle replaces global push-to-talk when pynput is missing
      or the environment blocks global hotkeys. */
  function ToggleMode(platform: string, display: Option<string>, wayland: Option<string>,
                      pynputAvailable: bool): (toggle: bool)
    ensures toggle <==> !pynputAvailable ||
                        (StartsWith(platform, "linux") && (EnvSet(wayland) || !EnvSet(display)))
  {
    EnvBlocksGlobalHotkeys(platform, display, wayland) || !pynputAvailable
  }

  // ---------------------------------------------------------------------
  // Control channel
  // ---------------------------------------------------------------------

  datatype ControlCommand = Stop | ClearAudioQueue

  /** The JSON text sent for a command on the control channel. */
  function ControlPayload(c: ControlCommand): string
  {
    match c
    case Stop => "{\"command\": \"call_method\", \"method\": \"stop\"}"
    case ClearAudioQueue => "{\"command\": \"call_method\", \"method\": \"clear_audio_queue\"}"
  }

  /** Work handed to the event loop: a binary frame for the data channel, or
      the finalize-now coroutine (stop, then clear the audio queue). */
  datatype Work = SendData(frame: seq<byte>) | FinalizeNow

  // ---------------------------------------------------------------------
  // Inbound classification (receiver)
  // ---------------------------------------------------------------------

  datatype Reaction =
    | Skipped          // not JSON: ignored
    | Rejected         // data_corruption error: running cleared, listener stops
    | Final            // fullSentence surfaced
    | RecordingStart
    | RecordingStop
    | Silent           // realtime and progress kinds
    | Generic          // printed as an unclassified message
    | Crashed          // JSON but not an object: .get raises, running cleared

  const SurfacedKinds: seq<string> := ["fullSentence", "recording_start", "recording_stop"]
  const SilentKinds: seq<string> := ["realtime"] + ProgressKinds

  function React(m: Message): (r: Reaction)
    ensures r == Skipped <==> m.NotJson?
    ensures r == Crashed <==> m.NotObject?
    ensures r == Rejected <==> IsCorruptionRejection(m)
    ensures r in {Final, RecordingStart, RecordingStop} <==> m.Object? && KindIn(m, SurfacedKinds)
    ensures r == Silent <==> m.Object? && KindIn(m, SilentKinds)
    ensures r == Generic <==>
              m.Object? && !IsCorruptionRejection(m) && !KindIn(m, SurfacedKinds) && !KindIn(m, SilentKinds)
  {
    match m
    case NotJson => Skipped
    case NotObject => Crashed
    case Object(kind, error, _, _) =>
      if IsStr(kind, "error") && IsStr(error, "data_corruption") then Rejected
      else if IsStr(kind, "fullSentence") then Final
      else if IsStr(kind, "recording_start") then RecordingStart
      else if IsStr(kind, "recording_stop") then RecordingStop
      else if !KindIn(m, SilentKinds) then Generic
      else Silent
  }

  predicate Stops(r: Reaction)
  {
    r == Rejected || r == Crashed
  }

  /** An event after which the listener stops and clears `running`. */
  predicate EndsListening(e: Event)
  {
    !e.Received? || Stops(React(e.msg))
  }

  /** The reaction to every message among the events, in order. */
  function Reactions(events: seq<Event>): seq<Reaction>
  {
    if events == [] then []
    else (if events[0].Received? then [React(events[0].msg)] else []) + Reactions(events[1..])
  }

  datatype Listening = Listening(reactions: seq<Reaction>, consumed: nat, clearsRunning: bool)

  /** The listener over a run of events: it consumes them up to and including
      the first that ends listening, and reacts to every message it consumed. */
  function Listen(events: seq<Event>): Listening
  {
    if events == [] then Listening([], 0, false)
    else
      var e := events[0];
      if EndsListening(e) then Listening(if e.Received? then [React(e.msg)] else [], 1, true)
      else
        var rest := Listen(events[1..]);
        Listening([React(e.msg)] + rest.reactions, rest.consumed + 1, rest.clearsRunning)
  }

  /** The listener stops right after the first event that ends listening (or
      at the end of the run), clears `running` exactly when it met such an
      event, and its reactions are those to every message it consumed. */
  lemma {:induction false} ListenFacts(events: seq<Event>)
    ensures Listen(events).consumed <= |events|
    ensures Listen(events).clearsRunning <==>
              0 < Listen(events).consumed && EndsListening(events[Listen(events).consumed - 1])
    ensures !Listen(events).clearsRunning ==> Listen(events).consumed == |events|
    ensures forall i :: 0 <= i < Listen(events).consumed - 1 ==> !EndsListening(events[i])
    ensures Listen(events).reactions == Reactions(events[..Listen(events).consumed])
  {
    if events != [] {
      var e := events[0];
      assert Reactions(events[..1]) == (if e.Received? then [React(e.msg)] else []) + Reactions([]) by {
        assert events[..1][1..] == [];
      }
      if !EndsListening(e) {
        ListenFacts(events[1..]);
        var rest := Listen(events[1..]);
        var pre := events[..rest.consumed + 1];
        assert pre[0] == e && pre[1..] == events[1..][..rest.consumed];
        assert forall i :: 1 <= i < rest.consumed + 1 ==> events[i] == events[1..][i - 1];
      }
    }
  }

  // ---------------------------------------------------------------------
  // Capture cycle
  // ---------------------------------------------------------------------

  /** What one read of the capture stream yields. */
  datatype Capture =
    | Samples(bytes: seq<byte>)
    | CaptureFault          // any exception other than ConnectionClosed
    | ConnectionLost        // ConnectionClosed raised inside the send block

  /** The frame of chunk samples of zero that ends a capture cycle. */
  function SilenceFrame(chunk: nat, nowMs: nat): Result<seq<byte>>
  {
    EncodeFrame(SampleRate, Zeros(2 * chunk), nowMs)
  }

  /** With realistic numbers the silence frame always builds. */
  lemma SilenceFrameBuilds(chunk: nat, nowMs: nat)
    requires chunk < Pow10(19) && nowMs < Pow10(20)
    ensures SilenceFrame(chunk, nowMs).Ok?
  {
    var silence := Zeros(2 * chunk);
    assert |silence| < Pow10(20) by {
      assert Pow10(20) == 10 * Pow10(19);
    }
    assert SampleRate < Pow10(20) by {
      assert Pow10(5) == 100000;
      PowMonotone(5, 20);
    }
    EncodeFrameOutcome(SampleRate, silence, nowMs);
  }

  /** The silence frame builds, carries checksum 0 over chunk zero samples,
      and a verifying peer accepts it. */
  lemma SilenceFrameFacts(chunk: nat, nowMs: nat)
    requires chunk < Pow10(19) && nowMs < Pow10(20)
    ensures SilenceFrame(chunk, nowMs).Ok?
    ensures DecodeFrame(SilenceFrame(chunk, nowMs).value) ==
              Some((Metadata(SampleRate, Some(Integrity(chunk, 0, nowMs))), Zeros(2 * chunk)))
    ensures PeerAccepts(SilenceFrame(chunk, nowMs).value)
  {
    var silence := Zeros(2 * chunk);
    SilenceFrameBuilds(chunk, nowMs);
    ChecksumOfSilence(chunk);
    assert |silence| / 2 == chunk && Checksum(silence).value == 0;
    EncodeFrameRoundTrip(SampleRate, silence, nowMs);
  }

  /** The two silence frames and the finalize request a capture cycle hands
      over on the transition from active to inactive. Each silence frame is
      built in its own pass of the loop and reads the clock then (firstMs,
      secondMs); a frame that fails to build raises, which skips the rest of
      the silence. */
  function TailWork(wsOpen: bool, hasLoop: bool, chunk: nat, firstMs: nat, secondMs: nat): seq<Work>
  {
    var first := SilenceFrame(chunk, firstMs);
    var second := SilenceFrame(chunk, secondMs);
    (if wsOpen && hasLoop && first.Ok?
     then [SendData(first.value)] + (if second.Ok? then [SendData(second.value)] else [])
     else []) +
    (if hasLoop then [FinalizeNow] else [])
  }

  /** The tail is two frames of silence followed by the finalize request:
      each frame carries chunk samples of zero with checksum 0, stamped with
      the clock reading of its own pass, and is accepted by a verifying peer;
      finalize comes last, and only with an event loop. */
  lemma TailWorkFacts(wsOpen: bool, hasLoop: bool, chunk: nat, firstMs: nat, secondMs: nat)
    requires chunk < Pow10(19) && firstMs < Pow10(20) && secondMs < Pow10(20)
    ensures var tail := TailWork(wsOpen, hasLoop, chunk, firstMs, secondMs);
            |tail| == (if wsOpen && hasLoop then 2 else 0) + (if hasLoop then 1 else 0) &&
            (hasLoop ==> tail[|tail| - 1] == FinalizeNow) &&
            (wsOpen && hasLoop ==>
               tail[0].SendData? && tail[1].SendData? &&
               DecodeFrame(tail[0].frame) ==
                 Some((Metadata(SampleRate, Some(Integrity(chunk, 0, firstMs))), Zeros(2 * chunk))) &&
               DecodeFrame(tail[1].frame) ==
                 Some((Metadata(SampleRate, Some(Integrity(chunk, 0, secondMs))), Zeros(2 * chunk))) &&
               PeerAccepts(tail[0].frame) && PeerAccepts(tail[1].frame))
  {
    SilenceFrameBuilds(chunk, firstMs);
    SilenceFrameBuilds(chunk, secondMs);
    TailShape(wsOpen, hasLoop, chunk, firstMs, secondMs);
    SilenceFrameFacts(chunk, firstMs);
    SilenceFrameFacts(chunk, secondMs);
  }

  /** When both silence frames build, the tail is exactly the two of them,
      then finalize. */
  lemma TailShape(wsOpen: bool, hasLoop: bool, chunk: nat, firstMs: nat, secondMs: nat)
    requires SilenceFrame(chunk, firstMs).Ok? && SilenceFrame(chunk, secondMs).Ok?
    ensures TailWork(wsOpen, hasLoop, chunk, firstMs, secondMs) ==
              (if wsOpen && hasLoop
               then [SendData(SilenceFrame(chunk, firstMs).value), SendData(SilenceFrame(chunk, secondMs).value)]
               else []) +
              (if hasLoop then [FinalizeNow] else [])
  {
  }

  /** The frame an active cycle builds from what it read, if it gets that far:
      the stream must be open (reading a closed stream raises), the read must
      succeed and the bytes must frame. */
  function ActiveFrame(streamOpen: bool, capture: Capture, nowMs: nat): (r: Option<seq<byte>>)
    ensures r.Some? ==> streamOpen && capture.Samples? && |capture.bytes| % 2 == 0
    ensures (streamOpen && capture.Samples? && |capture.bytes| % 2 == 0 &&
             |capture.bytes| < Pow10(20) && nowMs < Pow10(20)) ==> r.Some?
    ensures r.Some? ==>
              DecodeFrame(r.value) ==
                Some((Metadata(SampleRate, Some(Integrity(|capture.bytes| / 2, Checksum(capture.bytes).value, nowMs))),
                      capture.bytes)) &&
              PeerAccepts(r.value)
  {
    if streamOpen && capture.Samples? && EncodeFrame(SampleRate, capture.bytes, nowMs).Ok? then
      EncodeFrameOutcome(SampleRate, capture.bytes, nowMs);
      EncodeFrameRoundTrip(SampleRate, capture.bytes, nowMs);
      Some(EncodeFrame(SampleRate, capture.bytes, nowMs).value)
    else
      EncodeFrameOutcome(SampleRate, if capture.Samples? then capture.bytes else [], nowMs);
      None
  }

  // ---------------------------------------------------------------------
  // Push-to-talk keys
  // ---------------------------------------------------------------------

  datatype Key = Space | CharKey(c: char) | OtherKey

  /** Windows compares with 'q' and 'Q'; Unix lower-cases one character and
      compares with 'q', which holds for exactly the same two characters. */
  predicate IsQuitChar(c: char)
  {
    c == 'q' || c == 'Q'
  }

  predicate IsQuitKey(k: Key)
  {
    k.CharKey? && IsQuitChar(k.c)
  }

  /** The activation flag after a run of toggle-mode characters: every space flips it. */
  function Toggled(active: bool, chars: seq<char>): bool
    decreases |chars|
  {
    if chars == [] then active else Toggled(if chars[0] == ' ' then !active else active, chars[1..])
  }

  lemma {:induction false} ToggledAppend(active: bool, s: seq<char>, t: seq<char>)
    ensures Toggled(active, s + t) == Toggled(Toggled(active, s), t)
    decreases |s|
  {
    if s != [] {
      assert (s + t)[1..] == s[1..] + t;
      ToggledAppend(if s[0] == ' ' then !active else active, s[1..], t);
    } else {
      assert s + t == t;
    }
  }

  /** Two toggles restore the activation flag. */
  lemma TwoTogglesRestore(active: bool, s: seq<char>)
    ensures Toggled(active, s + [' ', ' ']) == Toggled(active, s)
  {
    ToggledAppend(active, s, [' ', ' ']);
    var a := Toggled(active, s);
    assert [' ', ' '][1..] == [' '] && [' '][1..] == [];
    assert Toggled(a, [' ', ' ']) == Toggled(!a, [' ']) == Toggled(a, []) == a;
  }

  /** Index of the first quit character, or the length when there is none. */
  function QuitIndex(chars: seq<char>): (k: nat)
    ensures k <= |chars|
    ensures k < |chars| ==> IsQuitChar(chars[k])
    ensures forall i :: 0 <= i < k ==> !IsQuitChar(chars[i])
  {
    if chars == [] then 0
    else if IsQuitChar(chars[0]) then 0
    else 1 + QuitIndex(chars[1..])
  }

  // ---------------------------------------------------------------------
  // Reconnect policy
  // ---------------------------------------------------------------------

  /** One step of degradation: advance while a smaller size remains. */
  function NextChunkIndex(i: nat): (j: nat)
    requires i < |ChunkSizes|
    ensures i <= j < |ChunkSizes| && j <= i + 1
    ensures j == i <==> i == |ChunkSizes| - 1
  {
    if i < |ChunkSizes| - 1 then i + 1 else i
  }

  /** The chunk index after `ended` sessions have ended, starting from `start`. */
  function ChunkIndexAfter(start: nat, ended: nat): (k: nat)
    requires start < |ChunkSizes|
    ensures start <= k < |ChunkSizes|
  {
    if ended == 0 then start else NextChunkIndex(ChunkIndexAfter(start, ended - 1))
  }

  lemma {:induction false} ChunkIndexAfterClosedForm(start: nat, ended: nat)
    requires start < |ChunkSizes|
    ensures ChunkIndexAfter(start, ended) ==
              if start + ended < |ChunkSizes| then start + ended else |ChunkSizes| - 1
  {
    if ended > 0 {
      ChunkIndexAfterClosedForm(start, ended - 1);
    }
  }

  /** Degradation is monotone: a later session never uses a larger chunk. */
  lemma ChunkSizeNonIncreasing(start: nat, m: nat, n: nat)
    requires start < |ChunkSizes| && m <= n
    ensures ChunkSizes[ChunkIndexAfter(start, n)] <= ChunkSizes[ChunkIndexAfter(start, m)]
  {
    ChunkIndexAfterClosedForm(start, m);
    ChunkIndexAfterClosedForm(start, n);
  }

  function Pow2(n: nat): nat
  {
    if n == 0 then 1 else 2 * Pow2(n - 1)
  }

  /** Seconds slept after the retries-th ended session (retries counts from 1). */
  function BackoffSeconds(retries: nat): nat
    requires retries >= 1
  {
    BaseBackoffSeconds * Pow2(retries - 1)
  }

  lemma {:induction false} BackoffDoubles(retries: nat)
    requires retries >= 1
    ensures BackoffSeconds(retries + 1) == 2 * BackoffSeconds(retries)
    ensures BackoffSeconds(retries) >= 1
  {
    if retries > 1 {
      BackoffDoubles(retries - 1);
    }
  }

  /** From a fresh client: sizes 4096, 2048, 1024, 1024, ... and waits 1, 2, 4, ..., 64 s. */
  lemma FreshSchedule()
    ensures [ChunkSizes[ChunkIndexAfter(0, 0)], ChunkSizes[ChunkIndexAfter(0, 1)], ChunkSizes[ChunkIndexAfter(0, 2)],
             ChunkSizes[ChunkIndexAfter(0, 3)], ChunkSizes[ChunkIndexAfter(0, 4)], ChunkSizes[ChunkIndexAfter(0, 5)],
             ChunkSizes[ChunkIndexAfter(0, 6)]] == [4096, 2048, 1024, 1024, 1024, 1024, 1024]
    ensures [BackoffSeconds(1), BackoffSeconds(2), BackoffSeconds(3), BackoffSeconds(4),
             BackoffSeconds(5), BackoffSeconds(6), BackoffSeconds(7)] == [1, 2, 4, 8, 16, 32, 64]
  {
    ChunkIndexAfterClosedForm(0, 3);
    ChunkIndexAfterClosedForm(0, 4);
    ChunkIndexAfterClosedForm(0, 5);
    ChunkIndexAfterClosedForm(0, 6);
  }

  /** How a session started by the retry loop ended. */
  datatype SessionEnd = Ended | Interrupted   // Interrupted: KeyboardInterrupt

  /** Index of the first interrupted session, or the length when there is none. */
  function FirstInterrupt(ends: seq<SessionEnd>): (k: nat)
    ensures k <= |ends|
    ensures k < |ends| ==> ends[k] == Interrupted
    ensures forall i :: 0 <= i < k ==> ends[i] == Ended
  {
    if ends == [] then 0
    else if ends[0] == Interrupted then 0
    else
      var later := FirstInterrupt(ends[1..]);
      assert ends[0] == Ended;
      assert forall i :: 1 <= i < later + 1 ==> ends[i] == ends[1..][i - 1];
      1 + later
  }

  /** Whether a KeyboardInterrupt ends the retry loop early. */
  predicate InterruptedEarly(ends: seq<SessionEnd>)
  {
    FirstInterrupt(ends) < |ends| && FirstInterrupt(ends) <= MaxRetries
  }

  // ---------------------------------------------------------------------
  // The client object
  // ---------------------------------------------------------------------

  class Client {
    var pttActive: bool
    var running: bool
    var stopThreads: bool
    var chunkIndex: nat
    var currentChunk: nat
    var chunksSent: nat
    var streamOpen: bool       // self.stream is not None
    var wsOpen: bool           // self.ws is not None
    var controlOpen: bool      // self.control_ws is not None
    var hasLoop: bool          // self.loop is not None
    const toggleMode: bool
    var submitted: seq<Work>   // submissions to the event loop, in order

    ghost predicate Valid()
      reads this
    {
      chunkIndex < |ChunkSizes| && currentChunk == ChunkSizes[chunkIndex]
    }

    constructor (platform: string, display: Option<string>, wayland: Option<string>, pynputAvailable: bool)
      ensures Valid() && chunkIndex == 0 && currentChunk == 4096
      ensures !pttActive && !running && !stopThreads && chunksSent == 0
      ensures !streamOpen && !wsOpen && !controlOpen && !hasLoop && submitted == []
      ensures toggleMode == ToggleMode(platform, display, wayland, pynputAvailable)
    {
      pttActive, running, stopThreads := false, false, false;
      chunkIndex := 0;
      currentChunk := ChunkSizes[0];
      chunksSent := 0;
      streamOpen, wsOpen, controlOpen, hasLoop := false, false, false, false;
      toggleMode := ToggleMode(platform, display, wayland, pynputAvailable);
      submitted := [];
    }

    // ---- audio stream ----

    /** Opening is a no-op when a stream is already open; otherwise it
        succeeds exactly when the device opens. */
    method OpenStream(deviceOk: bool) returns (ok: bool)
      modifies this`streamOpen
      ensures ok == (old(streamOpen) || deviceOk)
      ensures streamOpen == ok
    {
      if streamOpen {
        return true;
      }
      if !deviceOk {
        return false;
      }
      streamOpen := true;
      ok := true;
    }

    /** Closing swallows errors and always leaves no stream. */
    method CloseStream()
      modifies this`streamOpen
      ensures !streamOpen
    {
      streamOpen := false;
    }

    // ---- control channel ----

    /** A control call is a no-op without a control channel, and a failed send is swallowed. */
    method ControlCall(cmd: ControlCommand, sendOk: bool) returns (delivered: seq<string>)
      ensures delivered == (if controlOpen && sendOk then [ControlPayload(cmd)] else [])
      ensures !controlOpen ==> delivered == []
    {
      if !controlOpen {
        return [];
      }
      delivered := if sendOk then [ControlPayload(cmd)] else [];
    }

    /** Finalize-now: stop, then clear the audio queue, each independently best-effort. */
    method ControlStopAndClear(stopOk: bool, clearOk: bool) returns (delivered: seq<string>)
      ensures !controlOpen ==> delivered == []
      ensures controlOpen && stopOk && clearOk ==>
                delivered == [ControlPayload(Stop), ControlPayload(ClearAudioQueue)]
      ensures ControlPayload(Stop) in delivered <==> controlOpen && stopOk
      ensures ControlPayload(ClearAudioQueue) in delivered <==> controlOpen && clearOk
      ensures |delivered| <= 2 && (|delivered| == 2 ==> delivered[0] == ControlPayload(Stop))
    {
      var first := ControlCall(Stop, stopOk);
      var second := ControlCall(ClearAudioQueue, clearOk);
      delivered := first + second;
    }

    // ---- session bookkeeping ----

    /** The start of one session: the event loop is recorded, the data channel
        is reopened (a failure ends the attempt), the control channel is
        reopened best-effort, and `running` is set. */
    method BeginSession(dataOk: bool, controlOk: bool) returns (connected: bool)
      modifies this`hasLoop, this`wsOpen, this`controlOpen, this`running
      ensures hasLoop && connected == dataOk && wsOpen == dataOk
      ensures dataOk ==> controlOpen == controlOk && running
      ensures !dataOk ==> controlOpen == old(controlOpen) && running == old(running)
    {
      hasLoop := true;
      wsOpen := false;
      if !dataOk {
        return false;
      }
      wsOpen := true;
      controlOpen := controlOk;
      running := true;
      connected := true;
    }

    /** The end of a session, on every exit path: both channels and the stream are closed. */
    method EndSession()
      modifies this`wsOpen, this`controlOpen, this`streamOpen
      ensures !wsOpen && !controlOpen && !streamOpen
    {
      controlOpen := false;
      wsOpen := false;
      CloseStream();
    }

    // ---- inbound listener ----

    /** The receiver task: reacts to every message it consumes and clears
        `running` on a rejection, a non-object message, a closed connection
        or any other fault; nothing after such an event is processed. */
    method Receiver(events: seq<Event>) returns (reactions: seq<Reaction>)
      modifies this`running
      ensures reactions == Listen(events).reactions
      ensures running == (old(running) && !Listen(events).clearsRunning)
    {
      reactions := [];
      ghost var wasRunning := running;
      var i := 0;
      while i < |events|
        invariant 0 <= i <= |events|
        invariant running == wasRunning
        invariant Listen(events) == Listening(reactions + Listen(events[i..]).reactions,
                                              i + Listen(events[i..]).consumed,
                                              Listen(events[i..]).clearsRunning)
      {
        var e := events[i];
        assert events[i..][0] == e && events[i..][1..] == events[i + 1..];
        if !e.Received? {
          running := false;
          return;
        }
        var r := React(e.msg);
        reactions := reactions + [r];
        if Stops(r) {
          running := false;
          return;
        }
        i := i + 1;
      }
      assert events[i..] == [];
    }

    // ---- capture loop ----

    /** An idle cycle: on the active-to-inactive transition the tail work is
        handed over and the stream closed; otherwise nothing happens. */
    method IdleCycle(wasActive: bool, firstMs: nat, secondMs: nat)
      modifies this`streamOpen, this`submitted
      ensures wasActive ==>
                submitted == old(submitted) + TailWork(wsOpen, hasLoop, currentChunk, firstMs, secondMs) && !streamOpen
      ensures !wasActive ==> submitted == old(submitted) && streamOpen == old(streamOpen)
    {
      if wasActive {
        submitted := submitted + TailWork(wsOpen, hasLoop, currentChunk, firstMs, secondMs);
        CloseStream();
      }
    }

    /** An active cycle: the stream is opened on the first active cycle
        (failure clears running and ends the loop), a chunk is read and
        framed, and submitted and counted only when the data channel and the
        event loop are there; a lost connection ends the loop. */
    method ActiveCycle(wasActive: bool, deviceOk: bool, capture: Capture, nowMs: nat)
      returns (nowActive: bool, exit: bool)
      requires running
      modifies this`streamOpen, this`running, this`chunksSent, this`submitted
      ensures !wasActive && !old(streamOpen) && !deviceOk ==>
                exit && !nowActive && !running && !streamOpen &&
                chunksSent == old(chunksSent) && submitted == old(submitted)
      ensures wasActive || old(streamOpen) || deviceOk ==>
                nowActive && streamOpen == (old(streamOpen) || !wasActive) &&
                exit == (streamOpen && capture.ConnectionLost?) && running == !exit
      ensures wasActive || old(streamOpen) || deviceOk ==>
                var f := ActiveFrame(streamOpen, capture, nowMs);
                if f.Some? && wsOpen && hasLoop
                then submitted == old(submitted) + [SendData(f.value)] && chunksSent == old(chunksSent) + 1
                else submitted == old(submitted) && chunksSent == old(chunksSent)
    {
      nowActive := wasActive;
      if !wasActive {
        var ok := OpenStream(deviceOk);
        if !ok {
          running := false;
          return false, true;
        }
        nowActive := true;
      }
      exit := false;
      if streamOpen && capture.ConnectionLost? {
        running := false;
        exit := true;
        return;
      }
      SubmitCapture(capture, nowMs);
    }

    /** The read chunk is framed and, when there is a frame, a data channel
        and an event loop, submitted and counted. */
    method SubmitCapture(capture: Capture, nowMs: nat)
      modifies this`chunksSent, this`submitted
      ensures var f := ActiveFrame(streamOpen, capture, nowMs);
              if f.Some? && wsOpen && hasLoop
              then submitted == old(submitted) + [SendData(f.value)] && chunksSent == old(chunksSent) + 1
              else submitted == old(submitted) && chunksSent == old(chunksSent)
    {
      var f := ActiveFrame(streamOpen, capture, nowMs);
      if f.Some? && wsOpen && hasLoop {
        submitted := submitted + [SendData(f.value)];
        chunksSent := chunksSent + 1;
      }
    }

    /** One iteration of the capture loop, entered while running and not told
        to stop: an idle cycle when push-to-talk is off, an active one when it
        is on. nowMs is the clock when the iteration builds its first frame,
        laterMs when an idle tail builds its second silence frame. */
    method WorkerStep(wasActive: bool, deviceOk: bool, capture: Capture, nowMs: nat, laterMs: nat)
      returns (nowActive: bool, exit: bool)
      requires Valid() && running && !stopThreads
      modifies this`streamOpen, this`running, this`chunksSent, this`submitted
      ensures Valid()
      ensures !pttActive ==> !nowActive && !exit && running && chunksSent == old(chunksSent)
      ensures !pttActive && wasActive ==>
                submitted == old(submitted) + TailWork(wsOpen, hasLoop, currentChunk, nowMs, laterMs) && !streamOpen
      ensures !pttActive && !wasActive ==> submitted == old(submitted) && streamOpen == old(streamOpen)
      ensures pttActive && !wasActive && !old(streamOpen) && !deviceOk ==>
                exit && !nowActive && !running && !streamOpen &&
                chunksSent == old(chunksSent) && submitted == old(submitted)
      ensures pttActive && (wasActive || old(streamOpen) || deviceOk) ==>
                nowActive && streamOpen == (old(streamOpen) || !wasActive) &&
                exit == (streamOpen && capture.ConnectionLost?) && running == !exit
      ensures pttActive && (wasActive || old(streamOpen) || deviceOk) ==>
                var f := ActiveFrame(streamOpen, capture, nowMs);
                if f.Some? && wsOpen && hasLoop
                then submitted == old(submitted) + [SendData(f.value)] && chunksSent == old(chunksSent) + 1
                else submitted == old(submitted) && chunksSent == old(chunksSent)
      ensures chunksSent != old(chunksSent) ==>
                pttActive && wsOpen && hasLoop && old(running) && chunksSent == old(chunksSent) + 1
    {
      if !pttActive {
        IdleCycle(wasActive, nowMs, laterMs);
        return false, false;
      }
      nowActive, exit := ActiveCycle(wasActive, deviceOk, capture, nowMs);
    }

    // ---- keys ----

    /** Global push-to-talk: space activates (only if inactive); 'q' or 'Q' quits. */
    method OnPress(key: Key)
      modifies this`pttActive, this`running
      ensures pttActive == (old(pttActive) || key == Space)
      ensures running == (old(running) && !IsQuitKey(key))
    {
      if key == Space && !pttActive {
        pttActive := true;
      }
      if IsQuitKey(key) {
        running := false;
      }
    }

    /** Global push-to-talk: releasing space while active deactivates and
        requests finalize-now once; any other release changes nothing. */
    method OnRelease(key: Key)
      modifies this`pttActive, this`submitted
      ensures key == Space && old(pttActive) ==>
                !pttActive && submitted == old(submitted) + (if hasLoop then [FinalizeNow] else [])
      ensures !(key == Space && old(pttActive)) ==>
                pttActive == old(pttActive) && submitted == old(submitted)
    {
      if key == Space && pttActive {
        pttActive := false;
        if hasLoop {
          submitted := submitted + [FinalizeNow];
        }
      }
    }

    /** The terminal toggle loop over the characters read: a space flips the
        activation flag, 'q' or 'Q' clears running and ends the loop. */
    method ToggleStdinLoop(input: seq<char>) returns (consumed: nat)
      modifies this`pttActive, this`running
      ensures stopThreads ==> consumed == 0
      ensures !stopThreads ==>
                consumed == if QuitIndex(input) < |input| then QuitIndex(input) + 1 else |input|
      ensures pttActive == Toggled(old(pttActive), input[..consumed])
      ensures running == (old(running) && !(0 < consumed && IsQuitChar(input[consumed - 1])))
    {
      consumed := 0;
      ghost var wasActive, wasRunning := pttActive, running;
      while consumed < |input| && !stopThreads
        invariant consumed <= QuitIndex(input)
        invariant stopThreads ==> consumed == 0
        invariant pttActive == Toggled(wasActive, input[..consumed])
        invariant running == wasRunning
      {
        var ch := input[consumed];
        ToggledAppend(wasActive, input[..consumed], [ch]);
        assert input[..consumed + 1] == input[..consumed] + [ch];
        if ch == ' ' {
          pttActive := !pttActive;
        } else if IsQuitChar(ch) {
          running := false;
          consumed := consumed + 1;
          return;
        }
        consumed := consumed + 1;
      }
    }

    // ---- retry loop ----

    /** After an ended session the chunk size moves one step down the ladder,
        and stays at the smallest size once there. */
    method Degrade()
      requires Valid()
      modifies this`chunkIndex, this`currentChunk
      ensures Valid() && chunkIndex == NextChunkIndex(old(chunkIndex))
      ensures currentChunk <= old(currentChunk)
    {
      if chunkIndex < |ChunkSizes| - 1 {
        chunkIndex := chunkIndex + 1;
        currentChunk := ChunkSizes[chunkIndex];
      }
    }

    /** The retry loop over sessions whose ends are given (sessions beyond the
        list end normally): at most MaxRetries + 1 sessions; a
        KeyboardInterrupt leaves without counting a retry; after every other
        end the chunk size degrades one step (never past the smallest) and the
        loop sleeps BaseBackoffSeconds * 2^(retries - 1) seconds, also after
        the last session. Returns the chunk size of each session and each sleep. */
    method Run(ends: seq<SessionEnd>) returns (sizes: seq<nat>, waits: seq<nat>)
      requires Valid()
      modifies this`chunkIndex, this`currentChunk, this`stopThreads
      ensures Valid() && stopThreads
      ensures |sizes| == (if InterruptedEarly(ends) then FirstInterrupt(ends) + 1 else MaxRetries + 1)
      ensures |waits| == (if InterruptedEarly(ends) then FirstInterrupt(ends) else MaxRetries + 1)
      ensures forall k :: 0 <= k < |sizes| ==> sizes[k] == ChunkSizes[ChunkIndexAfter(old(chunkIndex), k)]
      ensures forall k :: 0 <= k < |waits| ==> waits[k] == BackoffSeconds(k + 1)
      ensures chunkIndex == ChunkIndexAfter(old(chunkIndex), |waits|)
    {
      var retries := 0;
      ghost var start := chunkIndex;
      sizes, waits := [], [];
      while retries <= MaxRetries
        invariant Valid()
        invariant retries <= MaxRetries + 1 && |sizes| == retries && |waits| == retries
        invariant (if retries < |ends| then retries else |ends|) <= FirstInterrupt(ends)
        invariant forall k :: 0 <= k < |sizes| ==> sizes[k] == ChunkSizes[ChunkIndexAfter(start, k)]
        invariant forall k :: 0 <= k < |waits| ==> waits[k] == BackoffSeconds(k + 1)
        invariant chunkIndex == ChunkIndexAfter(start, retries)
      {
        sizes := sizes + [currentChunk];
        if retries < |ends| && ends[retries] == Interrupted {
          assert FirstInterrupt(ends) == retries;
          break;
        }
        retries := retries + 1;
        Degrade();
        waits := waits + [BaseBackoffSeconds * Pow2(retries - 1)];
      }
      assert |waits| == MaxRetries + 1 ==> !InterruptedEarly(ends);
      stopThreads := true;
    }
  }
}
