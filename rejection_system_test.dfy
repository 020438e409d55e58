/**
 * tests/test_rejection_system.py: a client that keeps sending chunks with a
 * wrong checksum until the peer rejects it or closes the connection, and
 * judges the peer's rejection threshold from what it observed.
 *
 * The inbound handler runs concurrently with the send loop and only sets
 * flags; it can run only while the loop awaits. The model hands it the
 * events that arrive during each pause as one batch; handling does not
 * depend on how the arrivals are cut into batches (DeliverAppend). The
 * handler here and in tests/test_client_rejection_handling.py differ only in
 * when a rejection ends it (StopRule), so the two share this machinery.
 */
module RejectionSystemTest {
  import opened Wire
  import opened Messages

  const ChecksumOffset: nat := 12345
  const LengthOffset: nat := 100

  /** (actual + 12345) & 0xFFFFFFFF: never the actual checksum. */
  function CorruptChecksum(c: uint32): (r: uint32)
    ensures r != c
    ensures (r - c) % Two32 == ChecksumOffset
  {
    (c + ChecksumOffset) % Two32
  }

  /** The metadata for a corruption type. None when the audio is not whole
      samples, or when the type is neither corruption (the metadata is then
      never bound and the send raises). */
  function CorruptedMeta(corruptionType: string, sampleRate: nat, audio: seq<byte>, nowMs: nat): (r: Option<Metadata>)
    ensures r.Some? <==> |audio| % 2 == 0 && (corruptionType == "wrong_checksum" || corruptionType == "wrong_length")
    ensures r.Some? ==> r.value.sampleRate == sampleRate && r.value.integrity.Some? &&
                        r.value.integrity.value.timestamp == nowMs
    ensures r.Some? && corruptionType == "wrong_checksum" ==>
              r.value.integrity.value.dataLength == |audio| / 2 &&
              r.value.integrity.value.checksum == CorruptChecksum(Checksum(audio).value)
    ensures r.Some? && corruptionType == "wrong_length" ==>
              r.value.integrity.value.dataLength == |audio| / 2 + LengthOffset &&
              r.value.integrity.value.checksum == Checksum(audio).value
    ensures r.Some? ==> !Consistent(r.value, audio)
  {
    var c :- if |audio| % 2 == 0 then Some(Checksum(audio).value) else None;
    if corruptionType == "wrong_checksum" then
      Some(Metadata(sampleRate, Some(Integrity(|audio| / 2, CorruptChecksum(c), nowMs))))
    else if corruptionType == "wrong_length" then
      Some(Metadata(sampleRate, Some(Integrity(|audio| / 2 + LengthOffset, c, nowMs))))
    else None
  }

  /** The frame of a corrupted chunk, when one can be built. */
  function CorruptedFrame(corruptionType: string, sampleRate: nat, audio: seq<byte>, nowMs: nat): Option<seq<byte>>
  {
    var m :- CorruptedMeta(corruptionType, sampleRate, audio, nowMs);
    var f := FrameMeta(m, audio);
    if f.Ok? then Some(f.value) else None
  }

  /** A verifying peer rejects every corrupted frame this client builds. */
  lemma CorruptedFrameRejected(corruptionType: string, sampleRate: nat, audio: seq<byte>, nowMs: nat)
    requires CorruptedFrame(corruptionType, sampleRate, audio, nowMs).Some?
    ensures !PeerAccepts(CorruptedFrame(corruptionType, sampleRate, audio, nowMs).value)
  {
    var m := CorruptedMeta(corruptionType, sampleRate, audio, nowMs).value;
    DecodeFrameMeta(m, audio);
  }

  /** The frame of a valid chunk, when one can be built. */
  function ValidFrame(sampleRate: nat, audio: seq<byte>, nowMs: nat): (r: Option<seq<byte>>)
    ensures r.Some? ==> PeerAccepts(r.value)
    ensures (|audio| % 2 == 0 && sampleRate < Pow10(20) && |audio| < Pow10(20) && nowMs < Pow10(20)) ==> r.Some?
  {
    var f := EncodeFrame(sampleRate, audio, nowMs);
    EncodeFrameOutcome(sampleRate, audio, nowMs);
    if f.Ok? then
      EncodeFrameRoundTrip(sampleRate, audio, nowMs);
      Some(f.value)
    else None
  }

  /** What the test observes: frames delivered, the counter, the two flags
      the handler sets, and whether the handler is still listening. */
  datatype State = State(sent: seq<seq<byte>>, chunksSent: nat, closed: bool, rejected: bool, listening: bool)

  /** When a data_corruption rejection ends the handler's loop: only when
      its action is "disconnect" (tests/test_rejection_system.py), or always
      (tests/test_client_rejection_handling.py). */
  datatype StopRule = StopOnDisconnect | StopOnRejection

  predicate RejectionStops(rule: StopRule, m: Message)
    requires m.Object?
  {
    rule == StopOnRejection || IsStr(m.action, "disconnect")
  }

  /** The inbound handler over a batch of events. A rejection sets its flag
      and may end listening; a closed connection sets the other flag; a
      transport fault or a message that is not a JSON object ends it; any
      other message is only reported. */
  function Deliver(rule: StopRule, s: State, events: seq<Event>): (r: State)
    ensures r.sent == s.sent && r.chunksSent == s.chunksSent
    ensures (s.rejected ==> r.rejected) && (s.closed ==> r.closed)
    ensures !s.listening ==> r == s
    decreases |events|
  {
    if events == [] || !s.listening then s
    else
      match events[0]
      case Closed => s.(closed := true, listening := false)
      case Fault => s.(listening := false)
      case Received(m) =>
        if !m.Object? then s.(listening := false)
        else if IsCorruptionRejection(m) then
          if RejectionStops(rule, m) then s.(rejected := true, listening := false)
          else Deliver(rule, s.(rejected := true), events[1..])
        else Deliver(rule, s, events[1..])
  }

  /** Handling two batches in turn is handling their concatenation, so how
      the arrivals are cut into batches does not matter. */
  lemma {:induction false} DeliverAppend(rule: StopRule, s: State, a: seq<Event>, b: seq<Event>)
    ensures Deliver(rule, s, a + b) == Deliver(rule, Deliver(rule, s, a), b)
    decreases |a|
  {
    if a == [] {
      assert a + b == b;
    } else if s.listening {
      assert (a + b)[0] == a[0] && (a + b)[1..] == a[1..] + b;
      match a[0]
      case Closed =>
      case Fault =>
      case Received(m) =>
        if m.Object? && IsCorruptionRejection(m) && !RejectionStops(rule, m) {
          DeliverAppend(rule, s.(rejected := true), a[1..], b);
        } else if m.Object? && !IsCorruptionRejection(m) {
          DeliverAppend(rule, s, a[1..], b);
        }
    }
  }

  predicate IsRejectionEvent(e: Event)
  {
    e.Received? && IsCorruptionRejection(e.msg)
  }

  /** The rejection flag rises only on a data_corruption message. */
  lemma {:induction false} RejectedOnlyByRejection(rule: StopRule, s: State, events: seq<Event>)
    ensures Deliver(rule, s, events).rejected && !s.rejected ==>
              exists i :: 0 <= i < |events| && IsRejectionEvent(events[i])
    decreases |events|
  {
    if events != [] && s.listening && events[0].Received? {
      var m := events[0].msg;
      if m.Object? && !IsCorruptionRejection(m) {
        RejectedOnlyByRejection(rule, s, events[1..]);
        if Deliver(rule, s, events).rejected && !s.rejected {
          var i :| 0 <= i < |events[1..]| && IsRejectionEvent(events[1..][i]);
          assert IsRejectionEvent(events[i + 1]);
        }
      } else if m.Object? {
        assert IsRejectionEvent(events[0]);
      }
    }
  }

  /** An event after which the handler is certainly still listening. */
  predicate KeepsListening(rule: StopRule, e: Event)
  {
    e.Received? && e.msg.Object? && !(IsCorruptionRejection(e.msg) && RejectionStops(rule, e.msg))
  }

  /** Conversely, a listening handler that reaches a rejection raises the flag. */
  lemma {:induction false} RejectionRaisesFlag(rule: StopRule, s: State, events: seq<Event>, i: nat)
    requires s.listening && i < |events| && IsRejectionEvent(events[i])
    requires forall j :: 0 <= j < i ==> KeepsListening(rule, events[j])
    ensures Deliver(rule, s, events).rejected
    decreases i
  {
    if i > 0 {
      assert KeepsListening(rule, events[0]);
      var s1 := if IsCorruptionRejection(events[0].msg) then s.(rejected := true) else s;
      forall j | 0 <= j < i - 1
        ensures KeepsListening(rule, events[1..][j])
      {
        assert events[1..][j] == events[j + 1];
      }
      RejectionRaisesFlag(rule, s1, events[1..], i - 1);
    }
  }

  /** One send of a frame, when one could be built: (new state, success).
      Without a data channel or without a frame nothing happens; a delivered
      frame is recorded and counted; a closed connection sets the flag; any
      other failure changes nothing. */
  function SendFrame(s: State, wsOpen: bool, frame: Option<seq<byte>>, outcome: SendOutcome): (r: (State, bool))
    ensures r.1 <==> wsOpen && frame.Some? && outcome == Delivered
    ensures r.1 ==> r.0 == s.(sent := s.sent + [frame.value], chunksSent := s.chunksSent + 1)
    ensures !r.1 ==> r.0 == s.(closed := s.closed || (wsOpen && frame.Some? && outcome == ClosedOnSend))
  {
    if !wsOpen || frame.None? then (s, false)
    else
      match outcome
      case Delivered => (s.(sent := s.sent + [frame.value], chunksSent := s.chunksSent + 1), true)
      case ClosedOnSend => (s.(closed := true), false)
      case FailedOnSend => (s, false)
  }

  /** One iteration of a send loop: the clock reading for the chunk, how its
      send ends, and what reaches the handler during the pause after it. */
  datatype Round = Round(nowMs: nat, outcome: SendOutcome, arrivals: seq<Event>)

  /** The frame each round sends: a wrong checksum stamped with that round's clock. */
  function LoopFrames(sampleRate: nat, audio: seq<byte>, rounds: seq<Round>): (r: seq<Option<seq<byte>>>)
    ensures |r| == |rounds|
  {
    seq(|rounds|, i requires 0 <= i < |rounds| => CorruptedFrame("wrong_checksum", sampleRate, audio, rounds[i].nowMs))
  }

  /** No frame of the list is one a verifying peer accepts. */
  predicate NoneAccepted(frames: seq<Option<seq<byte>>>)
  {
    forall k :: 0 <= k < |frames| && frames[k].Some? ==> !PeerAccepts(frames[k].value)
  }

  lemma LoopFramesRejected(sampleRate: nat, audio: seq<byte>, rounds: seq<Round>)
    ensures NoneAccepted(LoopFrames(sampleRate, audio, rounds))
  {
    var frames := LoopFrames(sampleRate, audio, rounds);
    forall k | 0 <= k < |frames| && frames[k].Some?
      ensures !PeerAccepts(frames[k].value)
    {
      CorruptedFrameRejected("wrong_checksum", sampleRate, audio, rounds[k].nowMs);
    }
  }

  /** A send loop over its rounds, each round with its frame: leave before
      sending once either flag is up, and right after a send that fails;
      otherwise let the handler take what arrives during the pause. */
  function SendLoop(rule: StopRule, s: State, frames: seq<Option<seq<byte>>>, rounds: seq<Round>): State
    requires |frames| == |rounds|
    decreases |rounds|
  {
    if rounds == [] || s.closed || s.rejected then s
    else
      var (s1, ok) := SendFrame(s, true, frames[0], rounds[0].outcome);
      if !ok then s1 else SendLoop(rule, Deliver(rule, s1, rounds[0].arrivals), frames[1..], rounds[1..])
  }

  /** Every frame of the list is one a verifying peer rejects. */
  predicate AllRejected(frames: seq<seq<byte>>)
  {
    forall k :: 0 <= k < |frames| ==> !PeerAccepts(frames[k])
  }

  /** The frames a run added to those already sent. */
  function Added(before: State, after: State): seq<seq<byte>>
    requires |before.sent| <= |after.sent|
  {
    after.sent[|before.sent|..]
  }

  /** A send loop sends at most one chunk per round, only frames of its
      rounds, counts every one, never lowers a flag, and sends nothing once
      a flag is up. */
  lemma SendLoopFacts(rule: StopRule, s: State, frames: seq<Option<seq<byte>>>, rounds: seq<Round>)
    requires |frames| == |rounds| && NoneAccepted(frames)
    ensures var r := SendLoop(rule, s, frames, rounds);
            |s.sent| <= |r.sent| && r.sent == s.sent + Added(s, r) && AllRejected(Added(s, r)) &&
            r.chunksSent - s.chunksSent == |Added(s, r)| <= |rounds| &&
            (s.rejected ==> r.rejected) && (s.closed ==> r.closed) &&
            (s.rejected || s.closed ==> r == s)
  {
    SendLoopSends(rule, s, frames, rounds);
    SendLoopFlags(rule, s, frames, rounds);
  }

  /** What the loop sends: frames appended one per delivered round, each rejected. */
  lemma {:induction false} SendLoopSends(rule: StopRule, s: State, frames: seq<Option<seq<byte>>>, rounds: seq<Round>)
    requires |frames| == |rounds| && NoneAccepted(frames)
    ensures var r := SendLoop(rule, s, frames, rounds);
            |s.sent| <= |r.sent| && r.sent == s.sent + Added(s, r) && AllRejected(Added(s, r)) &&
            r.chunksSent - s.chunksSent == |Added(s, r)| <= |rounds|
    decreases |rounds|
  {
    var r := SendLoop(rule, s, frames, rounds);
    if rounds == [] || s.closed || s.rejected {
      assert r.sent == s.sent + [];
    } else {
      var (s1, ok) := SendFrame(s, true, frames[0], rounds[0].outcome);
      if !ok {
        assert r.sent == s.sent + [];
      } else {
        var s2 := Deliver(rule, s1, rounds[0].arrivals);
        assert NoneAccepted(frames[1..]) by {
          forall k | 0 <= k < |frames[1..]| && frames[1..][k].Some?
            ensures !PeerAccepts(frames[1..][k].value)
          {
            assert frames[1..][k] == frames[k + 1];
          }
        }
        SendLoopSends(rule, s2, frames[1..], rounds[1..]);
        var more := Added(s2, r);
        assert r.sent == s.sent + ([frames[0].value] + more);
        var added := Added(s, r);
        assert added == [frames[0].value] + more;
        forall k | 0 <= k < |added|
          ensures !PeerAccepts(added[k])
        {
          if k > 0 {
            assert added[k] == more[k - 1];
          }
        }
      }
    }
  }

  /** The loop never lowers the rejected or closed flags, and does nothing once either is up. */
  lemma {:induction false} SendLoopFlags(rule: StopRule, s: State, frames: seq<Option<seq<byte>>>, rounds: seq<Round>)
    requires |frames| == |rounds|
    ensures var r := SendLoop(rule, s, frames, rounds);
            (s.rejected ==> r.rejected) && (s.closed ==> r.closed) && (s.rejected || s.closed ==> r == s)
    decreases |rounds|
  {
    if rounds != [] && !s.closed && !s.rejected {
      var (s1, ok) := SendFrame(s, true, frames[0], rounds[0].outcome);
      if ok {
        SendLoopFlags(rule, Deliver(rule, s1, rounds[0].arrivals), frames[1..], rounds[1..]);
      }
    }
  }

  /** The run of the threshold test after connecting, given the loop's
      frames and the probe's frame: the loop; unless the connection is known
      closed, the pause for the peer's last word and then, if still not
      closed, the probe send and the pause after it. */
  function RunWith(s: State, frames: seq<Option<seq<byte>>>, rounds: seq<Round>, settle: seq<Event>,
                   probeFrame: Option<seq<byte>>, probe: Round): State
    requires |frames| == |rounds|
  {
    var s0 := SendLoop(StopOnDisconnect, s, frames, rounds);
    if s0.closed then s0
    else
      var s1 := Deliver(StopOnDisconnect, s0, settle);
      if s1.closed then s1
      else Deliver(StopOnDisconnect, SendFrame(s1, true, probeFrame, probe.outcome).0, probe.arrivals)
  }

  /** The run of the threshold test, each frame a wrong checksum stamped with
      the clock of its round or of the probe. */
  function ThresholdRun(s: State, sampleRate: nat, audio: seq<byte>, rounds: seq<Round>,
                        settle: seq<Event>, probe: Round): State
  {
    RunWith(s, LoopFrames(sampleRate, audio, rounds), rounds, settle,
            CorruptedFrame("wrong_checksum", sampleRate, audio, probe.nowMs), probe)
  }

  lemma RunWithFacts(s: State, frames: seq<Option<seq<byte>>>, rounds: seq<Round>, settle: seq<Event>,
                     probeFrame: Option<seq<byte>>, probe: Round)
    requires |frames| == |rounds| && NoneAccepted(frames)
    requires probeFrame.Some? ==> !PeerAccepts(probeFrame.value)
    ensures var r := RunWith(s, frames, rounds, settle, probeFrame, probe);
            |s.sent| <= |r.sent| && r.sent == s.sent + Added(s, r) && AllRejected(Added(s, r)) &&
            r.chunksSent - s.chunksSent == |Added(s, r)| <= |rounds| + 1
  {
    SendLoopFacts(StopOnDisconnect, s, frames, rounds);
    var s0 := SendLoop(StopOnDisconnect, s, frames, rounds);
    var s1 := Deliver(StopOnDisconnect, s0, settle);
    var r := RunWith(s, frames, rounds, settle, probeFrame, probe);
    if !s0.closed && !s1.closed && SendFrame(s1, true, probeFrame, probe.outcome).1 {
      var loopAdded := Added(s, s1);
      assert r.sent == s.sent + (loopAdded + [probeFrame.value]);
      assert Added(s, r) == loopAdded + [probeFrame.value];
    }
  }

  /** The threshold test sends at most |rounds| + 1 chunks, counts every one,
      and a verifying peer rejects each of them. */
  lemma ThresholdRunFacts(s: State, sampleRate: nat, audio: seq<byte>, rounds: seq<Round>,
                          settle: seq<Event>, probe: Round)
    ensures var r := ThresholdRun(s, sampleRate, audio, rounds, settle, probe);
            |s.sent| <= |r.sent| && r.sent == s.sent + Added(s, r) && AllRejected(Added(s, r)) &&
            r.chunksSent - s.chunksSent == |Added(s, r)| <= |rounds| + 1
  {
    var probeFrame := CorruptedFrame("wrong_checksum", sampleRate, audio, probe.nowMs);
    LoopFramesRejected(sampleRate, audio, rounds);
    if probeFrame.Some? {
      CorruptedFrameRejected("wrong_checksum", sampleRate, audio, probe.nowMs);
    }
    RunWithFacts(s, LoopFrames(sampleRate, audio, rounds), rounds, settle, probeFrame, probe);
  }

  /** The verdict. The threshold-0 branch is the general rule at 0, so both
      branches say: at most threshold + 1 chunks went out, and the peer
      rejected or closed. */
  function Verdict(threshold: int, chunksSent: nat, rejected: bool, closed: bool): (pass: bool)
    ensures pass <==> chunksSent <= threshold + 1 && (rejected || closed)
  {
    if threshold == 0 then chunksSent <= 1 && (rejected || closed)
    else chunksSent <= threshold + 1 && (rejected || closed)
  }

  /** range(threshold + 5) runs max(threshold + 5, 0) times. */
  function LoopRounds(threshold: int): nat
  {
    if threshold + 5 < 0 then 0 else threshold + 5
  }

  class Client {
    const sampleRate: nat
    var dataWsOpen: bool
    var sent: seq<seq<byte>>     // frames delivered on the data channel, in order
    var chunksSent: nat
    var connectionClosed: bool
    var rejectionReceived: bool
    var listening: bool          // the handler task is still iterating

    function Snapshot(): State
      reads this
    {
      State(sent, chunksSent, connectionClosed, rejectionReceived, listening)
    }

    constructor (sampleRate: nat)
      ensures this.sampleRate == sampleRate && !dataWsOpen
      ensures Snapshot() == State([], 0, false, false, false)
    {
      this.sampleRate := sampleRate;
      dataWsOpen, sent, chunksSent := false, [], 0;
      connectionClosed, rejectionReceived, listening := false, false, false;
    }

    /** The handler task, over the events that reach it in one stretch. */
    method HandleDataMessages(events: seq<Event>)
      modifies this`connectionClosed, this`rejectionReceived, this`listening
      ensures Snapshot() == Deliver(StopOnDisconnect, old(Snapshot()), events)
    {
      ghost var target := Deliver(StopOnDisconnect, Snapshot(), events);
      var i := 0;
      while i < |events| && listening
        invariant 0 <= i <= |events|
        invariant target == Deliver(StopOnDisconnect, Snapshot(), events[i..])
        decreases |events| - i
      {
        assert events[i..][0] == events[i] && events[i..][1..] == events[i + 1..];
        match events[i] {
          case Closed =>
            connectionClosed, listening := true, false;
          case Fault =>
            listening := false;
          case Received(m) =>
            if !m.Object? {
              listening := false;
            } else if IsCorruptionRejection(m) {
              rejectionReceived := true;
              if IsStr(m.action, "disconnect") {
                listening := false;
              }
            }
        }
        i := i + 1;
      }
    }

    /** Awaiting the send of a built frame, when there is one. */
    method SendFrameOn(frame: Option<seq<byte>>, outcome: SendOutcome) returns (success: bool)
      modifies this`sent, this`chunksSent, this`connectionClosed
      ensures (Snapshot(), success) == SendFrame(old(Snapshot()), dataWsOpen, frame, outcome)
    {
      if !dataWsOpen || frame.None? {
        return false;
      }
      match outcome
      case Delivered =>
        sent, chunksSent := sent + [frame.value], chunksSent + 1;
        success := true;
      case ClosedOnSend =>
        connectionClosed := true;
        success := false;
      case FailedOnSend =>
        success := false;
    }

    method SendCorruptedChunk(corruptionType: string, audio: seq<byte>, nowMs: nat, outcome: SendOutcome)
      returns (success: bool)
      modifies this`sent, this`chunksSent, this`connectionClosed
      ensures (Snapshot(), success) ==
                SendFrame(old(Snapshot()), dataWsOpen, CorruptedFrame(corruptionType, sampleRate, audio, nowMs), outcome)
    {
      success := SendFrameOn(CorruptedFrame(corruptionType, sampleRate, audio, nowMs), outcome);
    }

    method SendValidChunk(audio: seq<byte>, nowMs: nat, outcome: SendOutcome) returns (success: bool)
      modifies this`sent, this`chunksSent, this`connectionClosed
      ensures (Snapshot(), success) == SendFrame(old(Snapshot()), dataWsOpen, ValidFrame(sampleRate, audio, nowMs), outcome)
    {
      success := SendFrameOn(ValidFrame(sampleRate, audio, nowMs), outcome);
    }

    /** The bounded send loop: each round stops once a flag is up, sends one
        chunk with a wrong checksum, stops when the send fails, and otherwise
        lets the handler take what arrived while the loop paused. */
    method SendRounds(audio: seq<byte>, rounds: seq<Round>)
      requires dataWsOpen
      modifies this`sent, this`chunksSent, this`connectionClosed, this`rejectionReceived, this`listening
      ensures Snapshot() == SendLoop(StopOnDisconnect, old(Snapshot()), LoopFrames(sampleRate, audio, rounds), rounds)
    {
      ghost var frames := LoopFrames(sampleRate, audio, rounds);
      ghost var looped := SendLoop(StopOnDisconnect, Snapshot(), frames, rounds);
      var i := 0;
      while i < |rounds|
        invariant 0 <= i <= |rounds| && dataWsOpen
        invariant SendLoop(StopOnDisconnect, Snapshot(), frames[i..], rounds[i..]) == looped
      {
        assert rounds[i..][0] == rounds[i] && rounds[i..][1..] == rounds[i + 1..];
        assert frames[i..][0] == frames[i] && frames[i..][1..] == frames[i + 1..];
        if connectionClosed || rejectionReceived {
          break;
        }
        var ok := SendCorruptedChunk("wrong_checksum", audio, rounds[i].nowMs, rounds[i].outcome);
        if !ok {
          break;
        }
        HandleDataMessages(rounds[i].arrivals);
        i := i + 1;
      }
    }

    /** The threshold test: connect (or give up), start the handler, run the
        bounded send loop, probe once more unless closed, then judge. */
    method TestRejectionThreshold(threshold: int, connected: bool, audio: seq<byte>, rounds: seq<Round>,
                                  settle: seq<Event>, probe: Round) returns (success: bool)
      requires |rounds| == LoopRounds(threshold)
      modifies this`dataWsOpen, this`sent, this`chunksSent, this`connectionClosed, this`rejectionReceived,
               this`listening
      ensures dataWsOpen == (connected || old(dataWsOpen))
      ensures !connected ==> !success && Snapshot() == old(Snapshot())
      ensures connected ==>
                Snapshot() == ThresholdRun(old(Snapshot()).(listening := true), sampleRate, audio, rounds, settle, probe)
      ensures success == (connected && Verdict(threshold, chunksSent, rejectionReceived, connectionClosed))
    {
      if !connected {
        return false;
      }
      dataWsOpen, listening := true, true;
      SendRounds(audio, rounds);
      if !connectionClosed {
        HandleDataMessages(settle);
        if !connectionClosed {
          var _ := SendCorruptedChunk("wrong_checksum", audio, probe.nowMs, probe.outcome);
          HandleDataMessages(probe.arrivals);
        }
      }
      success := Verdict(threshold, chunksSent, rejectionReceived, connectionClosed);
    }
  }
}
