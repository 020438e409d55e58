/**
 * tests/sample_python_client.py: the simple streaming client with
 * integrity metadata, its inbound handler (rejection, live transcript line,
 * final sentence) and its per-chunk send.
 */
module SampleClient {
  import opened Wire
  import opened Messages

  const SampleRate: nat := 16000

  /** What handling one message shows the user, or that it raised. */
  datatype Output =
    | Rejection                     // data_corruption: running cleared, handler stops
    | ServerError                   // any other "error" message, reported
    | SameLine(text: string)        // realtime text continuing the current line
    | NewLine(text: string)         // realtime text starting a new line
    | FinalSentence
    | RecordingStarted
    | RecordingStopped
    | UnknownType
    | Quiet
    | HandlerError                  // an exception ends the handler

  datatype Handled = Handled(transcription: string, output: Output, stop: bool, clearsRunning: bool)

  /** The "type"s the handler has a branch of their own for; the progress
      kinds share one more branch. */
  const BranchKinds: seq<string> := ["error", "realtime", "fullSentence", "recording_start", "recording_stop"]

  /** A realtime message whose text is a string (or missing). */
  predicate IsRealtimeText(m: Message)
  {
    m.Object? && IsStr(m.kind, "realtime") && !m.text.NonStr?
  }

  /** One message against the current transcript line. */
  function HandleMessage(cur: string, m: Message): (h: Handled)
    ensures h.clearsRunning <==> IsCorruptionRejection(m)
    ensures h.stop <==>
              m.NotJson? || m.NotObject? || IsCorruptionRejection(m) ||
              (m.Object? && IsStr(m.kind, "realtime") && m.text.NonStr?)
  {
    match m
    case NotJson => Handled(cur, HandlerError, true, false)
    case NotObject => Handled(cur, HandlerError, true, false)
    case Object(kind, error, _, text) =>
      if IsStr(kind, "error") then
        if IsStr(error, "data_corruption") then Handled(cur, Rejection, true, true)
        else Handled(cur, ServerError, false, false)
      else if IsStr(kind, "realtime") then
        if text.NonStr? then Handled(cur, HandlerError, true, false)
        else
          var t := Strip(TextOr(text));
          if t == [] then Handled(cur, Quiet, false, false)
          else if StartsWith(t, cur) then Handled(t, SameLine(t), false, false)
          else Handled(t, NewLine(t), false, false)
      else if IsStr(kind, "fullSentence") then Handled("", FinalSentence, false, false)
      else if IsStr(kind, "recording_start") then Handled(cur, RecordingStarted, false, false)
      else if IsStr(kind, "recording_stop") then Handled(cur, RecordingStopped, false, false)
      else if KindIn(m, ProgressKinds) then Handled(cur, Quiet, false, false)
      else if Truthy(kind) then Handled(cur, UnknownType, false, false)
      else Handled(cur, Quiet, false, false)
  }

  /** What each kind of message shows and does to the transcript line: the
      handler raises exactly on the messages it stops at other than a
      rejection; other errors are reported; realtime text is stripped and
      shown on the same line exactly when it extends the current one, and
      blank text shows nothing; a final sentence clears the line; only
      realtime text and final sentences change it. */
  lemma HandleMessageFacts(cur: string, m: Message)
    ensures var h := HandleMessage(cur, m);
            (h.output == HandlerError <==> h.stop && !IsCorruptionRejection(m)) &&
            (m.Object? && IsStr(m.kind, "error") && !IsStr(m.error, "data_corruption") ==>
               h.output == ServerError && h.transcription == cur) &&
            (IsRealtimeText(m) && Strip(TextOr(m.text)) == [] ==> h.transcription == cur && h.output == Quiet) &&
            (IsRealtimeText(m) && Strip(TextOr(m.text)) != [] ==>
               var t := Strip(TextOr(m.text));
               h.transcription == t && (h.output == SameLine(t) || h.output == NewLine(t)) &&
               (h.output == SameLine(t) <==> StartsWith(t, cur))) &&
            (m.Object? && IsStr(m.kind, "fullSentence") ==> h.transcription == "" && h.output == FinalSentence) &&
            (h.transcription != cur ==> IsRealtimeText(m) || (m.Object? && IsStr(m.kind, "fullSentence")))
  {
  }

  /** Kinds the handler has no branch for are reported when truthy, and the
      progress kinds pass silently without stopping it. */
  lemma HandleMessageKinds(cur: string, m: Message)
    ensures HandleMessage(cur, m).output == UnknownType <==>
              m.Object? && Truthy(m.kind) && !KindIn(m, BranchKinds) && !KindIn(m, ProgressKinds)
    ensures m.Object? && KindIn(m, ProgressKinds) ==> HandleMessage(cur, m).output == Quiet && !HandleMessage(cur, m).stop
  {
  }

  datatype HandlerRun = HandlerRun(transcription: string, outputs: seq<Output>, clearsRunning: bool)

  /** The handler over a run of events. A closed connection, a transport
      fault or the end of the iteration ends it quietly; a message that
      stops it is the last one handled. */
  function HandleAll(cur: string, events: seq<Event>): HandlerRun
    decreases |events|
  {
    if events == [] || !events[0].Received? then HandlerRun(cur, [], false)
    else
      var h := HandleMessage(cur, events[0].msg);
      if h.stop then HandlerRun(h.transcription, [h.output], h.clearsRunning)
      else
        Join([h.output], HandleAll(h.transcription, events[1..]))
  }

  /** A run preceded by outputs already shown. */
  function Join(shown: seq<Output>, r: HandlerRun): HandlerRun
  {
    HandlerRun(r.transcription, shown + r.outputs, r.clearsRunning)
  }

  /** The handler goes through every event of the run without stopping:
      each is a message, and none of them ends the loop. */
  predicate RunsThrough(cur: string, events: seq<Event>)
    decreases |events|
  {
    events == [] ||
    (events[0].Received? && !HandleMessage(cur, events[0].msg).stop &&
     RunsThrough(HandleMessage(cur, events[0].msg).transcription, events[1..]))
  }

  /** Handling a stream in two stretches: a stretch the handler runs
      through hands its transcription on to the next one, and nothing it
      handled clears running; once the handler has stopped, nothing after
      that point is looked at. */
  lemma {:induction false} HandleAllAppend(cur: string, a: seq<Event>, b: seq<Event>)
    ensures RunsThrough(cur, a) ==>
              !HandleAll(cur, a).clearsRunning &&
              HandleAll(cur, a + b) == Join(HandleAll(cur, a).outputs, HandleAll(HandleAll(cur, a).transcription, b))
    ensures !RunsThrough(cur, a) ==> HandleAll(cur, a + b) == HandleAll(cur, a)
    decreases |a|
  {
    if a == [] {
      assert a + b == b;
    } else {
      assert (a + b)[0] == a[0] && (a + b)[1..] == a[1..] + b;
      if a[0].Received? {
        var h := HandleMessage(cur, a[0].msg);
        HandleAllStep(cur, a);
        HandleAllStep(cur, a + b);
        if !h.stop {
          HandleAllAppend(h.transcription, a[1..], b);
          var rest := HandleAll(h.transcription, a[1..]);
          var later := HandleAll(rest.transcription, b);
          assert [h.output] + (rest.outputs + later.outputs) == ([h.output] + rest.outputs) + later.outputs;
        }
      }
    }
  }

  /** The handler unfolded once, as the loop below takes its steps. */
  lemma HandleAllStep(cur: string, events: seq<Event>)
    requires events != [] && events[0].Received?
    ensures var h := HandleMessage(cur, events[0].msg);
            HandleAll(cur, events) ==
              if h.stop then HandlerRun(h.transcription, [h.output], h.clearsRunning)
              else Join([h.output], HandleAll(h.transcription, events[1..]))
  {
  }

  predicate IsRejectionEvent(e: Event)
  {
    e.Received? && IsCorruptionRejection(e.msg)
  }

  /** Only a data_corruption rejection ever clears running in the handler. */
  lemma {:induction false} OnlyRejectionClearsRunning(cur: string, events: seq<Event>)
    ensures HandleAll(cur, events).clearsRunning ==> exists i :: 0 <= i < |events| && IsRejectionEvent(events[i])
    decreases |events|
  {
    if events != [] && events[0].Received? {
      var h := HandleMessage(cur, events[0].msg);
      if !h.stop {
        OnlyRejectionClearsRunning(h.transcription, events[1..]);
        if HandleAll(cur, events).clearsRunning {
          var i :| 0 <= i < |events[1..]| && IsRejectionEvent(events[1..][i]);
          assert IsRejectionEvent(events[i + 1]);
        }
      }
    }
  }

  /** A rejection ends handling at once: nothing after it is looked at. */
  lemma RejectionEndsHandling(cur: string, m: Message, rest: seq<Event>)
    requires IsCorruptionRejection(m)
    ensures HandleAll(cur, [Received(m)] + rest) == HandlerRun(cur, [Rejection], true)
  {
  }

  /** Case-folding of ASCII letters. Python's str.lower() also folds other
      characters, but none of them folds to a single letter of "connection"
      or "closed", so the two words are found alike either way. */
  function LowerAscii(s: string): string
  {
    seq(|s|, i requires 0 <= i < |s| => LowerChar(s[i]))
  }

  /** One character folded: an ASCII capital becomes its small letter,
      anything else stays. */
  function LowerChar(c: char): char
  {
    if 'A' <= c <= 'Z' then (c as int + 32) as char else c
  }

  /** The n characters of s from index i on. */
  function Window(s: string, i: nat, n: nat): string
    requires i + n <= |s|
  {
    s[i..i + n]
  }

  predicate Contains(s: string, needle: string)
  {
    exists i: nat :: i + |needle| <= |s| && Window(s, i, |needle|) == needle
  }

  /** The test applied to a send error's text before giving up on sending. */
  predicate MentionsConnection(err: string)
  {
    Contains(LowerAscii(err), "connection") || Contains(LowerAscii(err), "closed")
  }

  /** A send error whose text holds "connection" or "closed" in any mix of
      capitals, such as the "Event loop is closed" raised when scheduling on
      a closed loop, stops the client. */
  lemma WordMentionsConnection(err: string, i: nat, word: string)
    requires word == "connection" || word == "closed"
    requires i + |word| <= |err|
    requires LowerAscii(err[i..i + |word|]) == word
    ensures MentionsConnection(err)
  {
    FoldedWindow(err, i, word);
    assert Contains(LowerAscii(err), word);
  }

  /** Folding the whole text shows at i what folding the slice there gives. */
  lemma FoldedWindow(err: string, i: nat, word: string)
    requires i + |word| <= |err|
    requires LowerAscii(err[i..i + |word|]) == word
    ensures Window(LowerAscii(err), i, |word|) == word
  {
    var low, part := LowerAscii(err), err[i..i + |word|];
    var w := Window(low, i, |word|);
    forall k | 0 <= k < |word|
      ensures w[k] == word[k]
    {
      assert part[k] == err[i + k] && w[k] == low[i + k];
      assert word[k] == LowerAscii(part)[k];
    }
  }

  /** The exception, if any, raised while handing the frame to the event loop. */
  datatype SendFault = NoFault | ConnectionClosedFault | OtherFault(text: string)

  class Client {
    var running: bool
    var currentTranscription: string
    var chunksSent: nat
    var dataWsOpen: bool
    var hasLoop: bool
    var submitted: seq<seq<byte>>   // frames handed to the event loop, in order

    constructor ()
      ensures !running && currentTranscription == "" && chunksSent == 0
      ensures !dataWsOpen && !hasLoop && submitted == []
    {
      running, currentTranscription, chunksSent := false, "", 0;
      dataWsOpen, hasLoop, submitted := false, false, [];
    }

    /** The inbound handler loop over the events the data channel delivers. */
    method HandleDataMessages(events: seq<Event>) returns (outputs: seq<Output>)
      modifies this`running, this`currentTranscription
      ensures outputs == HandleAll(old(currentTranscription), events).outputs
      ensures currentTranscription == HandleAll(old(currentTranscription), events).transcription
      ensures running == (old(running) && !HandleAll(old(currentTranscription), events).clearsRunning)
    {
      outputs := [];
      ghost var wasRunning := running;
      ghost var target := HandleAll(currentTranscription, events);
      var i := 0;
      while i < |events|
        invariant 0 <= i <= |events|
        invariant running == wasRunning
        invariant target == Join(outputs, HandleAll(currentTranscription, events[i..]))
      {
        assert events[i..][0] == events[i] && events[i..][1..] == events[i + 1..];
        if !events[i].Received? {
          return;
        }
        var h := HandleMessage(currentTranscription, events[i].msg);
        HandleAllStep(currentTranscription, events[i..]);
        ghost var rest := HandleAll(h.transcription, events[i + 1..]);
        assert outputs + ([h.output] + rest.outputs) == (outputs + [h.output]) + rest.outputs;
        outputs := outputs + [h.output];
        currentTranscription := h.transcription;
        if h.stop {
          if h.clearsRunning {
            running := false;
          }
          return;
        }
        i := i + 1;
      }
      assert events[i..] == [];
    }

    /** One chunk: nothing without a data channel; a chunk that is not whole
        samples raises (its error text mentions neither word, so running is
        kept); otherwise the frame is handed over when there is an event loop,
        and the counter grows whether or not there was one. */
    method SendAudioChunk(audio: seq<byte>, nowMs: nat, fault: SendFault)
      modifies this`running, this`chunksSent, this`submitted
      ensures !old(dataWsOpen) || EncodeFrame(SampleRate, audio, nowMs).Err? ==>
                running == old(running) && chunksSent == old(chunksSent) && submitted == old(submitted)
      ensures dataWsOpen && EncodeFrame(SampleRate, audio, nowMs).Ok? ==>
                var f := EncodeFrame(SampleRate, audio, nowMs).value;
                if !hasLoop then
                  chunksSent == old(chunksSent) + 1 && submitted == old(submitted) && running == old(running)
                else match fault
                  case NoFault =>
                    chunksSent == old(chunksSent) + 1 && submitted == old(submitted) + [f] && running == old(running)
                  case ConnectionClosedFault =>
                    chunksSent == old(chunksSent) && submitted == old(submitted) && !running
                  case OtherFault(text) =>
                    chunksSent == old(chunksSent) && submitted == old(submitted) &&
                    running == (old(running) && !MentionsConnection(text))
    {
      if !dataWsOpen {
        return;
      }
      var framed := EncodeFrame(SampleRate, audio, nowMs);
      if framed.Err? {
        return;
      }
      if hasLoop {
        match fault
        case NoFault =>
          submitted := submitted + [framed.value];
        case ConnectionClosedFault =>
          running := false;
          return;
        case OtherFault(text) =>
          if MentionsConnection(text) {
            running := false;
          }
          return;
      }
      chunksSent := chunksSent + 1;
    }
  }
}
