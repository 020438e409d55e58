/**
 * Inbound traffic on the data channel, as the clients see it: each text
 * message is either not JSON, JSON that is not an object, or an object of
 * which only the keys "type", "error", "action" and "text" are ever read.
 * The transport delivers messages until it raises ConnectionClosed, raises
 * some other fault, or simply finishes the iteration.
 */
module Messages {

  /** The value under one key of a decoded JSON object, as far as the clients
      can tell: absent (dict.get gives None or the default), a string, or some
      other JSON value, which is either truthy or falsy in Python. */
  datatype Field = Missing | Str(s: string) | NonStr(truthy: bool)

  datatype Message =
    | NotJson                                    // json.loads raises
    | NotObject                                  // decodes, but .get raises AttributeError
    | Object(kind: Field, error: Field, action: Field, text: Field)

  /** One step of `async for message in ws`. */
  datatype Event =
    | Received(msg: Message)
    | Closed                                     // websockets.exceptions.ConnectionClosed
    | Fault                                      // any other exception from the transport

  /** How awaiting a send on the data channel ends. */
  datatype SendOutcome =
    | Delivered
    | ClosedOnSend                               // websockets.exceptions.ConnectionClosed
    | FailedOnSend                               // any other exception

  predicate Truthy(f: Field)
  {
    match f
    case Missing => false
    case Str(s) => s != ""
    case NonStr(t) => t
  }

  /** Equality of a field with a string literal, as Python's == sees it. */
  predicate IsStr(f: Field, s: string)
  {
    f == Str(s)
  }

  /** True iff the object's "type" is one of the given strings. */
  predicate KindIn(m: Message, kinds: seq<string>)
    requires m.Object?
  {
    m.kind.Str? && m.kind.s in kinds
  }

  /** A string field read with "" as its default: a missing text is "". */
  function TextOr(f: Field): string
    requires !f.NonStr?
  {
    if f.Str? then f.s else ""
  }

  /** The data-corruption rejection every client recognises. */
  predicate IsCorruptionRejection(m: Message)
  {
    m.Object? && IsStr(m.kind, "error") && IsStr(m.error, "data_corruption")
  }

  /** Voice-activity, transcription and wake-word progress kinds. */
  const ProgressKinds: seq<string> := [
    "vad_detect_start", "vad_detect_stop", "transcription_start",
    "start_turn_detection", "stop_turn_detection", "wakeword_detected",
    "wakeword_detection_start", "wakeword_detection_end"
  ]

  /** Characters Python's str.strip() removes (those for which isspace() holds). */
  predicate IsSpace(c: char)
  {
    ('\t' <= c <= '\r') || ('\U{1c}' <= c <= '\U{1f}') || c == ' ' ||
    c == '\U{85}' || c == '\U{a0}' || c == '\U{1680}' || ('\U{2000}' <= c <= '\U{200a}') ||
    c == '\U{2028}' || c == '\U{2029}' || c == '\U{202f}' || c == '\U{205f}' || c == '\U{3000}'
  }

  /** Number of whitespace characters at the front. */
  function LeadingSpaces(s: string): (k: nat)
    ensures k <= |s|
    ensures forall i :: 0 <= i < k ==> IsSpace(s[i])
    ensures k < |s| ==> !IsSpace(s[k])
  {
    if s == [] || !IsSpace(s[0]) then 0 else 1 + LeadingSpaces(s[1..])
  }

  /** End of the text in s[lo..hi]: the whitespace run ending at hi starts there and is maximal. */
  function TextEnd(s: string, lo: nat, hi: nat): (e: nat)
    requires lo <= hi <= |s|
    ensures lo <= e <= hi
    ensures forall i :: e <= i < hi ==> IsSpace(s[i])
    ensures lo < e ==> !IsSpace(s[e - 1])
    decreases hi
  {
    if hi == lo || !IsSpace(s[hi - 1]) then hi else TextEnd(s, lo, hi - 1)
  }

  /** str.strip(): the longest slice of s without whitespace at either end. */
  function Strip(s: string): (r: string)
    ensures r == [] || (!IsSpace(r[0]) && !IsSpace(r[|r| - 1]))
    ensures r == [] <==> forall i :: 0 <= i < |s| ==> IsSpace(s[i])
    ensures LeadingSpaces(s) + |r| <= |s| && r == s[LeadingSpaces(s)..LeadingSpaces(s) + |r|]
    ensures forall i :: LeadingSpaces(s) + |r| <= i < |s| ==> IsSpace(s[i])
  {
    var l := LeadingSpaces(s);
    var e := TextEnd(s, l, |s|);
    s[l..e]
  }

  predicate StartsWith(s: string, prefix: string)
  {
    |prefix| <= |s| && s[..|prefix|] == prefix
  }
}
