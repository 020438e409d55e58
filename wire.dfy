/**
 * The wire format every client in this repository produces: raw 16-bit
 * little-endian PCM, the masked sample-sum checksum, the metadata record
 * rendered as JSON text, and the length-prefixed frame
 *
 *   [4 bytes LE uint32: metadata length][metadata bytes][audio bytes]
 *
 * A reference decoder (SplitFrame, DecodeMeta) is given beside the encoder so
 * that the boundary and round-trip properties can be stated and proved.
 */
module Wire {

  datatype Option<T> = None | Some(value: T) {
    predicate IsFailure() { None? }
    function PropagateFailure<U>(): Option<U> requires None? { None }
    function Extract(): T requires Some? { value }
  }

  /** Why encoding a frame can fail. */
  datatype WireError =
    | InvalidAudioLength   // numpy refuses an odd byte count as int16 samples
    | MetadataTooLong      // struct.pack('<I', n) refuses n >= 2^32

  datatype Result<T> = Ok(value: T) | Err(error: WireError) {
    predicate IsFailure() { Err? }
    function PropagateFailure<U>(): Result<U> requires Err? { Err(error) }
    function Extract(): T requires Ok? { value }
  }

  type byte = b: int | 0 <= b < 256

  const Two32: nat := 0x1_0000_0000
  type uint32 = n: int | 0 <= n < 0x1_0000_0000

  // ---------------------------------------------------------------------
  // Little-endian uint32 (struct.pack('<I', n))
  // ---------------------------------------------------------------------

  function Le32(n: uint32): (r: seq<byte>)
    ensures |r| == 4
  {
    [n % 256, n / 256 % 256, n / 256 / 256 % 256, n / 256 / 256 / 256]
  }

  /** Reading four bytes as a little-endian unsigned integer. */
  function Le32Value(b: seq<byte>): (n: uint32)
    requires |b| == 4
  {
    b[0] as int + 256 * (b[1] as int + 256 * (b[2] as int + 256 * b[3] as int))
  }

  lemma Le32RoundTrip(n: uint32)
    ensures Le32Value(Le32(n)) == n
  {
    var q1 := n / 256;
    var q2 := q1 / 256;
    var q3 := q2 / 256;
    assert n == n % 256 + 256 * q1;
    assert q1 == q1 % 256 + 256 * q2;
    assert q2 == q2 % 256 + 256 * q3;
  }

  lemma Le32ValueRoundTrip(b: seq<byte>)
    requires |b| == 4
    ensures Le32(Le32Value(b)) == b
  {
    var n := Le32Value(b);
    var q1 := b[1] as int + 256 * (b[2] as int + 256 * b[3] as int);
    var q2 := b[2] as int + 256 * b[3] as int;
    assert n % 256 == b[0] && n / 256 == q1;
    assert q1 % 256 == b[1] && q1 / 256 == q2;
    assert q2 % 256 == b[2] && q2 / 256 == b[3];
  }

  // ---------------------------------------------------------------------
  // Samples and the checksum (example_app/client.py checksum_int16 and the
  // identical calculate_checksum of every test client)
  // ---------------------------------------------------------------------

  /** One signed 16-bit little-endian sample: the unique value in
      [-32768, 32768) congruent to the unsigned reading modulo 2^16. */
  function Int16Le(lo: byte, hi: byte): (v: int)
    ensures -32768 <= v < 32768
    ensures (v + 65536) % 65536 == lo + 256 * hi
  {
    var u := lo + 256 * hi;
    if u < 32768 then u else u - 65536
  }

  /** Sum of all samples of a buffer holding whole samples; the int64
      accumulator of the source cannot matter, since (x mod 2^64) mod 2^32
      equals x mod 2^32. */
  function SampleSum(a: seq<byte>): int
    requires |a| % 2 == 0
    decreases |a|
  {
    if a == [] then 0 else Int16Le(a[0], a[1]) + SampleSum(a[2..])
  }

  /** The checksum: the signed sample sum kept modulo 2^32 (Python's
      `& 0xFFFFFFFF` on a possibly negative integer). An odd byte count is
      not a whole number of samples and is refused. */
  function Checksum(a: seq<byte>): (r: Result<uint32>)
    ensures r.Ok? <==> |a| % 2 == 0
    ensures r.Err? ==> r.error == InvalidAudioLength
    ensures r.Ok? ==> (SampleSum(a) - r.value) % Two32 == 0
  {
    if |a| % 2 == 1 then Err(InvalidAudioLength)
    else
      var s := SampleSum(a);
      assert s == (s / Two32) * Two32 + s % Two32;
      Ok(s % Two32)
  }

  function Zeros(n: nat): (r: seq<byte>)
    ensures |r| == n && forall i :: 0 <= i < n ==> r[i] == 0
  {
    seq(n, i => 0)
  }

  lemma {:induction false} SampleSumOfZeros(a: seq<byte>)
    requires |a| % 2 == 0
    requires forall i :: 0 <= i < |a| ==> a[i] == 0
    ensures SampleSum(a) == 0
    decreases |a|
  {
    if a != [] {
      SampleSumOfZeros(a[2..]);
    }
  }

  /** A buffer of silence has checksum 0. */
  lemma ChecksumOfSilence(n: nat)
    ensures Checksum(Zeros(2 * n)) == Ok(0)
  {
    SampleSumOfZeros(Zeros(2 * n));
  }

  lemma {:induction false} SampleSumAppend(a: seq<byte>, b: seq<byte>)
    requires |a| % 2 == 0 && |b| % 2 == 0
    ensures SampleSum(a + b) == SampleSum(a) + SampleSum(b)
    decreases |a|
  {
    if a != [] {
      assert (a + b)[2..] == a[2..] + b;
      SampleSumAppend(a[2..], b);
    } else {
      assert a + b == b;
    }
  }

  /** The checksum of a concatenation is the sum of the checksums, mod 2^32. */
  lemma ChecksumAppend(a: seq<byte>, b: seq<byte>)
    requires |a| % 2 == 0 && |b| % 2 == 0
    ensures Checksum(a + b).Ok?
    ensures Checksum(a + b).value == (Checksum(a).value + Checksum(b).value) % Two32
  {
    SampleSumAppend(a, b);
    var sa, sb := SampleSum(a), SampleSum(b);
    var ra, rb := sa % Two32, sb % Two32;
    assert Checksum(a).value == ra && Checksum(b).value == rb;
    assert Checksum(a + b).value == (sa + sb) % Two32;
    assert sa == (sa / Two32) * Two32 + ra && sb == (sb / Two32) * Two32 + rb;
    assert ra + rb == ((ra + rb) / Two32) * Two32 + (ra + rb) % Two32;
    ModOfDecomposition(sa + sb, sa / Two32 + sb / Two32 + (ra + rb) / Two32, (ra + rb) % Two32);
  }

  /** The remainder modulo 2^32 is the unique r in range with x == q * 2^32 + r. */
  lemma ModOfDecomposition(x: int, q: int, r: int)
    requires 0 <= r < Two32 && x == q * Two32 + r
    ensures x % Two32 == r
  {
    var d := q - x / Two32;
    assert d * Two32 == x % Two32 - r;
  }

  /** Replacing one whole sample changes the sample sum by the difference
      of the two samples. */
  lemma SampleSumReplace(a: seq<byte>, i: nat, lo: byte, hi: byte)
    requires |a| % 2 == 0 && 2 * i + 1 < |a|
    ensures SampleSum(a[2 * i := lo][2 * i + 1 := hi]) - SampleSum(a) ==
            Int16Le(lo, hi) - Int16Le(a[2 * i], a[2 * i + 1])
  {
    var old2, new2 := [a[2 * i], a[2 * i + 1]], [lo, hi];
    var pre, post := a[..2 * i], a[2 * i + 2..];
    assert a == pre + old2 + post;
    assert a[2 * i := lo][2 * i + 1 := hi] == pre + new2 + post;
    SampleSumAppend(pre + old2, post);
    SampleSumAppend(pre, old2);
    SampleSumAppend(pre + new2, post);
    SampleSumAppend(pre, new2);
    assert old2[2..] == [] && new2[2..] == [];
  }

  /** Two integers less than 2^32 apart but different differ modulo 2^32. */
  lemma ModSeparates(x: int, y: int)
    requires x != y && -(Two32 as int) < x - y < Two32
    ensures x % Two32 != y % Two32
  {
    var q := x / Two32 - y / Two32;
    assert x - y == q * Two32 + (x % Two32 - y % Two32);
    if q > 0 {
      assert q * Two32 >= Two32;
    } else if q < 0 {
      assert q * Two32 <= -(Two32 as int);
    }
  }

  /** Replacing one whole sample by a different sample always changes the
      checksum: a single corrupted sample is detected. */
  lemma SingleSampleChangeDetected(a: seq<byte>, i: nat, lo: byte, hi: byte)
    requires |a| % 2 == 0 && 2 * i + 1 < |a|
    requires Int16Le(lo, hi) != Int16Le(a[2 * i], a[2 * i + 1])
    ensures Checksum(a[2 * i := lo][2 * i + 1 := hi]) != Checksum(a)
  {
    var b := a[2 * i := lo][2 * i + 1 := hi];
    SampleSumReplace(a, i, lo, hi);
    ModSeparates(SampleSum(b), SampleSum(a));
  }

  // ---------------------------------------------------------------------
  // Metadata: the record and its JSON text (json.dumps with its default
  // separators ", " and ": "; every character is ASCII, so the UTF-8
  // encoding is one byte per character)
  // ---------------------------------------------------------------------

  /** The integrity fields; when present, "server_sent_to_stt": true follows them. */
  datatype Integrity = Integrity(dataLength: nat, checksum: nat, timestamp: nat)

  datatype Metadata = Metadata(sampleRate: nat, integrity: Option<Integrity>)

  predicate IsAscii(s: string) {
    forall i :: 0 <= i < |s| ==> s[i] < 128 as char
  }

  function Ascii(s: string): (r: seq<byte>)
    requires IsAscii(s)
    ensures |r| == |s|
  {
    seq(|s|, i requires 0 <= i < |s| => s[i] as int)
  }

  predicate IsDigit(b: byte) { 48 <= b <= 57 }

  /** Decimal rendering of a natural number, as ASCII digits. */
  function Digits(n: nat): (r: seq<byte>)
    ensures 1 <= |r| && forall i :: 0 <= i < |r| ==> IsDigit(r[i])
  {
    if n < 10 then [48 + n] else Digits(n / 10) + [48 + n % 10]
  }

  function DigitsValue(s: seq<byte>): nat
    requires forall i :: 0 <= i < |s| ==> IsDigit(s[i])
  {
    if s == [] then 0 else assert IsDigit(s[|s| - 1]); 10 * DigitsValue(s[..|s| - 1]) + (s[|s| - 1] - 48)
  }

  lemma {:induction false} DigitsRoundTrip(n: nat)
    ensures DigitsValue(Digits(n)) == n
  {
    if n >= 10 {
      var ds := Digits(n);
      assert ds[..|ds| - 1] == Digits(n / 10);
      DigitsRoundTrip(n / 10);
    }
  }

  /** Length of the run of digits at the front of b. */
  function DigitSpan(b: seq<byte>): (k: nat)
    ensures k <= |b|
    ensures forall i :: 0 <= i < k ==> IsDigit(b[i])
    ensures k < |b| ==> !IsDigit(b[k])
  {
    if b == [] || !IsDigit(b[0]) then 0 else 1 + DigitSpan(b[1..])
  }

  lemma {:induction false} DigitSpanOfDigits(ds: seq<byte>, rest: seq<byte>)
    requires forall i :: 0 <= i < |ds| ==> IsDigit(ds[i])
    requires rest == [] || !IsDigit(rest[0])
    ensures DigitSpan(ds + rest) == |ds|
  {
    if ds != [] {
      assert (ds + rest)[1..] == ds[1..] + rest;
      DigitSpanOfDigits(ds[1..], rest);
    } else {
      assert ds + rest == rest;
    }
  }

  /** Reads a non-empty run of digits; returns its value and what follows. */
  function ParseNumber(b: seq<byte>): (r: Option<(nat, seq<byte>)>)
    ensures r.Some? ==> |r.value.1| < |b|
  {
    var k := DigitSpan(b);
    if k == 0 then None else Some((DigitsValue(b[..k]), b[k..]))
  }

  lemma ParseNumberOfDigits(n: nat, rest: seq<byte>)
    requires rest == [] || !IsDigit(rest[0])
    ensures ParseNumber(Digits(n) + rest) == Some((n, rest))
  {
    var ds := Digits(n);
    DigitSpanOfDigits(ds, rest);
    assert (ds + rest)[..|ds|] == ds;
    assert (ds + rest)[|ds|..] == rest;
    DigitsRoundTrip(n);
  }

  const KeySampleRate: seq<byte> := Ascii("{\"sampleRate\": ")
  const KeyDataLength: seq<byte> := Ascii(", \"dataLength\": ")
  const KeyChecksum: seq<byte> := Ascii(", \"checksum\": ")
  const KeyTimestamp: seq<byte> := Ascii(", \"timestamp\": ")
  const TailSentToStt: seq<byte> := Ascii(", \"server_sent_to_stt\": true}")
  const CloseBrace: seq<byte> := Ascii("}")

  /** The JSON text of a metadata record, field by field in insertion order. */
  function EncodeMeta(m: Metadata): seq<byte>
  {
    KeySampleRate + (Digits(m.sampleRate) +
      match m.integrity
      case None => CloseBrace
      case Some(v) =>
        KeyDataLength + (Digits(v.dataLength) +
        (KeyChecksum + (Digits(v.checksum) +
        (KeyTimestamp + (Digits(v.timestamp) + TailSentToStt))))))
  }

  /** Reads `key` then a number. */
  function ParseField(b: seq<byte>, key: seq<byte>): Option<(nat, seq<byte>)>
  {
    if |key| <= |b| && b[..|key|] == key then ParseNumber(b[|key|..]) else None
  }

  /** Reference decoder for the metadata text this repository produces. */
  function DecodeMeta(b: seq<byte>): Option<Metadata>
  {
    var sr :- ParseField(b, KeySampleRate);
    if sr.1 == CloseBrace then Some(Metadata(sr.0, None))
    else
      var dl :- ParseField(sr.1, KeyDataLength);
      var cs :- ParseField(dl.1, KeyChecksum);
      var ts :- ParseField(cs.1, KeyTimestamp);
      if ts.1 == TailSentToStt then Some(Metadata(sr.0, Some(Integrity(dl.0, cs.0, ts.0))))
      else None
  }

  lemma ParseFieldOf(key: seq<byte>, n: nat, rest: seq<byte>)
    requires rest == [] || !IsDigit(rest[0])
    ensures ParseField(key + (Digits(n) + rest), key) == Some((n, rest))
  {
    var b := key + (Digits(n) + rest);
    assert b[..|key|] == key;
    assert b[|key|..] == Digits(n) + rest;
    ParseNumberOfDigits(n, rest);
  }

  /** The metadata text decodes back to the record it was rendered from. */
  lemma MetaRoundTrip(m: Metadata)
    ensures DecodeMeta(EncodeMeta(m)) == Some(m)
  {
    match m.integrity
    case None =>
      ParseFieldOf(KeySampleRate, m.sampleRate, CloseBrace);
    case Some(v) =>
      var t3 := TailSentToStt;
      var t2 := KeyTimestamp + (Digits(v.timestamp) + t3);
      var t1 := KeyChecksum + (Digits(v.checksum) + t2);
      var t0 := KeyDataLength + (Digits(v.dataLength) + t1);
      ParseFieldOf(KeySampleRate, m.sampleRate, t0);
      assert t0 != CloseBrace by { assert |t0| > |CloseBrace|; }
      ParseFieldOf(KeyDataLength, v.dataLength, t1);
      ParseFieldOf(KeyChecksum, v.checksum, t2);
      ParseFieldOf(KeyTimestamp, v.timestamp, t3);
  }

  function Pow10(k: nat): nat { if k == 0 then 1 else 10 * Pow10(k - 1) }

  lemma {:induction false} DigitsLength(n: nat, k: nat)
    requires 1 <= k && n < Pow10(k)
    ensures |Digits(n)| <= k
  {
    if n >= 10 {
      assert k >= 2;
      assert n / 10 < Pow10(k - 1);
      DigitsLength(n / 10, k - 1);
    }
  }

  /** Metadata whose numbers have at most twenty digits (every uint64 does)
      is far below the 2^32-byte limit of the length prefix. */
  lemma EncodeMetaShort(m: Metadata)
    requires m.sampleRate < Pow10(20)
    requires m.integrity.Some? ==>
               (m.integrity.value.dataLength < Pow10(20) &&
                m.integrity.value.checksum < Pow10(20) && m.integrity.value.timestamp < Pow10(20))
    ensures |EncodeMeta(m)| <= 200
  {
    DigitsLength(m.sampleRate, 20);
    if m.integrity.Some? {
      DigitsLength(m.integrity.value.dataLength, 20);
      DigitsLength(m.integrity.value.checksum, 20);
      DigitsLength(m.integrity.value.timestamp, 20);
    }
  }

  // ---------------------------------------------------------------------
  // The frame
  // ---------------------------------------------------------------------

  /** meta_len + meta_json + audio_bytes, with meta_len = struct.pack('<I', len(meta_json)). */
  function Frame(meta: seq<byte>, audio: seq<byte>): (r: Result<seq<byte>>)
    ensures r.Ok? <==> |meta| < Two32
    ensures r.Err? ==> r.error == MetadataTooLong
    ensures r.Ok? ==> |r.value| == 4 + |meta| + |audio|
    ensures r.Ok? ==> Le32Value(r.value[..4]) == |meta|
    ensures r.Ok? ==> r.value[4..4 + |meta|] == meta && r.value[4 + |meta|..] == audio
  {
    if |meta| < Two32 then
      var f := Le32(|meta|) + meta + audio;
      assert f[..4] == Le32(|meta|);
      Le32RoundTrip(|meta|);
      Ok(f)
    else Err(MetadataTooLong)
  }

  /** The receiving side's split: the prefix says where the audio starts. */
  function SplitFrame(f: seq<byte>): (r: Option<(seq<byte>, seq<byte>)>)
  {
    if |f| < 4 then None
    else
      var n := Le32Value(f[..4]);
      if |f| - 4 < n then None else Some((f[4..4 + n], f[4 + n..]))
  }

  /** Splitting a frame gives back exactly its metadata and its audio. */
  lemma SplitFrameOfFrame(meta: seq<byte>, audio: seq<byte>)
    requires |meta| < Two32
    ensures SplitFrame(Frame(meta, audio).value) == Some((meta, audio))
  {
  }

  /** Conversely, whatever splits was built by Frame from the two parts. */
  lemma FrameOfSplit(f: seq<byte>)
    requires SplitFrame(f).Some?
    ensures Frame(SplitFrame(f).value.0, SplitFrame(f).value.1) == Ok(f)
  {
    var meta, audio := SplitFrame(f).value.0, SplitFrame(f).value.1;
    Le32ValueRoundTrip(f[..4]);
    assert Le32(|meta|) == f[..4];
    assert f == f[..4] + meta + audio;
  }

  /** What a verifying peer reads out of a frame. */
  function DecodeFrame(f: seq<byte>): Option<(Metadata, seq<byte>)>
  {
    var parts :- SplitFrame(f);
    var m :- DecodeMeta(parts.0);
    Some((m, parts.1))
  }

  /** The frame invariant: the metadata describes the audio it carries
      (whole samples, dataLength samples, the checksum of those bytes). */
  predicate Consistent(m: Metadata, audio: seq<byte>)
  {
    m.integrity.Some? && Checksum(audio).Ok? &&
    m.integrity.value.dataLength * 2 == |audio| &&
    m.integrity.value.checksum == Checksum(audio).value
  }

  /** A frame is accepted by a verifying peer when it decodes and is consistent. */
  predicate PeerAccepts(f: seq<byte>)
  {
    DecodeFrame(f).Some? && Consistent(DecodeFrame(f).value.0, DecodeFrame(f).value.1)
  }

  /** Frames a metadata record together with a payload. */
  function FrameMeta(m: Metadata, payload: seq<byte>): Result<seq<byte>>
  {
    Frame(EncodeMeta(m), payload)
  }

  lemma DecodeFrameMeta(m: Metadata, payload: seq<byte>)
    requires FrameMeta(m, payload).Ok?
    ensures DecodeFrame(FrameMeta(m, payload).value) == Some((m, payload))
  {
    SplitFrameOfFrame(EncodeMeta(m), payload);
    MetaRoundTrip(m);
  }

  /** The metadata a correct sender attaches to a chunk of audio. */
  function IntegrityMeta(sampleRate: nat, audio: seq<byte>, nowMs: nat): (r: Result<Metadata>)
    ensures r.Ok? <==> |audio| % 2 == 0
    ensures r.Ok? ==> Consistent(r.value, audio) && r.value.sampleRate == sampleRate &&
                      r.value.integrity.value.timestamp == nowMs
  {
    var c :- Checksum(audio);
    Ok(Metadata(sampleRate, Some(Integrity(|audio| / 2, c, nowMs))))
  }

  /** Frame one chunk of captured audio (example_app/client.py frame). */
  function EncodeFrame(sampleRate: nat, audio: seq<byte>, nowMs: nat): (r: Result<seq<byte>>)
  {
    var m :- IntegrityMeta(sampleRate, audio, nowMs);
    FrameMeta(m, audio)
  }

  /** Encoding fails exactly on an odd byte count, or on metadata longer than
      the prefix can state; with realistic numbers only the first can happen. */
  lemma EncodeFrameOutcome(sampleRate: nat, audio: seq<byte>, nowMs: nat)
    ensures |audio| % 2 == 1 ==> EncodeFrame(sampleRate, audio, nowMs) == Err(InvalidAudioLength)
    ensures EncodeFrame(sampleRate, audio, nowMs).Err? <==>
              |audio| % 2 == 1 || |EncodeMeta(IntegrityMeta(sampleRate, audio, nowMs).value)| >= Two32
    ensures |audio| % 2 == 0 && sampleRate < Pow10(20) && |audio| < Pow10(20) && nowMs < Pow10(20) ==>
              EncodeFrame(sampleRate, audio, nowMs).Ok?
  {
    if |audio| % 2 == 0 && sampleRate < Pow10(20) && |audio| < Pow10(20) && nowMs < Pow10(20) {
      var m := IntegrityMeta(sampleRate, audio, nowMs).value;
      Two32BelowPow10();
      EncodeMetaShort(m);
    }
  }

  /** Every uint32 has at most twenty decimal digits. */
  lemma Two32BelowPow10()
    ensures Two32 < Pow10(20)
  {
    assert Pow10(10) == 10000000000;
    PowMonotone(10, 20);
  }

  lemma {:induction false} PowMonotone(j: nat, k: nat)
    requires j <= k
    ensures Pow10(j) <= Pow10(k)
    decreases k - j
  {
    if j < k { PowMonotone(j + 1, k); }
  }

  /** Round trip of a correctly built frame: the peer reads back the sample
      rate, len(audio)/2 samples, the checksum of the audio, the timestamp and
      the audio itself unchanged, and accepts it. */
  lemma EncodeFrameRoundTrip(sampleRate: nat, audio: seq<byte>, nowMs: nat)
    requires EncodeFrame(sampleRate, audio, nowMs).Ok?
    ensures DecodeFrame(EncodeFrame(sampleRate, audio, nowMs).value) ==
            Some((Metadata(sampleRate, Some(Integrity(|audio| / 2, Checksum(audio).value, nowMs))), audio))
    ensures PeerAccepts(EncodeFrame(sampleRate, audio, nowMs).value)
  {
    var m := IntegrityMeta(sampleRate, audio, nowMs).value;
    DecodeFrameMeta(m, audio);
  }
}
