/**
  The two framed packet formats of zinx, on byte sequences.

  Both put an 8-byte header in front of the payload. `Ltd` is length then id, little
  endian; `Tld` is id then length, big endian. All header arithmetic is that of
  uint32_t: the encoder truncates the payload size and the decoder's sum of header and
  length wraps around at 2^32.
 */
module Wire {
  import opened Containers

  type Byte = b: int | 0 <= b < 256
  type Bytes = seq<Byte>
  type U32 = n: int | 0 <= n < 0x1_0000_0000

  const WORD_RANGE: int := 0x1_0000_0000
  const HEADER_LENGTH: int := 8

  datatype Format = Ltd | Tld

  function Little(n: U32): (b: Bytes)
    ensures |b| == 4
  {
    var n1 := n / 256;
    var n2 := n1 / 256;
    [n % 256, n1 % 256, n2 % 256, n2 / 256]
  }

  function FromLittle(b: Bytes): U32
    requires |b| == 4
  {
    b[0] as int + 256 * b[1] as int + 65536 * b[2] as int + 16777216 * b[3] as int
  }

  function Reverse(b: Bytes): (r: Bytes)
    ensures |r| == |b|
    ensures forall i :: 0 <= i < |b| ==> r[i] == b[|b| - 1 - i]
  {
    seq(|b|, i requires 0 <= i < |b| => b[|b| - 1 - i])
  }

  function Big(n: U32): (b: Bytes)
    ensures |b| == 4
  {
    Reverse(Little(n))
  }

  function FromBig(b: Bytes): U32
    requires |b| == 4
  {
    FromLittle(Reverse(b))
  }

  lemma WordRoundTrip(n: U32)
    ensures FromLittle(Little(n)) == n
    ensures FromBig(Big(n)) == n
  {
    assert Reverse(Reverse(Little(n))) == Little(n);
  }

  /** static_cast<uint32_t> of a size */
  function Truncate32(n: nat): U32 {
    n % WORD_RANGE
  }

  /** uint32_t addition, which wraps around */
  function Add32(a: U32, b: U32): U32 {
    if a + b < WORD_RANGE then a + b else a + b - WORD_RANGE
  }

  function Header(f: Format, id: U32, length: U32): (h: Bytes)
    ensures |h| == HEADER_LENGTH
  {
    match f
    case Ltd => Little(length) + Little(id)
    case Tld => Big(id) + Big(length)
  }

  function Encode(f: Format, id: U32, payload: Bytes): Bytes {
    Header(f, id, Truncate32(|payload|)) + payload
  }

  /** Where the bytes of each header field end */
  function LengthEnd(f: Format): int {
    match f case Ltd => 4 case Tld => 8
  }

  function IdEnd(f: Format): int {
    match f case Ltd => 8 case Tld => 4
  }

  function LengthField(f: Format, s: Bytes): U32
    requires |s| >= LengthEnd(f)
  {
    match f
    case Ltd => FromLittle(s[0..4])
    case Tld => FromBig(s[4..8])
  }

  function IdField(f: Format, s: Bytes): U32
    requires |s| >= IdEnd(f)
  {
    match f
    case Ltd => FromLittle(s[4..8])
    case Tld => FromBig(s[0..4])
  }

  /** What the decoder removes for the frame at the head of `s`: a uint32_t sum. */
  function FrameSize(f: Format, s: Bytes): nat
    requires |s| >= HEADER_LENGTH
  {
    Add32(HEADER_LENGTH, LengthField(f, s))
  }

  /** One call of Decode on a buffer holding `s`: the packet's bytes and what stays. */
  function Decode(f: Format, s: Bytes): Option<(Bytes, Bytes)> {
    if |s| < HEADER_LENGTH || |s| < FrameSize(f, s) then None
    else Some((s[..FrameSize(f, s)], s[FrameSize(f, s)..]))
  }

  /** A complete frame, described without the decoder. */
  predicate IsFrame(f: Format, s: Bytes) {
    && |s| >= HEADER_LENGTH
    && |s| == HEADER_LENGTH + LengthField(f, s)
    && |s| < WORD_RANGE
  }

  lemma FieldsOfHeader(f: Format, id: U32, length: U32, tail: Bytes)
    ensures LengthField(f, Header(f, id, length) + tail) == length
    ensures IdField(f, Header(f, id, length) + tail) == id
  {
    var s := Header(f, id, length) + tail;
    WordRoundTrip(id);
    WordRoundTrip(length);
    match f
    case Ltd =>
      assert s[0..4] == Little(length) && s[4..8] == Little(id);
    case Tld =>
      assert s[0..4] == Big(id) && s[4..8] == Big(length);
  }

  // ---- Byte order ----

  function Pow256(k: nat): (r: int)
    ensures r > 0
  {
    if k == 0 then 1 else 256 * Pow256(k - 1)
  }

  lemma Pow256Values()
    ensures Pow256(0) == 1 && Pow256(1) == 256 && Pow256(2) == 65536 && Pow256(3) == 16777216
  {
    assert Pow256(1) == 256 * Pow256(0);
    assert Pow256(2) == 256 * Pow256(1);
  }

  /** The least significant byte comes first, or last. */
  lemma ByteOrder(n: U32, k: nat)
    requires k < 4
    ensures Little(n)[k] == n / Pow256(k) % 256
    ensures Big(n)[k] == n / Pow256(3 - k) % 256
  {
    Pow256Values();
    assert n / 256 / 256 == n / 65536 && n / 65536 / 256 == n / 16777216;
  }

  /** The bytes that the constructors send */
  lemma EncodedBytes(f: Format, id: U32, payload: Bytes, k: nat)
    requires k < 4
    ensures Encode(Ltd, id, payload)[k] == |payload| % WORD_RANGE / Pow256(k) % 256
    ensures Encode(Ltd, id, payload)[4 + k] == id / Pow256(k) % 256
    ensures Encode(Tld, id, payload)[k] == id / Pow256(3 - k) % 256
    ensures Encode(Tld, id, payload)[4 + k] == |payload| % WORD_RANGE / Pow256(3 - k) % 256
    ensures Encode(f, id, payload)[HEADER_LENGTH..] == payload
  {
    var length := Truncate32(|payload|);
    ByteOrder(length, k);
    ByteOrder(id, k);
    assert Header(Ltd, id, length)[k] == Little(length)[k] && Header(Ltd, id, length)[4 + k] == Little(id)[k];
    assert Header(Tld, id, length)[k] == Big(id)[k] && Header(Tld, id, length)[4 + k] == Big(length)[k];
  }

  /** The length and the id that are read from given bytes */
  lemma FieldsOfBytes(s: Bytes)
    requires |s| >= HEADER_LENGTH
    ensures LengthField(Ltd, s) == s[0] + Pow256(1) * s[1] + Pow256(2) * s[2] + Pow256(3) * s[3]
    ensures IdField(Ltd, s) == s[4] + Pow256(1) * s[5] + Pow256(2) * s[6] + Pow256(3) * s[7]
    ensures IdField(Tld, s) == s[3] + Pow256(1) * s[2] + Pow256(2) * s[1] + Pow256(3) * s[0]
    ensures LengthField(Tld, s) == s[7] + Pow256(1) * s[6] + Pow256(2) * s[5] + Pow256(3) * s[4]
  {
    Pow256Values();
    FromLittleBytes(s[0..4]);
    FromLittleBytes(s[4..8]);
    FromBigBytes(s[0..4]);
    FromBigBytes(s[4..8]);
  }

  lemma FromLittleBytes(b: Bytes)
    requires |b| == 4
    ensures FromLittle(b) == b[0] + Pow256(1) * b[1] + Pow256(2) * b[2] + Pow256(3) * b[3]
  {
    Pow256Values();
  }

  lemma FromBigBytes(b: Bytes)
    requires |b| == 4
    ensures FromBig(b) == b[3] + Pow256(1) * b[2] + Pow256(2) * b[1] + Pow256(3) * b[0]
  {
    FromLittleBytes(Reverse(b));
  }

  /** Header fields do not depend on what follows the header. */
  lemma FieldsOfPrefix(f: Format, s: Bytes, t: Bytes)
    requires |s| >= HEADER_LENGTH
    ensures LengthField(f, s + t) == LengthField(f, s)
    ensures IdField(f, s + t) == IdField(f, s)
  {
    assert (s + t)[0..4] == s[0..4] && (s + t)[4..8] == s[4..8];
  }

  /** A packet built by the constructor gives its id, length and payload back. */
  lemma PacketRoundTrip(f: Format, id: U32, payload: Bytes)
    ensures |Encode(f, id, payload)| == HEADER_LENGTH + |payload|
    ensures IdField(f, Encode(f, id, payload)) == id
    ensures Encode(f, id, payload)[HEADER_LENGTH..] == payload
    ensures LengthField(f, Encode(f, id, payload)) == |payload| <==> |payload| < WORD_RANGE
    ensures IsFrame(f, Encode(f, id, payload)) <==> |payload| < WORD_RANGE - HEADER_LENGTH
  {
    FieldsOfHeader(f, id, Truncate32(|payload|), payload);
  }

  lemma TruncatedSum(n: nat)
    ensures Add32(HEADER_LENGTH, Truncate32(n)) == Truncate32(HEADER_LENGTH + n)
  {
    var q, r := n / WORD_RANGE, n % WORD_RANGE;
    assert HEADER_LENGTH + n == (HEADER_LENGTH + r) + WORD_RANGE * q;
  }

  lemma SizeOfEncoded(f: Format, id: U32, payload: Bytes, tail: Bytes)
    ensures |Encode(f, id, payload)| == HEADER_LENGTH + |payload|
    ensures FrameSize(f, Encode(f, id, payload) + tail) == Truncate32(HEADER_LENGTH + |payload|)
  {
    var h := Header(f, id, Truncate32(|payload|));
    assert h + payload + tail == h + (payload + tail);
    FieldsOfHeader(f, id, Truncate32(|payload|), payload + tail);
    TruncatedSum(|payload|);
  }

  /**
    The exact length bound: what one encoded packet followed by anything decodes to is
    that packet and that remainder if and only if the payload is shorter than 2^32 - 8.
   */
  lemma ExactLengthBound(f: Format, id: U32, payload: Bytes, tail: Bytes)
    ensures Decode(f, Encode(f, id, payload) + tail) == Some((Encode(f, id, payload), tail))
       <==> |payload| < WORD_RANGE - HEADER_LENGTH
  {
    var frame := Encode(f, id, payload);
    SizeOfEncoded(f, id, payload, tail);
    var size := FrameSize(f, frame + tail);
    if |payload| < WORD_RANGE - HEADER_LENGTH {
      assert size == |frame|;
      assert (frame + tail)[..size] == frame && (frame + tail)[size..] == tail;
    } else {
      assert size < |frame|;
      assert |(frame + tail)[..size]| == size;
    }
  }

  /** The decoder takes a frame off the head of a buffer exactly when one is there whole. */
  lemma DecodeTakesFrame(f: Format, frame: Bytes, tail: Bytes)
    requires IsFrame(f, frame)
    ensures Decode(f, frame + tail) == Some((frame, tail))
  {
    FieldsOfPrefix(f, frame, tail);
    assert (frame + tail)[..|frame|] == frame && (frame + tail)[|frame|..] == tail;
  }

  /** Decode cuts its input in two. */
  lemma DecodeSplits(f: Format, s: Bytes)
    requires Decode(f, s).Some?
    ensures s == Decode(f, s).value.0 + Decode(f, s).value.1
    ensures |Decode(f, s).value.0| == FrameSize(f, s)
  {
  }

  lemma DecodedFrame(f: Format, s: Bytes)
    requires Decode(f, s).Some?
    requires LengthField(f, s) < WORD_RANGE - HEADER_LENGTH
    ensures IsFrame(f, Decode(f, s).value.0)
    ensures s == Decode(f, s).value.0 + Decode(f, s).value.1
  {
    var (m, r) := Decode(f, s).value;
    assert s == m + r;
    FieldsOfPrefix(f, m, r);
  }

  /** Bytes that arrive later do not change a packet that is already decodable. */
  lemma DecodeMonotone(f: Format, s: Bytes, t: Bytes)
    requires Decode(f, s).Some?
    ensures Decode(f, s + t) == Some((Decode(f, s).value.0, Decode(f, s).value.1 + t))
    ensures FrameSize(f, s + t) == FrameSize(f, s)
  {
    FieldsOfPrefix(f, s, t);
    var size := FrameSize(f, s);
    assert (s + t)[..size] == s[..size];
    assert (s + t)[size..] == s[size..] + t;
  }

  /** The same packet with its header bytes in the opposite order. */
  function ReverseHeader(s: Bytes): (r: Bytes)
    requires |s| >= HEADER_LENGTH
    ensures |r| == |s|
  {
    Reverse(s[..HEADER_LENGTH]) + s[HEADER_LENGTH..]
  }

  function Other(f: Format): Format {
    match f case Ltd => Tld case Tld => Ltd
  }

  lemma ReverseHeaderInvolution(s: Bytes)
    requires |s| >= HEADER_LENGTH
    ensures ReverseHeader(ReverseHeader(s)) == s
  {
  }

  lemma ReverseHeaderFields(f: Format, s: Bytes)
    requires |s| >= HEADER_LENGTH
    ensures LengthField(Other(f), ReverseHeader(s)) == LengthField(f, s)
    ensures IdField(Other(f), ReverseHeader(s)) == IdField(f, s)
    ensures ReverseHeader(s)[HEADER_LENGTH..] == s[HEADER_LENGTH..]
  {
    var r := ReverseHeader(s);
    assert r[0..4] == Reverse(s[4..8]) && r[4..8] == Reverse(s[0..4]);
    assert Reverse(Reverse(s[0..4])) == s[0..4];
    assert Reverse(Reverse(s[4..8])) == s[4..8];
  }

  /** The headers the two constructors write are byte reversals of each other. */
  lemma HeadersAreReversals(f: Format, id: U32, payload: Bytes)
    ensures ReverseHeader(Encode(f, id, payload)) == Encode(Other(f), id, payload)
  {
    var n := Truncate32(|payload|);
    assert Encode(f, id, payload)[..HEADER_LENGTH] == Header(f, id, n);
    assert Reverse(Header(f, id, n)) == Header(Other(f), id, n);
  }
}
