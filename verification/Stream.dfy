/**
  The receive loop as a function of the bytes received: what packets it emits, what it
  leaves in the buffer, when it stops, and that none of it depends on how the bytes
  were split into reads.
 */
module Stream {
  import opened Containers
  import opened Wire
  import opened Dispatch

  /** Packets emitted so far (their raw bytes) and the bytes still buffered */
  datatype Drained = Drained(packets: seq<Bytes>, rest: Bytes) {
    /** This result with one packet more in front */
    function After(m: Bytes): Drained {
      Drained([m] + packets, rest)
    }

    /** This result continued by another one, which started from what this one left */
    function Then(next: Drained): Drained {
      Drained(packets + next.packets, next.rest)
    }

    lemma ThenAssociates(m: Bytes, next: Drained)
      ensures After(m).Then(next) == Then(next).After(m)
    {
      assert ([m] + packets) + next.packets == [m] + (packets + next.packets);
    }

    lemma ThenUnit()
      ensures Drained([], rest).Then(this) == this
    {
      assert [] + packets == packets;
    }
  }

  function Concat(parts: seq<Bytes>): Bytes {
    if parts == [] then [] else parts[0] + Concat(parts[1..])
  }

  lemma {:induction false} ConcatAppend(a: seq<Bytes>, b: seq<Bytes>)
    ensures Concat(a + b) == Concat(a) + Concat(b)
  {
    if a == [] {
      assert a + b == b;
    } else {
      assert (a + b)[1..] == a[1..] + b;
      ConcatAppend(a[1..], b);
    }
  }

  lemma ConcatCons(m: Bytes, parts: seq<Bytes>, tail: Bytes)
    ensures Concat([m] + parts) + tail == m + (Concat(parts) + tail)
  {
    assert ([m] + parts)[1..] == parts;
  }

  /** No header whose frame size wraps around to exactly 0 is met at a frame boundary. */
  predicate NoStall(f: Format, s: Bytes)
    decreases |s|
  {
    Decode(f, s).Some? ==>
      FrameSize(f, s) > 0 && NoStall(f, Decode(f, s).value.1)
  }

  /** No length field met at a frame boundary is 2^32 - 8 or more. */
  predicate NoWrap(f: Format, s: Bytes)
    decreases |s|
  {
    |s| >= HEADER_LENGTH ==>
      && LengthField(f, s) < WORD_RANGE - HEADER_LENGTH
      && (Decode(f, s).Some? ==> NoWrap(f, Decode(f, s).value.1))
  }

  /** Decode until it returns null. */
  function Drain(f: Format, s: Bytes): Drained
    requires NoStall(f, s)
    decreases |s|
  {
    match Decode(f, s)
    case None => Drained([], s)
    case Some((m, r)) => Drain(f, r).After(m)
  }

  // ---- Termination ----

  /** The buffer after at most `n` successful calls of Decode */
  function Buffered(f: Format, s: Bytes, n: nat): Bytes {
    if n == 0 || Decode(f, s).None? then s else Buffered(f, Decode(f, s).value.1, n - 1)
  }

  lemma {:induction false} StoppingTime(f: Format, s: Bytes) returns (n: nat)
    requires NoStall(f, s)
    ensures Decode(f, Buffered(f, s, n)).None?
    ensures Buffered(f, s, n) == Drain(f, s).rest
    decreases |s|
  {
    if Decode(f, s).None? {
      n := 0;
    } else {
      var k := StoppingTime(f, Decode(f, s).value.1);
      n := k + 1;
    }
  }

  lemma {:induction false} NeverStops(f: Format, s: Bytes, n: nat)
    requires Decode(f, s).Some? && FrameSize(f, s) == 0
    ensures Buffered(f, s, n) == s
  {
    if n > 0 {
      NeverStops(f, s, n - 1);
    }
  }

  lemma {:induction false} StoppedMeansNoStall(f: Format, s: Bytes, n: nat)
    requires Decode(f, Buffered(f, s, n)).None?
    ensures NoStall(f, s)
    decreases n
  {
    if Decode(f, s).Some? {
      if FrameSize(f, s) == 0 {
        NeverStops(f, s, n);
      }
      StoppedMeansNoStall(f, Decode(f, s).value.1, n - 1);
    }
  }

  /** The loop reaches a null packet exactly when no header stalls it. */
  lemma TerminatesIff(f: Format, s: Bytes)
    ensures (exists n: nat :: Decode(f, Buffered(f, s, n)).None?) <==> NoStall(f, s)
  {
    if NoStall(f, s) {
      var n := StoppingTime(f, s);
    }
    forall n: nat | Decode(f, Buffered(f, s, n)).None?
      ensures NoStall(f, s)
    {
      StoppedMeansNoStall(f, s, n);
    }
  }

  /** The one header that stalls the loop carries the length 2^32 - 8. */
  lemma StallingHeader(f: Format, s: Bytes)
    requires |s| >= HEADER_LENGTH
    ensures Buffered(f, s, 1) == s && Decode(f, s).Some? <==> LengthField(f, s) == WORD_RANGE - HEADER_LENGTH
  {
  }

  /** Eight bytes that stall the loop: a little-endian length field of 2^32 - 8 */
  lemma StallExample()
    ensures var s: Bytes := [0xF8, 0xFF, 0xFF, 0xFF, 0, 0, 0, 0];
            Decode(Ltd, s) == Some(([], s)) && forall n: nat :: Decode(Ltd, Buffered(Ltd, s, n)).Some?
  {
    var s: Bytes := [0xF8, 0xFF, 0xFF, 0xFF, 0, 0, 0, 0];
    assert s[0..4] == [0xF8, 0xFF, 0xFF, 0xFF];
    assert LengthField(Ltd, s) == WORD_RANGE - HEADER_LENGTH;
    forall n: nat
      ensures Decode(Ltd, Buffered(Ltd, s, n)).Some?
    {
      NeverStops(Ltd, s, n);
    }
  }

  lemma {:induction false} NoWrapNoStall(f: Format, s: Bytes)
    requires NoWrap(f, s)
    ensures NoStall(f, s)
    decreases |s|
  {
    if Decode(f, s).Some? {
      NoWrapNoStall(f, Decode(f, s).value.1);
    }
  }

  /** Every packet is at least `n` bytes long. */
  predicate AllHold(packets: seq<Bytes>, n: int) {
    forall i :: 0 <= i < |packets| ==> |packets[i]| >= n
  }

  /** Every packet is long enough to hold the id that routing reads from it. */
  predicate Routable(f: Format, packets: seq<Bytes>) {
    AllHold(packets, IdEnd(f))
  }

  lemma AllHoldAfter(m: Bytes, d: Drained, n: int)
    ensures AllHold(d.After(m).packets, n) <==> |m| >= n && AllHold(d.packets, n)
  {
    assert d.After(m).packets[0] == m;
    forall i | 0 <= i < |d.packets|
      ensures d.After(m).packets[i + 1] == d.packets[i]
    {
    }
  }

  /**
    Streams without a wrapping header are exactly those for which the loop stops and
    every packet handed on holds a whole header.
   */
  lemma {:induction false} NoWrapIff(f: Format, s: Bytes)
    ensures NoWrap(f, s) <==> NoStall(f, s) && AllHold(Drain(f, s).packets, HEADER_LENGTH)
    decreases |s|
  {
    if Decode(f, s).Some? && FrameSize(f, s) > 0 {
      var (m, r) := Decode(f, s).value;
      NoWrapIff(f, r);
      if NoStall(f, s) {
        AllHoldAfter(m, Drain(f, r), HEADER_LENGTH);
      }
    }
  }

  /**
    No length field met at a frame boundary wraps around to a frame too short for its id: in
    the little-endian format that is every wrapping length, in the big-endian one the lengths
    from 2^32 - 8 to 2^32 - 5 only.
   */
  predicate IdsWhole(f: Format, s: Bytes)
    decreases |s|
  {
    |s| >= HEADER_LENGTH ==>
      && !(WORD_RANGE - HEADER_LENGTH <= LengthField(f, s) < WORD_RANGE - HEADER_LENGTH + IdEnd(f))
      && (Decode(f, s).Some? ==> IdsWhole(f, Decode(f, s).value.1))
  }

  /** That is exactly when the loop stops and routing never reads past a packet's end. */
  lemma {:induction false} IdsWholeIff(f: Format, s: Bytes)
    ensures IdsWhole(f, s) <==> NoStall(f, s) && Routable(f, Drain(f, s).packets)
    decreases |s|
  {
    if Decode(f, s).Some? && FrameSize(f, s) > 0 {
      var (m, r) := Decode(f, s).value;
      IdsWholeIff(f, r);
      if NoStall(f, s) {
        AllHoldAfter(m, Drain(f, r), IdEnd(f));
      }
    }
  }

  /** A wrapping header never leaves an id whole in the little-endian format; it may in the other. */
  lemma {:induction false} IdsWholeVersusNoWrap(f: Format, s: Bytes)
    ensures NoWrap(f, s) ==> IdsWhole(f, s)
    ensures f == Ltd && IdsWhole(f, s) ==> NoWrap(f, s)
    decreases |s|
  {
    if Decode(f, s).Some? && FrameSize(f, s) > 0 {
      IdsWholeVersusNoWrap(f, Decode(f, s).value.1);
    }
  }

  /** A big-endian header that wraps around and still becomes a packet with a whole id, 2 */
  lemma ShortPacketExample()
    ensures var s: Bytes := [0, 0, 0, 2, 0xFF, 0xFF, 0xFF, 0xFC];
            && !NoWrap(Tld, s) && IdsWhole(Tld, s)
            && Decode(Tld, s) == Some((s[..4], s[4..])) && IdField(Tld, s[..4]) == 2
  {
    var s: Bytes := [0, 0, 0, 2, 0xFF, 0xFF, 0xFF, 0xFC];
    assert Reverse(s[4..8]) == [0xFC, 0xFF, 0xFF, 0xFF];
    assert LengthField(Tld, s) == WORD_RANGE - 4;
    assert Reverse(s[..4][0..4]) == [2, 0, 0, 0];
  }

  // ---- Conservation and the reference parse ----

  /** Nothing is lost, duplicated or reordered, and nothing decodable stays behind. */
  lemma {:induction false} Conservation(f: Format, s: Bytes)
    requires NoStall(f, s)
    ensures Concat(Drain(f, s).packets) + Drain(f, s).rest == s
    ensures Decode(f, Drain(f, s).rest).None?
    decreases |s|
  {
    if Decode(f, s).Some? {
      var (m, r) := Decode(f, s).value;
      Conservation(f, r);
      DecodeSplits(f, s);
      ConcatCons(m, Drain(f, r).packets, Drain(f, r).rest);
    }
  }

  /** The head of a frame: the header or the payload it announces is not all there. */
  predicate Incomplete(f: Format, s: Bytes) {
    |s| >= HEADER_LENGTH ==>
      && LengthField(f, s) < WORD_RANGE - HEADER_LENGTH
      && |s| < HEADER_LENGTH + LengthField(f, s)
  }

  /** `s` cut into whole frames and an unfinished one, described without the decoder */
  predicate Parses(f: Format, s: Bytes, frames: seq<Bytes>, rest: Bytes) {
    && s == Concat(frames) + rest
    && (forall i :: 0 <= i < |frames| ==> IsFrame(f, frames[i]))
    && Incomplete(f, rest)
  }

  lemma {:induction false} DrainParses(f: Format, s: Bytes)
    requires NoWrap(f, s)
    ensures NoStall(f, s)
    ensures Parses(f, s, Drain(f, s).packets, Drain(f, s).rest)
    decreases |s|
  {
    NoWrapNoStall(f, s);
    Conservation(f, s);
    if Decode(f, s).Some? {
      DecodedFrame(f, s);
      DrainParses(f, Decode(f, s).value.1);
    }
  }

  lemma DrainFirst(f: Format, m: Bytes, tail: Bytes)
    requires IsFrame(f, m) && NoWrap(f, tail) && NoStall(f, tail)
    ensures NoWrap(f, m + tail) && NoStall(f, m + tail)
    ensures Drain(f, m + tail) == Drain(f, tail).After(m)
  {
    DecodeTakesFrame(f, m, tail);
    FieldsOfPrefix(f, m, tail);
  }

  lemma ParsesTail(f: Format, s: Bytes, frames: seq<Bytes>, rest: Bytes)
    requires Parses(f, s, frames, rest) && frames != []
    ensures IsFrame(f, frames[0])
    ensures s == frames[0] + (Concat(frames[1..]) + rest)
    ensures Parses(f, Concat(frames[1..]) + rest, frames[1..], rest)
  {
    Associate(frames[0], Concat(frames[1..]), rest);
  }

  lemma {:induction false} ParseIsDrained(f: Format, s: Bytes, frames: seq<Bytes>, rest: Bytes)
    requires Parses(f, s, frames, rest)
    ensures NoWrap(f, s) && NoStall(f, s)
    ensures Drain(f, s) == Drained(frames, rest)
    decreases |frames|
  {
    if frames == [] {
      assert s == rest;
    } else {
      var tail := Concat(frames[1..]) + rest;
      ParsesTail(f, s, frames, rest);
      ParseIsDrained(f, tail, frames[1..], rest);
      DrainFirst(f, frames[0], tail);
      assert frames == [frames[0]] + frames[1..];
    }
  }

  /**
    The drain loop computes the one and only cut of the stream into frames, and such a
    cut exists exactly for the streams without a wrapping header.
   */
  lemma DrainIsTheParse(f: Format, s: Bytes, frames: seq<Bytes>, rest: Bytes)
    ensures Parses(f, s, frames, rest) <==>
            NoWrap(f, s) && NoStall(f, s) && Drain(f, s) == Drained(frames, rest)
  {
    if NoWrap(f, s) {
      DrainParses(f, s);
    }
    if Parses(f, s, frames, rest) {
      ParseIsDrained(f, s, frames, rest);
    }
  }

  function Zeros(n: nat): (z: Bytes)
    ensures |z| == n
  {
    seq(n, i => 0)
  }

  /** A started header that already holds a little-endian length of 2^32 - 8 or more */
  predicate WrappingLengthField(f: Format, s: Bytes) {
    f == Ltd && 4 <= |s| < HEADER_LENGTH && FromLittle(s[0..4]) >= WORD_RANGE - HEADER_LENGTH
  }

  lemma NoCompletion(f: Format, s: Bytes, t: Bytes)
    requires WrappingLengthField(f, s)
    ensures !IsFrame(f, s + t)
  {
    if |s + t| >= HEADER_LENGTH {
      assert (s + t)[0..4] == s[0..4];
    }
  }

  lemma CompleteToFrame(f: Format, s: Bytes) returns (t: Bytes)
    requires Incomplete(f, s)
    requires !WrappingLengthField(f, s)
    ensures t != [] && IsFrame(f, s + t)
  {
    if |s| >= HEADER_LENGTH {
      t := Zeros(HEADER_LENGTH + LengthField(f, s) - |s|);
      FieldsOfPrefix(f, s, t);
    } else {
      var pad := Zeros(HEADER_LENGTH - |s|);
      var h := s + pad;
      assert h[7] == 0;
      assert f == Ltd && |s| < 4 ==> h[3] == 0;
      assert f == Ltd && |s| >= 4 ==> h[0..4] == s[0..4];
      var more := Zeros(LengthField(f, h));
      t := pad + more;
      assert s + t == h + more;
      FieldsOfPrefix(f, h, more);
    }
  }

  /**
    What the loop leaves behind is a strict prefix of some frame, unless it already
    ends in a whole little-endian length field of 2^32 - 8 or more.
   */
  lemma LeftoverIsStrictPrefix(f: Format, s: Bytes)
    requires NoWrap(f, s) && NoStall(f, s)
    ensures var rest := Drain(f, s).rest;
            (exists t :: t != [] && IsFrame(f, rest + t)) <==>
            !WrappingLengthField(f, rest)
  {
    DrainParses(f, s);
    var rest := Drain(f, s).rest;
    if WrappingLengthField(f, rest) {
      forall t: Bytes
        ensures !IsFrame(f, rest + t)
      {
        NoCompletion(f, rest, t);
      }
    } else {
      var t := CompleteToFrame(f, rest);
    }
  }

  // ---- Independence from the split into reads ----

  lemma {:induction false} NoStallAppend(f: Format, s: Bytes, t: Bytes)
    ensures NoStall(f, s + t) <==> NoStall(f, s) && NoStall(f, Drain(f, s).rest + t)
    decreases |s|
  {
    if Decode(f, s).Some? {
      DecodeMonotone(f, s, t);
      if FrameSize(f, s) > 0 {
        NoStallAppend(f, Decode(f, s).value.1, t);
      }
    }
  }

  /** Draining on the first part and again once the second has arrived. */
  lemma {:induction false} DrainAppend(f: Format, s: Bytes, t: Bytes)
    requires NoStall(f, s + t)
    ensures NoStall(f, s) && NoStall(f, Drain(f, s).rest + t)
    ensures Drain(f, s + t) == Drain(f, s).Then(Drain(f, Drain(f, s).rest + t))
    decreases |s|
  {
    NoStallAppend(f, s, t);
    if Decode(f, s).Some? {
      var (m, r) := Decode(f, s).value;
      DecodeMonotone(f, s, t);
      DrainAppend(f, r, t);
      Drain(f, r).ThenAssociates(m, Drain(f, Drain(f, r).rest + t));
    } else {
      Drain(f, s + t).ThenUnit();
    }
  }

  /** Every read's drain stops. */
  predicate FeedStops(f: Format, left: Bytes, chunks: seq<Bytes>)
    decreases |chunks|
  {
    chunks != [] ==>
      NoStall(f, left + chunks[0]) && FeedStops(f, Drain(f, left + chunks[0]).rest, chunks[1..])
  }

  /** Each read is appended to what the previous one left, then drained. */
  function Feed(f: Format, left: Bytes, chunks: seq<Bytes>): Drained
    requires FeedStops(f, left, chunks)
    decreases |chunks|
  {
    if chunks == [] then Drained([], left)
    else
      var d := Drain(f, left + chunks[0]);
      d.Then(Feed(f, d.rest, chunks[1..]))
  }

  /**
    However the stream is split, the loop stops on every read exactly when it stops on
    the whole stream, and then emits the same packets and leaves the same bytes.
   */
  lemma {:induction false} ChunkingIndependence(f: Format, left: Bytes, chunks: seq<Bytes>)
    requires Decode(f, left).None?
    ensures FeedStops(f, left, chunks) <==> NoStall(f, left + Concat(chunks))
    ensures NoStall(f, left + Concat(chunks)) ==>
              Feed(f, left, chunks) == Drain(f, left + Concat(chunks))
    decreases |chunks|
  {
    if chunks == [] {
      assert left + Concat(chunks) == left;
    } else {
      var s, t := left + chunks[0], Concat(chunks[1..]);
      assert left + Concat(chunks) == s + t;
      NoStallAppend(f, s, t);
      if NoStall(f, s) {
        Conservation(f, s);
        ChunkingIndependence(f, Drain(f, s).rest, chunks[1..]);
      }
      if NoStall(f, s + t) {
        DrainAppend(f, s, t);
      }
    }
  }

  lemma {:induction false} IdsWholeAppend(f: Format, s: Bytes, t: Bytes)
    ensures IdsWhole(f, s + t) <==> IdsWhole(f, s) && NoStall(f, s) && IdsWhole(f, Drain(f, s).rest + t)
    decreases |s|
  {
    if |s| >= HEADER_LENGTH {
      FieldsOfPrefix(f, s, t);
      if Decode(f, s).Some? {
        DecodeMonotone(f, s, t);
        if FrameSize(f, s) > 0 {
          IdsWholeAppend(f, Decode(f, s).value.1, t);
        }
      }
    }
  }

  // ---- Round trip over lists of packets ----

  datatype Message = Message(id: U32, payload: Bytes)

  function EncodeAll(f: Format, messages: seq<Message>): (frames: seq<Bytes>)
    ensures |frames| == |messages|
    ensures forall i :: 0 <= i < |messages| ==>
              frames[i] == Encode(f, messages[i].id, messages[i].payload)
  {
    seq(|messages|, i requires 0 <= i < |messages| => Encode(f, messages[i].id, messages[i].payload))
  }

  /** What GetId and GetPayload return on a packet */
  function Content(f: Format, packet: Bytes): Message
    requires |packet| >= HEADER_LENGTH
  {
    Message(IdField(f, packet), packet[HEADER_LENGTH..])
  }

  predicate Framable(messages: seq<Message>) {
    forall i :: 0 <= i < |messages| ==> |messages[i].payload| < WORD_RANGE - HEADER_LENGTH
  }

  lemma EncodedParses(f: Format, messages: seq<Message>)
    requires Framable(messages)
    ensures Parses(f, Concat(EncodeAll(f, messages)), EncodeAll(f, messages), [])
  {
    var frames := EncodeAll(f, messages);
    forall i | 0 <= i < |frames|
      ensures IsFrame(f, frames[i])
    {
      PacketRoundTrip(f, messages[i].id, messages[i].payload);
    }
  }

  /**
    A list of messages, encoded, concatenated and received in any chunks at all, comes
    out as that list with nothing left over.
   */
  lemma ListRoundTrip(f: Format, messages: seq<Message>, chunks: seq<Bytes>)
    requires Framable(messages)
    requires Concat(chunks) == Concat(EncodeAll(f, messages))
    ensures FeedStops(f, [], chunks)
    ensures var d := Feed(f, [], chunks);
            && d.rest == []
            && |d.packets| == |messages|
            && forall i :: 0 <= i < |messages| ==>
                 && |d.packets[i]| >= HEADER_LENGTH
                 && Content(f, d.packets[i]) == messages[i]
                 && LengthField(f, d.packets[i]) == |messages[i].payload|
  {
    var frames := EncodeAll(f, messages);
    EncodedParses(f, messages);
    ParseIsDrained(f, Concat(frames), frames, []);
    assert [] + Concat(chunks) == Concat(frames);
    ChunkingIndependence(f, [], chunks);
    forall i | 0 <= i < |messages|
      ensures |frames[i]| >= HEADER_LENGTH && Content(f, frames[i]) == messages[i]
      ensures LengthField(f, frames[i]) == |messages[i].payload|
    {
      PacketRoundTrip(f, messages[i].id, messages[i].payload);
    }
  }

  // ---- Packets as routing sees them ----

  function Requests(f: Format, packets: seq<Bytes>): (requests: seq<Request<Bytes>>)
    requires Routable(f, packets)
    ensures |requests| == |packets|
  {
    seq(|packets|, i requires 0 <= i < |packets| => Request(IdField(f, packets[i]), packets[i]))
  }

  lemma RequestsCons(f: Format, m: Bytes, packets: seq<Bytes>)
    requires |m| >= IdEnd(f) && Routable(f, packets)
    ensures Routable(f, [m] + packets)
    ensures Requests(f, [m] + packets) == [Request(IdField(f, m), m)] + Requests(f, packets)
  {
  }

  /** The handler calls the receive loop makes on what the buffer holds, as it goes along */
  function Effects<H>(table: map<U32, H>, f: Format, s: Bytes): seq<Call<H, Bytes>>
    requires IdsWhole(f, s)
    decreases |s|
  {
    match Decode(f, s)
    case None => []
    case Some((m, r)) => Route(table, Request(IdField(f, m), m)) + Effects(table, f, r)
  }

  lemma RoutedCons<H>(table: map<U32, H>, f: Format, m: Bytes, packets: seq<Bytes>)
    requires |m| >= IdEnd(f) && Routable(f, packets)
    ensures Routable(f, [m] + packets)
    ensures RouteAll(table, Requests(f, [m] + packets))
         == Route(table, Request(IdField(f, m), m)) + RouteAll(table, Requests(f, packets))
  {
    var request := Request(IdField(f, m), m);
    RequestsCons(f, m, packets);
    RouteAllAppend(table, [request], Requests(f, packets));
    RouteAllNext(table, [], request);
    assert [] + [request] == [request];
  }

  /** Those calls are what routing the drained packets one after the other makes. */
  lemma {:induction false} EffectsAreRouted<H>(table: map<U32, H>, f: Format, s: Bytes)
    requires IdsWhole(f, s)
    ensures NoStall(f, s) && Routable(f, Drain(f, s).packets)
    ensures Effects(table, f, s) == RouteAll(table, Requests(f, Drain(f, s).packets))
    decreases |s|
  {
    IdsWholeIff(f, s);
    if Decode(f, s).Some? {
      var (m, r) := Decode(f, s).value;
      EffectsAreRouted(table, f, r);
      RoutedCons(table, f, m, Drain(f, r).packets);
    }
  }

  /** Handling what has arrived and then, with what it left, what arrives later */
  lemma {:induction false} EffectsAppend<H>(table: map<U32, H>, f: Format, s: Bytes, t: Bytes)
    requires IdsWhole(f, s + t)
    ensures IdsWhole(f, s) && NoStall(f, s) && IdsWhole(f, Drain(f, s).rest + t)
    ensures Effects(table, f, s + t) == Effects(table, f, s) + Effects(table, f, Drain(f, s).rest + t)
    decreases |s|
  {
    IdsWholeAppend(f, s, t);
    if Decode(f, s).Some? {
      var (m, r) := Decode(f, s).value;
      DecodeMonotone(f, s, t);
      EffectsAppend(table, f, r, t);
      Associate(Route(table, Request(IdField(f, m), m)), Effects(table, f, r), Effects(table, f, Drain(f, r).rest + t));
    }
  }

  /** Every read can be handled: the loop stops and no packet is too short for its id. */
  predicate FeedRoutable(f: Format, left: Bytes, chunks: seq<Bytes>)
    decreases |chunks|
  {
    chunks != [] ==>
      && IdsWhole(f, left + chunks[0]) && NoStall(f, left + chunks[0])
      && FeedRoutable(f, Drain(f, left + chunks[0]).rest, chunks[1..])
  }

  /** The handler calls made over the reads, each handled as it arrives */
  function FeedEffects<H>(table: map<U32, H>, f: Format, left: Bytes, chunks: seq<Bytes>): seq<Call<H, Bytes>>
    requires FeedRoutable(f, left, chunks)
    decreases |chunks|
  {
    if chunks == [] then []
    else
      Effects(table, f, left + chunks[0]) + FeedEffects(table, f, Drain(f, left + chunks[0]).rest, chunks[1..])
  }

  /** However the stream is split, the same streams can be handled and the same calls are made. */
  lemma {:induction false} CallsIndependence<H>(table: map<U32, H>, f: Format, left: Bytes, chunks: seq<Bytes>)
    requires Decode(f, left).None?
    ensures FeedRoutable(f, left, chunks) <==> IdsWhole(f, left + Concat(chunks))
    ensures IdsWhole(f, left + Concat(chunks)) ==>
              FeedEffects(table, f, left, chunks) == Effects(table, f, left + Concat(chunks))
    decreases |chunks|
  {
    if chunks == [] {
      assert left + Concat(chunks) == left;
    } else {
      var s, t := left + chunks[0], Concat(chunks[1..]);
      assert left + Concat(chunks) == s + t;
      IdsWholeAppend(f, s, t);
      if IdsWhole(f, s) && NoStall(f, s) {
        Conservation(f, s);
        CallsIndependence(table, f, Drain(f, s).rest, chunks[1..]);
      }
      if IdsWhole(f, s + t) {
        EffectsAppend(table, f, s, t);
      }
    }
  }

  /** The calls for these messages: three for each registered id, in the order sent, and no more */
  ghost predicate HandlesAll<H>(registrations: seq<Registration<H>>, f: Format, messages: seq<Message>,
                                calls: seq<Call<H, Bytes>>)
    requires Routable(f, EncodeAll(f, messages))
  {
    var requests, table := Requests(f, EncodeAll(f, messages)), TableOf(registrations);
    && |calls| == 3 * Registered(table, requests)
    && forall i :: 0 <= i < |messages| ==>
         && requests[i].id == messages[i].id
         && (IsRegistered(registrations, messages[i].id) ==>
              PhasesAt(table, requests, i, calls, 3 * Registered(table, requests[..i])))
  }

  lemma RoutedMessages<H>(registrations: seq<Registration<H>>, f: Format, messages: seq<Message>)
    ensures Routable(f, EncodeAll(f, messages))
    ensures HandlesAll(registrations, f, messages, RouteAll(TableOf(registrations), Requests(f, EncodeAll(f, messages))))
  {
    forall i | 0 <= i < |messages|
      ensures |EncodeAll(f, messages)[i]| >= IdEnd(f)
    {
      PacketRoundTrip(f, messages[i].id, messages[i].payload);
    }
    var requests, table := Requests(f, EncodeAll(f, messages)), TableOf(registrations);
    ThreeCallsEach(table, requests);
    forall i | 0 <= i < |messages|
      ensures requests[i].id == messages[i].id
      ensures IsRegistered(registrations, messages[i].id) ==>
                PhasesAt(table, requests, i, RouteAll(table, requests), 3 * Registered(table, requests[..i]))
    {
      PacketRoundTrip(f, messages[i].id, messages[i].payload);
      LastRegistrationWins(registrations, messages[i].id);
      if messages[i].id in table {
        HandledInOrder(table, requests, i);
      }
    }
  }

  /**
    From the client's messages to the handlers: of messages encoded one after the other and
    received in any reads, exactly those with a registered id reach their handler, in the
    order sent.
   */
  lemma MessagesReachHandlers<H>(registrations: seq<Registration<H>>, f: Format, messages: seq<Message>,
                                 chunks: seq<Bytes>)
    requires Framable(messages) && Concat(chunks) == Concat(EncodeAll(f, messages))
    ensures FeedRoutable(f, [], chunks) && Routable(f, EncodeAll(f, messages))
    ensures HandlesAll(registrations, f, messages, FeedEffects(TableOf(registrations), f, [], chunks))
  {
    var frames, table := EncodeAll(f, messages), TableOf(registrations);
    var s := Concat(frames);
    EncodedParses(f, messages);
    ParseIsDrained(f, s, frames, []);
    IdsWholeVersusNoWrap(f, s);
    EffectsAreRouted(table, f, s);
    RoutedMessages(registrations, f, messages);
    assert [] + Concat(chunks) == s;
    CallsIndependence(table, f, [], chunks);
  }

  // ---- One format simulates the other ----

  /** The stream with the header of each frame, and of a started one, reversed */
  function ReverseHeaders(f: Format, s: Bytes): (r: Bytes)
    requires NoWrap(f, s)
    ensures |r| == |s|
    decreases |s|
  {
    if |s| < HEADER_LENGTH then s
    else match Decode(f, s)
      case None => ReverseHeader(s)
      case Some((m, rest)) => ReverseHeader(m) + ReverseHeaders(f, rest)
  }

  lemma {:induction false} ReverseHeadersInvolution(f: Format, s: Bytes)
    requires NoWrap(f, s)
    ensures NoWrap(Other(f), ReverseHeaders(f, s))
    ensures ReverseHeaders(Other(f), ReverseHeaders(f, s)) == s
    decreases |s|
  {
    if |s| >= HEADER_LENGTH {
      if Decode(f, s).Some? {
        var (m, r) := Decode(f, s).value;
        ReverseHeadersStep(f, s);
        ReverseHeadersInvolution(f, r);
        ReverseHeaderInvolution(m);
      } else {
        ReverseHeaderFields(f, s);
        ReverseHeaderInvolution(s);
      }
    }
  }

  lemma ReverseHeadersStep(f: Format, s: Bytes)
    requires NoWrap(f, s) && Decode(f, s).Some?
    ensures var (m, r) := Decode(f, s).value;
            var t, g := ReverseHeaders(f, s), Other(f);
            && |m| >= HEADER_LENGTH && s == m + r
            && Decode(g, t) == Some((ReverseHeader(m), ReverseHeaders(f, r)))
            && LengthField(g, t) == LengthField(f, s)
            && Content(g, ReverseHeader(m)) == Content(f, m)
  {
    var (m, r) := Decode(f, s).value;
    var u, g := ReverseHeaders(f, r), Other(f);
    DecodedFrame(f, s);
    FieldsOfPrefix(f, m, r);
    ReverseHeaderFields(f, m);
    DecodeTakesFrame(g, ReverseHeader(m), u);
    FieldsOfPrefix(g, ReverseHeader(m), u);
  }

  /** The packets of `e` are those of `d` with their headers reversed: same ids and payloads */
  predicate Mirrors(f: Format, d: Drained, e: Drained) {
    && |e.packets| == |d.packets|
    && |e.rest| == |d.rest|
    && forall i :: 0 <= i < |d.packets| ==>
         && |d.packets[i]| >= HEADER_LENGTH
         && e.packets[i] == ReverseHeader(d.packets[i])
         && Content(Other(f), e.packets[i]) == Content(f, d.packets[i])
  }

  lemma MirrorsAfter(f: Format, m: Bytes, d: Drained, e: Drained)
    requires Mirrors(f, d, e)
    requires |m| >= HEADER_LENGTH && Content(Other(f), ReverseHeader(m)) == Content(f, m)
    ensures Mirrors(f, d.After(m), e.After(ReverseHeader(m)))
  {
  }

  /** A run of one decoder on `s` becomes a run of the other on the reversed stream. */
  lemma {:induction false} FormatSimulation(f: Format, s: Bytes)
    requires NoWrap(f, s) && NoStall(f, s)
    ensures var t, g := ReverseHeaders(f, s), Other(f);
            && NoWrap(g, t) && NoStall(g, t)
            && ReverseHeaders(g, t) == s
            && Mirrors(f, Drain(f, s), Drain(g, t))
    decreases |s|
  {
    var t, g := ReverseHeaders(f, s), Other(f);
    ReverseHeadersInvolution(f, s);
    NoWrapNoStall(g, t);
    if |s| >= HEADER_LENGTH {
      if Decode(f, s).Some? {
        var (m, r) := Decode(f, s).value;
        ReverseHeadersStep(f, s);
        FormatSimulation(f, r);
        MirrorsAfter(f, m, Drain(f, r), Drain(g, ReverseHeaders(f, r)));
      } else {
        ReverseHeaderFields(f, s);
      }
    }
  }
}
