/**
  The objects of the receive path: the connection's buffer, packets, the router and the
  server's message callback.

  The two packet classes and the two decoders differ only in where and in which byte
  order they keep the header fields; their virtual functions are modelled by a format
  tag. Handlers are opaque to this code; what can be observed of them is which call was
  made on which packet, which a `Journal` records.
 */
module Server {
  import opened Containers
  import opened Wire
  import opened Stream
  import opened Dispatch

  /** The receive buffer of one connection */
  class Buffer {
    var readable: Bytes

    constructor ()
      ensures readable == []
    {
      readable := [];
    }

    method Append(data: Bytes)
      modifies this
      ensures readable == old(readable) + data
    {
      readable := readable + data;
    }

    method RetrieveAsString(n: nat) returns (data: Bytes)
      requires n <= |readable|
      modifies this
      ensures data == old(readable)[..n] && readable == old(readable)[n..]
    {
      data := readable[..n];
      readable := readable[n..];
    }
  }

  class Packet {
    const format: Format
    var data: Bytes

    constructor Empty(format: Format)
      ensures this.format == format && data == []
    {
      this.format := format;
      data := [];
    }

    /** Appends the two header words in the order of the format, then the payload. */
    constructor Make(format: Format, id: U32, payload: Bytes)
      ensures this.format == format && data == Encode(format, id, payload)
    {
      this.format := format;
      data := [];
      new;
      var length := Truncate32(|payload|);
      match format {
        case Ltd =>
          data := data + Little(length);
          data := data + Little(id);
        case Tld =>
          data := data + Big(id);
          data := data + Big(length);
      }
      data := data + payload;
    }

    method Reset(data: Bytes)
      modifies this
      ensures this.data == data
    {
      this.data := data;
    }

    function GetPayloadLength(): U32
      reads this
      requires |data| >= LengthEnd(format)
    {
      LengthField(format, data)
    }

    function GetId(): U32
      reads this
      requires |data| >= IdEnd(format)
    {
      IdField(format, data)
    }

    /** substr from the end of the header; None stands for std::out_of_range. */
    function GetPayload(): (payload: Option<Bytes>)
      reads this
      ensures payload.None? <==> |data| < HEADER_LENGTH
      ensures payload.Some? ==> data[..HEADER_LENGTH] + payload.value == data
    {
      if HEADER_LENGTH <= |data| then Some(data[HEADER_LENGTH..]) else None
    }
  }

  /** Whatever packet is built, its accessors give back what it was built from. */
  lemma BuiltPacket(pack: Packet, id: U32, payload: Bytes)
    requires pack.data == Encode(pack.format, id, payload)
    ensures |pack.data| == HEADER_LENGTH + |payload|
    ensures pack.GetId() == id && pack.GetPayload() == Some(payload)
    ensures pack.GetPayloadLength() == |payload| <==> |payload| < WORD_RANGE
  {
    PacketRoundTrip(pack.format, id, payload);
  }

  /** Takes one packet off the buffer, or returns null and leaves the buffer alone. */
  method DecodePacket(format: Format, input: Buffer) returns (pack: Packet?)
    modifies input
    ensures Decode(format, old(input.readable)).None? ==>
              pack == null && input.readable == old(input.readable)
    ensures Decode(format, old(input.readable)).Some? ==>
              && pack != null && fresh(pack) && pack.format == format
              && Decode(format, old(input.readable)) == Some((pack.data, input.readable))
  {
    var packet := new Packet.Empty(format);
    if |input.readable| < HEADER_LENGTH {
      return null;
    }
    var peek := input.readable;
    var dataLength;
    match format {
      case Ltd => dataLength := FromLittle(peek[0..4]);
      case Tld => dataLength := FromBig(peek[4..8]);
    }
    var size := Add32(HEADER_LENGTH, dataLength);
    if |input.readable| < size {
      return null;
    }
    var message := input.RetrieveAsString(size);
    packet.Reset(message);
    return packet;
  }

  /** The handler calls made so far */
  class Journal {
    var calls: seq<Call<Handler, Bytes>>

    constructor ()
      ensures calls == []
    {
      calls := [];
    }
  }

  class Handler {
    method PreHandle(pack: Packet, journal: Journal)
      modifies journal
      ensures journal.calls == old(journal.calls) + [Call(Pre, this, pack.data)]
    {
      journal.calls := journal.calls + [Call(Pre, this, pack.data)];
    }

    method Handle(pack: Packet, journal: Journal)
      modifies journal
      ensures journal.calls == old(journal.calls) + [Call(Main, this, pack.data)]
    {
      journal.calls := journal.calls + [Call(Main, this, pack.data)];
    }

    method PostHandle(pack: Packet, journal: Journal)
      modifies journal
      ensures journal.calls == old(journal.calls) + [Call(Post, this, pack.data)]
    {
      journal.calls := journal.calls + [Call(Post, this, pack.data)];
    }
  }

  class Router {
    var mapper: map<U32, Handler>
    ghost var registrations: seq<Registration<Handler>>

    ghost predicate Valid()
      reads this
    {
      mapper == TableOf(registrations)
    }

    constructor ()
      ensures Valid() && registrations == []
    {
      mapper := map[];
      registrations := [];
    }

    /** Whether a handler was replaced */
    method AddHandler(id: U32, handler: Handler) returns (replaced: bool)
      requires Valid()
      modifies this
      ensures Valid() && registrations == old(registrations) + [Registration(id, handler)]
      ensures mapper == old(mapper)[id := handler]
      ensures replaced <==> IsRegistered(old(registrations), id)
    {
      LastRegistrationWins(registrations, id);
      replaced := id in mapper;
      mapper := mapper[id := handler];
      var r := Registration(id, handler);
      assert (registrations + [r])[..|registrations|] == registrations;
      registrations := registrations + [r];
    }

    method RouteAndHandle(pack: Packet, journal: Journal)
      requires |pack.data| >= IdEnd(pack.format)
      modifies journal
      ensures journal.calls == old(journal.calls) + Route(mapper, Request(IdField(pack.format, pack.data), pack.data))
    {
      var id := pack.GetId();
      if id !in mapper {
        return;
      }
      var handler := mapper[id];
      handler.PreHandle(pack, journal);
      handler.Handle(pack, journal);
      handler.PostHandle(pack, journal);
    }
  }

  class ZinxServer {
    const decoder: Format
    const router: Router

    constructor (decoder: Format, router: Router)
      ensures this.decoder == decoder && this.router == router
    {
      this.decoder := decoder;
      this.router := router;
    }

    /**
      Drains the buffer and dispatches. The precondition is exactly what keeps the loop
      from spinning and routing from reading past a packet's end (Stream.IdsWholeIff).
     */
    method HandleOnMessage(buf: Buffer, journal: Journal)
      requires IdsWhole(decoder, buf.readable)
      modifies buf, journal
      ensures NoStall(decoder, old(buf.readable))
      ensures buf.readable == Drain(decoder, old(buf.readable)).rest
      ensures Decode(decoder, buf.readable).None?
      ensures journal.calls == old(journal.calls) + Effects(router.mapper, decoder, old(buf.readable))
    {
      ghost var received := buf.readable;
      ghost var emitted: Bytes := [];
      IdsWholeIff(decoder, received);
      while true
        invariant IdsWhole(decoder, buf.readable) && NoStall(decoder, buf.readable)
        invariant emitted + buf.readable == received
        invariant Drain(decoder, buf.readable).rest == Drain(decoder, received).rest
        invariant journal.calls + Effects(router.mapper, decoder, buf.readable)
               == old(journal.calls) + Effects(router.mapper, decoder, received)
        decreases |buf.readable|
      {
        ghost var before := buf.readable;
        var pack := DecodePacket(decoder, buf);
        if pack == null {
          return;
        }
        DecodeSplits(decoder, before);
        Associate(emitted, pack.data, buf.readable);
        emitted := emitted + pack.data;
        Associate(journal.calls, Route(router.mapper, Request(IdField(decoder, pack.data), pack.data)),
                  Effects(router.mapper, decoder, buf.readable));
        router.RouteAndHandle(pack, journal);
      }
    }

    /** The message callback after each of a sequence of reads on one connection */
    method OnReads(chunks: seq<Bytes>, buf: Buffer, journal: Journal)
      requires Decode(decoder, buf.readable).None?
      requires IdsWhole(decoder, buf.readable + Concat(chunks))
      modifies buf, journal
      ensures NoStall(decoder, old(buf.readable) + Concat(chunks))
      ensures buf.readable == Drain(decoder, old(buf.readable) + Concat(chunks)).rest
      ensures journal.calls
           == old(journal.calls) + Effects(router.mapper, decoder, old(buf.readable) + Concat(chunks))
    {
      ghost var received := buf.readable + Concat(chunks);
      IdsWholeIff(decoder, received);
      for i := 0 to |chunks|
        invariant Decode(decoder, buf.readable).None?
        invariant IdsWhole(decoder, buf.readable + Concat(chunks[i..]))
        invariant NoStall(decoder, buf.readable + Concat(chunks[i..]))
        invariant Drain(decoder, buf.readable + Concat(chunks[i..])).rest == Drain(decoder, received).rest
        invariant journal.calls + Effects(router.mapper, decoder, buf.readable + Concat(chunks[i..]))
               == old(journal.calls) + Effects(router.mapper, decoder, received)
      {
        ghost var later := Concat(chunks[i + 1..]);
        Associate(buf.readable, chunks[i], later);
        buf.Append(chunks[i]);
        EffectsAppend(router.mapper, decoder, buf.readable, later);
        DrainAppend(decoder, buf.readable, later);
        Associate(journal.calls, Effects(router.mapper, decoder, buf.readable),
                  Effects(router.mapper, decoder, Drain(decoder, buf.readable).rest + later));
        HandleOnMessage(buf, journal);
      }
      assert buf.readable + [] == buf.readable;
    }
  }
}
