/** The two incremental parsers, each proved to split its input as the format says. */
module FrameParsers {
  import opened Outcomes
  import opened Bytes
  import opened Collections
  import opened Framing

  /** The checks of the two encoders. */
  function EncodeInner(frame: Frame): (r: Result<ByteString, string>)
    requires frame.Inner?
    ensures r.Ok? <==> Allowed(Private(MAX_RELIABLE_PAYLOAD_BYTES), frame)
    ensures r.Ok? ==> Split(Private(MAX_RELIABLE_PAYLOAD_BYTES), r.value) == Some(Parts([frame], []))
  {
    FieldRanges();
    if |frame.metadata| > MAX_METADATA_BYTES || |frame.payload| > MAX_RELIABLE_PAYLOAD_BYTES then
      Err("inner frame exceeds limit")
    else
      OneFrame(Private(MAX_RELIABLE_PAYLOAD_BYTES), frame);
      Ok(Encode(frame))
  }

  /**
   * The link encoder does not look at the payload of an acknowledgement, so exactly the
   * acknowledgements with a payload are encoded and then refused by the parser. A payload
   * too long for its length field is refused by the packing of the header.
   */
  function EncodeOuter(kind: Byte, id: int, payload: ByteString, maxFrameSize: nat): (r: Result<ByteString, string>)
    requires 1 <= kind <= 3
    ensures r.Ok? <==> 0 <= id < Pow256(8) && |payload| <= maxFrameSize && |payload| < Pow256(4)
    ensures r.Ok? && !(kind == ACK && payload != []) ==>
      Split(Link(maxFrameSize), r.value) == Some(Parts([Outer(kind, id, payload)], []))
    ensures r.Ok? && kind == ACK && payload != [] ==> Split(Link(maxFrameSize), r.value).None?
  {
    FieldRanges();
    if !(0 <= id <= 0xFFFF_FFFF_FFFF_FFFF) then Err("message_id must be an unsigned 64-bit integer")
    else if |payload| > maxFrameSize then Err("payload exceeds maximum frame size")
    else if |payload| > 0xFFFF_FFFF then Err("length does not fit its field")
    else
      var frame := Outer(kind, id, payload);
      LoadedAckRefused(frame, maxFrameSize);
      if Allowed(Link(maxFrameSize), frame) then
        OneFrame(Link(maxFrameSize), frame);
        Ok(Encode(frame))
      else Ok(Encode(frame))
  }

  lemma LoadedAckRefused(frame: Frame, maxFrameSize: nat)
    requires frame.Outer? && 1 <= frame.kind <= 3 && |frame.payload| <= maxFrameSize && |frame.payload| < Pow256(4)
    ensures frame.kind == ACK && frame.payload != [] ==> Split(Link(maxFrameSize), Encode(frame)).None?
  {
    EncodedFields(frame);
    BigEndianReadsBack(|frame.payload|, 4);
    var e := Encode(frame);
    assert e[..|e|] == e;
  }

  /** The receive limit of a link parser; without a request it is twice the frame size, which is too little below 14. */
  function ReceiveLimit(maxFrameSize: int, requested: nat): (r: Result<nat, string>)
    ensures r.Ok? ==> 0 < maxFrameSize <= PROTOCOL_MAX_FRAME_SIZE && 14 + maxFrameSize <= r.value
    ensures 0 < maxFrameSize <= PROTOCOL_MAX_FRAME_SIZE && requested == 0 ==> (r.Ok? <==> maxFrameSize >= 14)
    ensures 0 < maxFrameSize <= PROTOCOL_MAX_FRAME_SIZE && requested > 0 ==>
      (r == Ok(requested) <==> requested >= 14 + maxFrameSize)
  {
    if !(0 < maxFrameSize <= PROTOCOL_MAX_FRAME_SIZE) then Err("invalid max_frame_size")
    else
      var limit: nat := if requested == 0 then maxFrameSize * 2 else requested;
      if limit < 14 + maxFrameSize then Err("receive buffer must hold one maximum-sized frame") else Ok(limit)
  }

  lemma OneFrame(f: Format, frame: Frame)
    requires Allowed(f, frame)
    ensures Split(f, Encode(frame)) == Some(Parts([frame], []))
  {
    SplitFrame(f, frame, []);
    EmptyIsNeutral(Encode(frame));
    EmptyIsNeutral([frame]);
  }

  /** A header that no format accepts, kept by a parser that has raised. */
  predicate Poisoned(f: Format, buffer: ByteString)
  {
    |buffer| == HeaderSize(f) && Inspect(f, buffer).None?
  }

  /** Parser of the private stream: it takes only as much of its input as the frame in progress needs. */
  class PrivateParser {
    const format: Format
    var buffer: ByteString

    constructor (maxPayload: nat)
      ensures format == Private(maxPayload) && buffer == []
    {
      format := Private(maxPayload);
      buffer := [];
    }

    /** Moves input to the buffer until the buffer has the wanted size or the input is used up. */
    method Fill(data: ByteString, offset: nat, size: nat) returns (next: nat)
      requires offset <= |data|
      modifies this`buffer
      ensures offset <= next <= |data| && buffer + data[next..] == old(buffer) + data[offset..]
      ensures old(buffer) <= buffer && |buffer| - |old(buffer)| == next - offset
      ensures |old(buffer)| >= size ==> buffer == old(buffer)
      ensures |old(buffer)| <= size ==> |buffer| <= size && (|buffer| == size || next == |data|)
    {
      next := offset;
      var take := Min(size - |buffer|, |data| - next);
      if take > 0 {
        Slid(buffer, data, next, take);
        buffer := buffer + data[next..next + take];
        next := next + take;
      }
    }

    /** One round of the loop: completes the frame in progress, runs out of data, or raises. */
    method TakeOne(data: ByteString, offset: nat) returns (r: Result<Option<Frame>, string>, next: nat)
      requires format.Private? && offset < |data|
      requires Pending(format, buffer) || Poisoned(format, buffer)
      modifies this`buffer
      ensures offset <= next <= |data|
      ensures Poisoned(format, old(buffer)) ==> r.Err? && buffer == old(buffer)
      ensures Pending(format, old(buffer)) && r.Err? ==>
        Split(format, old(buffer) + data[offset..]).None? && Poisoned(format, buffer)
      ensures r == Ok(None) ==> next == |data| && buffer == old(buffer) + data[offset..] && Pending(format, buffer)
      ensures r.Ok? && r.value.Some? ==> offset < next && buffer == []
      ensures r.Ok? && r.value.Some? ==>
        Split(format, old(buffer) + data[offset..]) == Prepend([r.value.value], Split(format, data[next..]))
    {
      next := Fill(data, offset, 12);
      if |buffer| < 12 {
        EmptyIsNeutral(buffer);
        return Ok(None), next;
      }
      assert Poisoned(format, old(buffer)) ==> buffer == old(buffer);
      InspectHeader(format, buffer, buffer + data[next..]);
      var inspected := Inspect(format, buffer);
      if inspected.None? {
        return Err("inner frame refused"), next;
      }
      ghost var header := buffer;
      next := Fill(data, next, inspected.value);
      InspectHeader(format, header, buffer);
      if |buffer| < inspected.value {
        EmptyIsNeutral(buffer);
        return Ok(None), next;
      }
      SplitOff(format, buffer, data[next..]);
      r := Ok(Some(ReadWhole(format, buffer).value));
      buffer := [];
    }

    /**
     * Returns the frames that the buffer and the data make up and keeps the rest, or raises
     * when they break the format. A parser that has raised raises again on any further data.
     */
    method Feed(data: ByteString) returns (r: Result<seq<Frame>, string>)
      requires format.Private?
      requires Pending(format, buffer) || Poisoned(format, buffer)
      modifies this`buffer
      ensures Pending(format, buffer) || Poisoned(format, buffer)
      ensures Pending(format, old(buffer)) ==> r.Ok? == Split(format, old(buffer) + data).Some?
      ensures Pending(format, old(buffer)) && r.Ok? ==>
        Split(format, old(buffer) + data) == Some(Parts(r.value, buffer))
      ensures Poisoned(format, old(buffer)) && data != [] ==> r.Err? && buffer == old(buffer)
    {
      var offset := 0;
      var frames: seq<Frame> := [];
      ghost var whole := Split(format, buffer + data);
      NothingToPrepend(whole);
      assert data[0..] == data;
      while offset < |data|
        invariant 0 <= offset <= |data|
        invariant Poisoned(format, old(buffer)) ==> offset == 0 && buffer == old(buffer)
        invariant Pending(format, old(buffer)) ==>
          Pending(format, buffer) && whole == Prepend(frames, Split(format, buffer + data[offset..]))
      {
        var taken, next := TakeOne(data, offset);
        match taken {
          case Err(e) =>
            return Err(e);
          case Ok(None) =>
            offset := next;
            EmptyIsNeutral(buffer);
          case Ok(Some(frame)) =>
            PrependTwice(frames, [frame], Split(format, data[next..]));
            EmptyIsNeutral(data[next..]);
            frames, offset := frames + [frame], next;
        }
      }
      EmptyIsNeutral(buffer);
      PendingSplitsToItself(format, buffer);
      EmptyIsNeutral(frames);
      return Ok(frames);
    }
  }

  /** Parser of the link stream: it buffers its whole input within a limit and empties itself before raising. */
  class LinkParser {
    const format: Format
    const limit: nat
    var buffer: ByteString

    predicate Configured()
    {
      format.Link? && 0 < format.maxPayload <= PROTOCOL_MAX_FRAME_SIZE && MaxFrame(format) <= limit
    }

    constructor (maxFrameSize: nat, limit: nat)
      requires 0 < maxFrameSize <= PROTOCOL_MAX_FRAME_SIZE && 14 + maxFrameSize <= limit
      ensures format == Link(maxFrameSize) && this.limit == limit && buffer == [] && Configured()
    {
      format := Link(maxFrameSize);
      this.limit := limit;
      buffer := [];
    }

    /** The call is the format's feeding step; whatever happens the buffer then holds less than one frame. */
    method Feed(data: ByteString) returns (r: Result<seq<Frame>, string>)
      requires Configured() && Pending(format, buffer)
      modifies this`buffer
      ensures Pending(format, buffer) && |buffer| < MaxFrame(format)
      ensures r.Ok? == Framing.Feed(format, Some(limit), old(buffer), data).Some?
      ensures r.Ok? ==> Framing.Feed(format, Some(limit), old(buffer), data) == Some(Parts(r.value, buffer))
      ensures r.Err? ==> buffer == []
    {
      if |buffer| + |data| > limit {
        buffer := [];
        return Err("receive buffer exceeds maximum size");
      }
      buffer := buffer + data;
      var frames: seq<Frame> := [];
      ghost var whole := Split(format, buffer);
      NothingToPrepend(whole);
      while |buffer| >= 14
        invariant whole == Prepend(frames, Split(format, buffer))
        decreases |buffer|
      {
        var inspected := Inspect(format, buffer);
        if inspected.None? {
          buffer := [];
          return Err("header refused");
        }
        var total := inspected.value;
        if |buffer| < total {
          break;
        }
        InspectHeader(format, buffer[..total], buffer);
        var read := ReadWhole(format, buffer[..total]);
        if read.None? {
          buffer := [];
          return Err("ACK payload must be empty");
        }
        PrependTwice(frames, [read.value], Split(format, buffer[total..]));
        frames := frames + [read.value];
        buffer := buffer[total..];
      }
      PendingSplitsToItself(format, buffer);
      EmptyIsNeutral(frames);
      return Ok(frames);
    }
  }

  function Min(a: int, b: int): int
  {
    if a <= b then a else b
  }

  lemma NothingToPrepend(r: Option<Parts>)
    ensures Prepend([], r) == r
  {
    if r.Some? {
      EmptyIsNeutral(r.value.frames);
    }
  }

  /** Moving bytes from the input to the buffer leaves their concatenation alone. */
  lemma Slid(buffer: ByteString, data: ByteString, offset: nat, take: nat)
    requires offset + take <= |data|
    ensures buffer + data[offset..] == (buffer + data[offset..offset + take]) + data[offset + take..]
  {
    Associates(buffer, data[offset..offset + take], data[offset + take..]);
    assert data[offset..] == data[offset..offset + take] + data[offset + take..];
  }

  /** A complete frame at the front of a stream comes off it. */
  lemma SplitOff(f: Format, bytes: ByteString, tail: ByteString)
    requires |bytes| >= HeaderSize(f) && Inspect(f, bytes) == Some(|bytes|) && ReadWhole(f, bytes).Some?
    ensures Split(f, bytes + tail) == Prepend([ReadWhole(f, bytes).value], Split(f, tail))
  {
    ReadIsEncoded(f, bytes);
    SplitFrame(f, ReadWhole(f, bytes).value, tail);
  }
}
