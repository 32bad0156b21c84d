/**
 * The two frame formats and what it means to split a byte stream into frames,
 * independently of how a parser buffers it.
 */
module Framing {
  import opened Outcomes
  import opened Bytes
  import opened Collections

  const MAX_METADATA_BYTES: nat := 4 * 1024
  const MAX_RELIABLE_PAYLOAD_BYTES: nat := 1024 * 1024
  const PROTOCOL_MAX_FRAME_SIZE: nat := 256 * 1024

  /** The four magic bytes of the private stream, "QP3F". */
  const STREAM_MAGIC: ByteString := [0x51, 0x50, 0x33, 0x46]
  const VERSION: Byte := 1
  const ACK: Byte := 2

  /** A format with the payload limit its parser was built with. */
  datatype Format = Private(maxPayload: nat) | Link(maxPayload: nat)

  datatype Frame =
    | Inner(kind: Byte, metadata: ByteString, payload: ByteString)
    | Outer(kind: Byte, id: nat, payload: ByteString)

  function HeaderSize(f: Format): nat
  {
    if f.Private? then 12 else 14
  }

  /** Largest frame a parser of this format lets through. */
  function MaxFrame(f: Format): nat
  {
    if f.Private? then 12 + MAX_METADATA_BYTES + f.maxPayload else 14 + f.maxPayload
  }

  /** The frames that both sides of a format allow. */
  predicate Allowed(f: Format, frame: Frame)
  {
    match f
    case Private(max) =>
      frame.Inner? && |frame.metadata| <= MAX_METADATA_BYTES && |frame.payload| <= max && |frame.payload| < Pow256(4)
    case Link(max) =>
      && frame.Outer? && 1 <= frame.kind <= 3 && frame.id < Pow256(8)
      && |frame.payload| <= max && |frame.payload| < Pow256(4) && (frame.kind == ACK ==> frame.payload == [])
  }

  function Encode(frame: Frame): ByteString
  {
    match frame
    case Inner(kind, metadata, payload) =>
      STREAM_MAGIC + [VERSION, kind] + BigEndian(|metadata|, 2) + BigEndian(|payload|, 4) + metadata + payload
    case Outer(kind, id, payload) =>
      [VERSION, kind] + BigEndian(id, 8) + BigEndian(|payload|, 4) + payload
  }

  function EncodeAll(frames: seq<Frame>): ByteString
  {
    if frames == [] then [] else Encode(frames[0]) + EncodeAll(frames[1..])
  }

  /** The length of the whole frame a header announces, or nothing if the header is refused. */
  function Inspect(f: Format, header: ByteString): Option<nat>
    requires |header| >= HeaderSize(f)
  {
    match f
    case Private(max) =>
      var metadata, payload := FromBigEndian(header[6..8]), FromBigEndian(header[8..12]);
      if header[..4] != STREAM_MAGIC || header[4] != VERSION then None
      else if metadata > MAX_METADATA_BYTES || payload > max then None
      else Some(12 + metadata + payload)
    case Link(max) =>
      var payload := FromBigEndian(header[10..14]);
      if header[0] != VERSION || !(1 <= header[1] <= 3) || payload > max then None
      else Some(14 + payload)
  }

  /** The frame in a byte string of the announced length; an acknowledgement must not carry a payload. */
  function ReadWhole(f: Format, bytes: ByteString): Option<Frame>
    requires |bytes| >= HeaderSize(f) && Inspect(f, bytes) == Some(|bytes|)
  {
    match f
    case Private(_) =>
      var start := 12 + FromBigEndian(bytes[6..8]);
      Some(Inner(bytes[5], bytes[12..start], bytes[start..]))
    case Link(_) =>
      if bytes[1] == ACK && |bytes| > 14 then None
      else Some(Outer(bytes[1], FromBigEndian(bytes[2..10]), bytes[14..]))
  }

  datatype Parts = Parts(frames: seq<Frame>, rest: ByteString)

  function Prepend(frames: seq<Frame>, r: Option<Parts>): Option<Parts>
  {
    match r
    case None => None
    case Some(parts) => Some(Parts(frames + parts.frames, parts.rest))
  }

  /** Inspecting a longer string looks only at the header. */
  lemma InspectHeader(f: Format, a: ByteString, b: ByteString)
    requires HeaderSize(f) <= |a| <= |b| && a[..HeaderSize(f)] == b[..HeaderSize(f)]
    ensures Inspect(f, a) == Inspect(f, b)
  {
    var h := a[..HeaderSize(f)];
    if f.Private? {
      assert a[..4] == h[..4] == b[..4] && a[4] == h[4] == b[4];
      assert a[6..8] == h[6..8] == b[6..8] && a[8..12] == h[8..12] == b[8..12];
    } else {
      assert a[0] == h[0] == b[0] && a[1] == h[1] == b[1] && a[10..14] == h[10..14] == b[10..14];
    }
  }

  /** All frames of a stream, and the incomplete rest; nothing if the stream breaks the format. */
  function Split(f: Format, bytes: ByteString): Option<Parts>
    decreases |bytes|
  {
    if |bytes| < HeaderSize(f) then Some(Parts([], bytes))
    else
      match Inspect(f, bytes)
      case None => None
      case Some(total) =>
        if |bytes| < total then Some(Parts([], bytes))
        else
          InspectHeader(f, bytes[..total], bytes);
          match ReadWhole(f, bytes[..total])
          case None => None
          case Some(frame) => Prepend([frame], Split(f, bytes[total..]))
  }

  /** Less than one frame, and nothing against it so far. */
  predicate Pending(f: Format, bytes: ByteString)
  {
    |bytes| < HeaderSize(f) || (Inspect(f, bytes).Some? && |bytes| < Inspect(f, bytes).value)
  }

  lemma PendingSplitsToItself(f: Format, bytes: ByteString)
    ensures Pending(f, bytes) <==> Split(f, bytes) == Some(Parts([], bytes))
  {
    if |bytes| >= HeaderSize(f) && Inspect(f, bytes).Some? && |bytes| >= Inspect(f, bytes).value {
      InspectHeader(f, bytes[..Inspect(f, bytes).value], bytes);
    }
  }

  lemma PendingIsBounded(f: Format, bytes: ByteString)
    requires Pending(f, bytes)
    ensures |bytes| < MaxFrame(f)
  {
  }

  // ----------------------------------------------------------------- one frame

  lemma EncodedFields(frame: Frame)
    ensures frame.Inner? ==>
      var e := Encode(frame);
      && |e| == 12 + |frame.metadata| + |frame.payload|
      && e[..4] == STREAM_MAGIC && e[4] == VERSION && e[5] == frame.kind
      && e[6..8] == BigEndian(|frame.metadata|, 2) && e[8..12] == BigEndian(|frame.payload|, 4)
      && e[12..12 + |frame.metadata|] == frame.metadata && e[12 + |frame.metadata|..] == frame.payload
    ensures frame.Outer? ==>
      var e := Encode(frame);
      && |e| == 14 + |frame.payload| && e[0] == VERSION && e[1] == frame.kind
      && e[2..10] == BigEndian(frame.id, 8) && e[10..14] == BigEndian(|frame.payload|, 4)
      && e[14..] == frame.payload
  {
  }

  lemma EncodedIsRead(f: Format, frame: Frame)
    requires Allowed(f, frame)
    ensures |Encode(frame)| >= HeaderSize(f) && Inspect(f, Encode(frame)) == Some(|Encode(frame)|)
    ensures ReadWhole(f, Encode(frame)) == Some(frame)
  {
    EncodedFields(frame);
    match frame
    case Inner(_, metadata, payload) =>
      assert Pow256(2) == 65536;
      BigEndianReadsBack(|metadata|, 2);
      BigEndianReadsBack(|payload|, 4);
    case Outer(_, id, payload) =>
      BigEndianReadsBack(id, 8);
      BigEndianReadsBack(|payload|, 4);
  }

  lemma PrivateReadIsEncoded(f: Format, bytes: ByteString)
    requires f.Private? && |bytes| >= 12 && Inspect(f, bytes) == Some(|bytes|)
    ensures var frame := ReadWhole(f, bytes).value; Encode(frame) == bytes && Allowed(f, frame)
  {
    var frame := ReadWhole(f, bytes).value;
    BigEndianIsOnto(bytes[6..8]);
    BigEndianIsOnto(bytes[8..12]);
    assert bytes == bytes[..4] + [bytes[4], bytes[5]] + bytes[6..8] + bytes[8..12] + frame.metadata + frame.payload;
  }

  lemma LinkReadIsEncoded(f: Format, bytes: ByteString)
    requires f.Link? && |bytes| >= 14 && Inspect(f, bytes) == Some(|bytes|) && ReadWhole(f, bytes).Some?
    ensures var frame := ReadWhole(f, bytes).value; Encode(frame) == bytes && Allowed(f, frame)
  {
    var frame := ReadWhole(f, bytes).value;
    BigEndianIsOnto(bytes[2..10]);
    BigEndianIsOnto(bytes[10..14]);
    assert bytes == [bytes[0], bytes[1]] + bytes[2..10] + bytes[10..14] + frame.payload;
  }

  /** A parser returns only frames of the format, and only the bytes that encode them. */
  lemma ReadIsEncoded(f: Format, bytes: ByteString)
    requires |bytes| >= HeaderSize(f) && Inspect(f, bytes) == Some(|bytes|) && ReadWhole(f, bytes).Some?
    ensures var frame := ReadWhole(f, bytes).value; Encode(frame) == bytes && Allowed(f, frame)
  {
    if f.Private? {
      PrivateReadIsEncoded(f, bytes);
    } else {
      LinkReadIsEncoded(f, bytes);
    }
  }

  // -------------------------------------------------------------------- streams

  lemma EmptyIsNeutral<T>(a: seq<T>)
    ensures a + [] == a && [] + a == a
  {
  }

  lemma HeadFirst<T>(a: seq<T>, b: seq<T>)
    requires a != []
    ensures a + b == [a[0]] + (a[1..] + b)
  {
  }

  lemma Cut<T>(a: seq<T>, k: nat)
    requires k <= |a|
    ensures a == a[..k] + a[k..]
  {
  }

  /** Joining two results adds up the frames. */
  lemma PrependTwice(a: seq<Frame>, b: seq<Frame>, r: Option<Parts>)
    ensures Prepend(a, Prepend(b, r)) == Prepend(a + b, r)
  {
    if r.Some? {
      Associates(a, b, r.value.frames);
    }
  }

  lemma EncodeOneMore(frame: Frame, frames: seq<Frame>)
    ensures EncodeAll([frame] + frames) == Encode(frame) + EncodeAll(frames)
  {
    assert ([frame] + frames)[1..] == frames;
  }

  predicate AllAllowed(f: Format, frames: seq<Frame>)
  {
    forall i :: 0 <= i < |frames| ==> Allowed(f, frames[i])
  }

  lemma SplitFrame(f: Format, frame: Frame, tail: ByteString)
    requires Allowed(f, frame)
    ensures Split(f, Encode(frame) + tail) == Prepend([frame], Split(f, tail))
  {
    var all := Encode(frame) + tail;
    EncodedIsRead(f, frame);
    InspectHeader(f, Encode(frame), all);
    assert all[..|Encode(frame)|] == Encode(frame) && all[|Encode(frame)|..] == tail;
  }

  lemma {:induction false} SplitStream(f: Format, frames: seq<Frame>, tail: ByteString)
    requires AllAllowed(f, frames)
    ensures Split(f, EncodeAll(frames) + tail) == Prepend(frames, Split(f, tail))
    decreases |frames|
  {
    if frames == [] {
      EmptyIsNeutral(tail);
      if Split(f, tail).Some? {
        EmptyIsNeutral(Split(f, tail).value.frames);
      }
    } else {
      var more := EncodeAll(frames[1..]);
      SplitStream(f, frames[1..], tail);
      SplitFrame(f, frames[0], more + tail);
      Associates(Encode(frames[0]), more, tail);
      PrependTwice([frames[0]], frames[1..], Split(f, tail));
      Cut(frames, 1);
      assert frames[..1] == [frames[0]];
    }
  }

  /** A successful split loses and invents nothing. */
  lemma {:induction false} SplitSound(f: Format, bytes: ByteString)
    requires Split(f, bytes).Some?
    ensures bytes == EncodeAll(Split(f, bytes).value.frames) + Split(f, bytes).value.rest
    ensures AllAllowed(f, Split(f, bytes).value.frames) && Pending(f, Split(f, bytes).value.rest)
    decreases |bytes|
  {
    if Pending(f, bytes) {
      PendingSplitsToItself(f, bytes);
      EmptyIsNeutral(bytes);
    } else {
      var total := Inspect(f, bytes).value;
      InspectHeader(f, bytes[..total], bytes);
      var frame := ReadWhole(f, bytes[..total]).value;
      ReadIsEncoded(f, bytes[..total]);
      SplitSound(f, bytes[total..]);
      var inner := Split(f, bytes[total..]).value;
      EncodeOneMore(frame, inner.frames);
      Cut(bytes, total);
      Associates(Encode(frame), EncodeAll(inner.frames), inner.rest);
    }
  }

  /** What was split off stays split off when more bytes come. */
  lemma SplitMore(f: Format, a: ByteString, b: ByteString)
    requires Split(f, a).Some?
    ensures Split(f, a + b) == Prepend(Split(f, a).value.frames, Split(f, Split(f, a).value.rest + b))
  {
    var parts := Split(f, a).value;
    SplitSound(f, a);
    SplitStream(f, parts.frames, parts.rest + b);
    Associates(EncodeAll(parts.frames), parts.rest, b);
  }

  /** A stream that breaks the format stays broken when more bytes come. */
  lemma {:induction false} SplitStaysBroken(f: Format, a: ByteString, b: ByteString)
    requires Split(f, a).None?
    ensures Split(f, a + b).None?
    decreases |a|
  {
    InspectHeader(f, a, a + b);
    if Inspect(f, a).Some? {
      var total := Inspect(f, a).value;
      InspectHeader(f, a[..total], a);
      assert (a + b)[..total] == a[..total];
      if ReadWhole(f, a[..total]).Some? {
        SplitStaysBroken(f, a[total..], b);
        assert (a + b)[total..] == a[total..] + b;
      }
    }
  }

  // --------------------------------------------------------------------- feeding

  /** One call of a parser; the link parser first bounds what it is asked to hold. */
  function Feed(f: Format, limit: Option<nat>, buffer: ByteString, data: ByteString): Option<Parts>
  {
    if limit.Some? && |buffer| + |data| > limit.value then None else Split(f, buffer + data)
  }

  function FeedAll(f: Format, limit: Option<nat>, buffer: ByteString, chunks: seq<ByteString>): Option<Parts>
    decreases |chunks|
  {
    if chunks == [] then Some(Parts([], buffer))
    else
      match Feed(f, limit, buffer, chunks[0])
      case None => None
      case Some(parts) => Prepend(parts.frames, FeedAll(f, limit, parts.rest, chunks[1..]))
  }

  function Joined(chunks: seq<ByteString>): ByteString
  {
    if chunks == [] then [] else chunks[0] + Joined(chunks[1..])
  }

  /** No call is refused for the size of what it brings. */
  predicate Accepts(f: Format, limit: Option<nat>, buffer: ByteString, chunks: seq<ByteString>)
    decreases |chunks|
  {
    chunks == [] ||
    (&& (limit.Some? ==> |buffer| + |chunks[0]| <= limit.value)
     && (Split(f, buffer + chunks[0]).Some? ==>
           Accepts(f, limit, Split(f, buffer + chunks[0]).value.rest, chunks[1..])))
  }

  /** However a stream is cut, feeding it piece by piece has the outcome of splitting it whole, failures included. */
  lemma {:induction false} CuttingIsIrrelevant(f: Format, limit: Option<nat>, buffer: ByteString,
                                               chunks: seq<ByteString>)
    requires Pending(f, buffer) && Accepts(f, limit, buffer, chunks)
    ensures FeedAll(f, limit, buffer, chunks) == Split(f, buffer + Joined(chunks))
    decreases |chunks|
  {
    if chunks == [] {
      PendingSplitsToItself(f, buffer);
      assert buffer + Joined(chunks) == buffer;
    } else {
      var next := buffer + chunks[0];
      assert buffer + Joined(chunks) == next + Joined(chunks[1..]);
      if Split(f, next).Some? {
        SplitMore(f, next, Joined(chunks[1..]));
        SplitSound(f, next);
        CuttingIsIrrelevant(f, limit, Split(f, next).value.rest, chunks[1..]);
      } else {
        SplitStaysBroken(f, next, Joined(chunks[1..]));
      }
    }
  }

  /** Frames that are encoded, concatenated and fed in any accepted pieces come out once each and in order. */
  lemma RoundTrip(f: Format, limit: Option<nat>, frames: seq<Frame>, chunks: seq<ByteString>)
    requires AllAllowed(f, frames) && Joined(chunks) == EncodeAll(frames) && Accepts(f, limit, [], chunks)
    ensures FeedAll(f, limit, [], chunks) == Some(Parts(frames, []))
  {
    CuttingIsIrrelevant(f, limit, [], chunks);
    SplitStream(f, frames, []);
    assert [] + Joined(chunks) == EncodeAll(frames) + [];
    assert frames + [] == frames;
  }

  /** Two calls do what one call with both inputs does, whenever that one succeeds. */
  lemma FeedIsAdditive(f: Format, limit: Option<nat>, buffer: ByteString, a: ByteString, b: ByteString)
    requires Feed(f, limit, buffer, a + b).Some?
    ensures Feed(f, limit, buffer, a).Some?
    ensures
      var first := Feed(f, limit, buffer, a).value;
      Feed(f, limit, buffer, a + b) == Prepend(first.frames, Feed(f, limit, first.rest, b))
  {
    assert buffer + (a + b) == (buffer + a) + b;
    if Split(f, buffer + a).None? {
      SplitStaysBroken(f, buffer + a, b);
    } else {
      SplitMore(f, buffer + a, b);
      SplitSound(f, buffer + a);
    }
  }

  /** Pieces that leave room for an unfinished frame are never refused. */
  lemma {:induction false} SmallPiecesAccepted(f: Format, limit: nat, buffer: ByteString, chunks: seq<ByteString>)
    requires Pending(f, buffer) && MaxFrame(f) <= limit
    requires forall i :: 0 <= i < |chunks| ==> |chunks[i]| <= limit - MaxFrame(f) + 1
    ensures Accepts(f, Some(limit), buffer, chunks)
    decreases |chunks|
  {
    if chunks != [] {
      PendingIsBounded(f, buffer);
      var next := buffer + chunks[0];
      if Split(f, next).Some? {
        SplitSound(f, next);
        SmallPiecesAccepted(f, limit, Split(f, next).value.rest, chunks[1..]);
      }
    }
  }

  lemma {:induction false} EncodeAllConcat(a: seq<Frame>, b: seq<Frame>)
    ensures EncodeAll(a + b) == EncodeAll(a) + EncodeAll(b)
    decreases |a|
  {
    if a == [] {
      EmptyIsNeutral(b);
      EmptyIsNeutral(EncodeAll(b));
    } else {
      EncodeAllConcat(a[1..], b);
      HeadFirst(a, b);
      EncodeOneMore(a[0], a[1..] + b);
      Associates(Encode(a[0]), EncodeAll(a[1..]), EncodeAll(b));
    }
  }

  lemma CancelPrefix(a: ByteString, b: ByteString, c: ByteString)
    requires a + b == a + c
    ensures b == c
  {
    assert (a + b)[|a|..] == b && (a + c)[|a|..] == c;
  }

  /** The frames split off a prefix of a valid stream are the first frames of the stream. */
  lemma SplitPrefix(f: Format, frames: seq<Frame>, seen: ByteString, unseen: ByteString)
    requires AllAllowed(f, frames) && seen + unseen == EncodeAll(frames)
    ensures Split(f, seen).Some? && Split(f, seen).value.frames <= frames
    ensures Split(f, seen).value.rest + unseen == EncodeAll(frames[|Split(f, seen).value.frames|..])
  {
    SplitStream(f, frames, []);
    EmptyIsNeutral(EncodeAll(frames));
    EmptyIsNeutral(frames);
    if Split(f, seen).None? {
      SplitStaysBroken(f, seen, unseen);
    }
    var parts := Split(f, seen).value;
    SplitMore(f, seen, unseen);
    SplitSound(f, seen);
    var k := |parts.frames|;
    assert parts.frames == frames[..k];
    EncodeAllConcat(frames[..k], frames[k..]);
    Cut(frames, k);
    Associates(EncodeAll(parts.frames), parts.rest, unseen);
    CancelPrefix(EncodeAll(parts.frames), parts.rest + unseen, EncodeAll(frames[k..]));
  }

  /**
   * After any prefix of a valid stream, a parser has returned exactly the frames that the
   * prefix completes, and it retains a proper prefix of the next one.
   */
  lemma RetainsPrefixOfNext(f: Format, frames: seq<Frame>, seen: ByteString, unseen: ByteString)
    requires AllAllowed(f, frames) && seen + unseen == EncodeAll(frames)
    ensures Split(f, seen).Some? && Split(f, seen).value.frames <= frames
    ensures
      var parts := Split(f, seen).value;
      var k := |parts.frames|;
      (k == |frames| ==> parts.rest == []) && (k < |frames| ==> parts.rest < Encode(frames[k]))
  {
    SplitPrefix(f, frames, seen, unseen);
    SplitSound(f, seen);
    var parts := Split(f, seen).value;
    var k := |parts.frames|;
    if k < |frames| {
      assert frames[k..][1..] == frames[k + 1..];
      RestIsProperPrefix(f, frames[k], parts.rest, unseen, EncodeAll(frames[k + 1..]));
    } else {
      assert frames[k..] == [];
      assert |parts.rest + unseen| == 0;
    }
  }

  lemma RestIsProperPrefix(f: Format, frame: Frame, rest: ByteString, unseen: ByteString, tail: ByteString)
    requires Allowed(f, frame) && Pending(f, rest) && rest + unseen == Encode(frame) + tail
    ensures rest < Encode(frame)
  {
    EncodedIsRead(f, frame);
    var e := Encode(frame);
    if |rest| >= HeaderSize(f) {
      var h := HeaderSize(f);
      assert rest[..h] == (rest + unseen)[..h] == (e + tail)[..h] == e[..h];
      if |rest| <= |e| {
        InspectHeader(f, rest, e);
      } else {
        InspectHeader(f, e, rest);
      }
    }
    assert rest == (rest + unseen)[..|rest|] == (e + tail)[..|rest|] == e[..|rest|];
  }
}
