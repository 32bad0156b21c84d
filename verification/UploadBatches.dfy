/** The binary upload batch "QFB1", its encoding, and the two parsers that read it. */
module UploadBatches {
  import opened Outcomes
  import opened Bytes
  import opened Slots

  const MAGIC: ByteString := [0x51, 0x46, 0x42, 0x31]

  datatype Record = Record(index: nat, data: ByteString)

  datatype Batch = Batch(id: ByteString, records: seq<Record>)

  predicate RecordFits(r: Record)
  {
    r.index < Pow256(4) && OVERHEAD <= |r.data| <= STRIDE
  }

  predicate BatchFits(b: Batch)
  {
    |b.id| == 16 && 1 <= |b.records| <= BATCH_CHUNKS && forall i :: 0 <= i < |b.records| ==> RecordFits(b.records[i])
  }

  // -------------------------------------------------------------------- encoding

  function EncodeRecord(r: Record): ByteString
  {
    BigEndian(r.index, 4) + BigEndian(|r.data|, 4) + r.data
  }

  function EncodeRecords(records: seq<Record>): ByteString
  {
    if records == [] then [] else EncodeRecord(records[0]) + EncodeRecords(records[1..])
  }

  function EncodeBatch(b: Batch): ByteString
  {
    MAGIC + b.id + BigEndian(|b.records|, 2) + EncodeRecords(b.records)
  }

  // -------------------------------------------------------------------- decoding

  /** The record at the front of a byte string, if a whole acceptable one is there. */
  function FirstRecord(bytes: ByteString): Option<Record>
  {
    if |bytes| < 8 then None
    else
      var size := FromBigEndian(bytes[4..8]);
      if !(OVERHEAD <= size <= STRIDE) || 8 + size > |bytes| then None
      else Some(Record(FromBigEndian(bytes[..4]), bytes[8..8 + size]))
  }

  function Ahead(records: seq<Record>, more: Option<seq<Record>>): Option<seq<Record>>
  {
    match more
    case None => None
    case Some(rest) => Some(records + rest)
  }

  /** Exactly `count` records and nothing after them. */
  function ReadRecords(bytes: ByteString, count: nat): Option<seq<Record>>
    decreases count
  {
    if count == 0 then (if bytes == [] then Some([]) else None)
    else
      match FirstRecord(bytes)
      case None => None
      case Some(r) => Ahead([r], ReadRecords(bytes[8 + |r.data|..], count - 1))
  }

  function Decoded(payload: ByteString): Option<Batch>
  {
    if |payload| < 22 || payload[..4] != MAGIC then None
    else
      var count := FromBigEndian(payload[20..22]);
      if !(1 <= count <= BATCH_CHUNKS) then None
      else
        match ReadRecords(payload[22..], count)
        case None => None
        case Some(records) => Some(Batch(payload[4..20], records))
  }

  predicate NoRepeatedIndex(records: seq<Record>)
  {
    forall i, j :: 0 <= i < j < |records| ==> records[i].index != records[j].index
  }

  // ----------------------------------------------------------------- round trip

  lemma FirstOfEncoded(r: Record, tail: ByteString)
    requires RecordFits(r)
    ensures FirstRecord(EncodeRecord(r) + tail) == Some(r)
    ensures (EncodeRecord(r) + tail)[8 + |r.data|..] == tail
  {
    FieldRanges();
    var all := EncodeRecord(r) + tail;
    assert all[..4] == BigEndian(r.index, 4) && all[4..8] == BigEndian(|r.data|, 4) && all[8..8 + |r.data|] == r.data;
    BigEndianReadsBack(r.index, 4);
    BigEndianReadsBack(|r.data|, 4);
  }

  lemma EncodedFirst(bytes: ByteString)
    requires FirstRecord(bytes).Some?
    ensures
      var r := FirstRecord(bytes).value;
      RecordFits(r) && 8 + |r.data| <= |bytes| && bytes == EncodeRecord(r) + bytes[8 + |r.data|..]
  {
    var r := FirstRecord(bytes).value;
    BigEndianIsOnto(bytes[..4]);
    BigEndianIsOnto(bytes[4..8]);
    assert bytes == bytes[..4] + bytes[4..8] + bytes[8..8 + |r.data|] + bytes[8 + |r.data|..];
  }

  lemma {:induction false} RecordsForward(bytes: ByteString, records: seq<Record>)
    requires ReadRecords(bytes, |records|) == Some(records)
    ensures bytes == EncodeRecords(records) && forall i :: 0 <= i < |records| ==> RecordFits(records[i])
    decreases |records|
  {
    if records != [] {
      var r := FirstRecord(bytes).value;
      EncodedFirst(bytes);
      var rest := bytes[8 + |r.data|..];
      var more := ReadRecords(rest, |records| - 1).value;
      assert records == [r] + more;
      assert more == records[1..];
      RecordsForward(rest, records[1..]);
    }
  }

  lemma {:induction false} RecordsBackward(records: seq<Record>)
    ensures (forall i :: 0 <= i < |records| ==> RecordFits(records[i])) ==>
      ReadRecords(EncodeRecords(records), |records|) == Some(records)
    decreases |records|
  {
    if records != [] && forall i :: 0 <= i < |records| ==> RecordFits(records[i]) {
      FirstOfEncoded(records[0], EncodeRecords(records[1..]));
      RecordsBackward(records[1..]);
      assert records == [records[0]] + records[1..];
    }
  }

  /** A payload decodes to a batch exactly when the batch is within the limits and the payload is its encoding. */
  lemma DecodedExactly(payload: ByteString, b: Batch)
    ensures Decoded(payload) == Some(b) <==> BatchFits(b) && payload == EncodeBatch(b)
  {
    if Decoded(payload) == Some(b) {
      DecodedIsEncoded(payload, b);
    }
    if BatchFits(b) && payload == EncodeBatch(b) {
      EncodedIsDecoded(b);
    }
  }

  lemma {:induction false} ReadCount(bytes: ByteString, count: nat)
    ensures ReadRecords(bytes, count).Some? ==> |ReadRecords(bytes, count).value| == count
    decreases count
  {
    if count > 0 && FirstRecord(bytes).Some? {
      ReadCount(bytes[8 + |FirstRecord(bytes).value.data|..], count - 1);
    }
  }

  lemma DecodedIsEncoded(payload: ByteString, b: Batch)
    requires Decoded(payload) == Some(b)
    ensures BatchFits(b) && payload == EncodeBatch(b)
  {
    ReadCount(payload[22..], FromBigEndian(payload[20..22]));
    RecordsForward(payload[22..], b.records);
    BigEndianIsOnto(payload[20..22]);
    CutHeader(payload);
  }

  lemma CutHeader(payload: ByteString)
    requires |payload| >= 22
    ensures payload == payload[..4] + payload[4..20] + payload[20..22] + payload[22..]
  {
  }

  lemma EncodedIsDecoded(b: Batch)
    requires BatchFits(b)
    ensures Decoded(EncodeBatch(b)) == Some(b)
  {
    FieldRanges();
    var payload := EncodeBatch(b);
    assert payload[..4] == MAGIC && payload[4..20] == b.id;
    assert payload[20..22] == BigEndian(|b.records|, 2) && payload[22..] == EncodeRecords(b.records);
    BigEndianReadsBack(|b.records|, 2);
    RecordsBackward(b.records);
  }

  lemma {:induction false} RecordsAreShort(bytes: ByteString, count: nat)
    requires ReadRecords(bytes, count).Some?
    ensures |bytes| <= count * (CHUNK_SIZE + 36)
    decreases count
  {
    if count > 0 {
      var r := FirstRecord(bytes).value;
      RecordsAreShort(bytes[8 + |r.data|..], count - 1);
    }
  }

  /** An upper limit on the whole payload refuses nothing that the checks of the records accept. */
  lemma LengthCheckIsImplied(payload: ByteString)
    requires Decoded(payload).Some?
    ensures 22 <= |payload| <= 22 + BATCH_CHUNKS * (CHUNK_SIZE + 36)
  {
    RecordsAreShort(payload[22..], FromBigEndian(payload[20..22]));
  }

  // ----------------------------------------------------------------- the parsers

  lemma AheadTwice(a: seq<Record>, b: seq<Record>, more: Option<seq<Record>>)
    ensures Ahead(a, Ahead(b, more)) == Ahead(a + b, more)
  {
    if more.Some? {
      assert a + (b + more.value) == (a + b) + more.value;
    }
  }

  /** The loop's position after one record. */
  lemma OneRecordOn(payload: ByteString, offset: nat, count: nat, done: seq<Record>)
    requires offset <= |payload| && count > 0
    ensures
      var first := FirstRecord(payload[offset..]);
      if first.None? then ReadRecords(payload[offset..], count).None?
      else
        && offset + 8 + |first.value.data| <= |payload|
        && Ahead(done, ReadRecords(payload[offset..], count)) ==
           Ahead(done + [first.value], ReadRecords(payload[offset + 8 + |first.value.data|..], count - 1))
  {
    var first := FirstRecord(payload[offset..]);
    if first.Some? {
      var size := 8 + |first.value.data|;
      assert payload[offset..][size..] == payload[offset + size..];
      AheadTwice(done, [first.value], ReadRecords(payload[offset + size..], count - 1));
    }
  }

  /** What the loop reads at an offset is the first record there. */
  lemma FieldsAt(payload: ByteString, offset: nat)
    requires offset + 8 <= |payload|
    ensures
      var index, size := FromBigEndian(payload[offset..offset + 4]), FromBigEndian(payload[offset + 4..offset + 8]);
      FirstRecord(payload[offset..]) ==
        if OVERHEAD <= size <= STRIDE && offset + 8 + size <= |payload|
        then Some(Record(index, payload[offset + 8..offset + 8 + size])) else None
  {
    var bytes := payload[offset..];
    assert bytes[..4] == payload[offset..offset + 4] && bytes[4..8] == payload[offset + 4..offset + 8];
    var size := FromBigEndian(bytes[4..8]);
    if 8 + size <= |bytes| {
      assert bytes[8..8 + size] == payload[offset + 8..offset + 8 + size];
    }
  }

  /** Reads one record at an offset of the payload. */
  method ReadAt(payload: ByteString, start: nat) returns (r: Option<Record>, offset: nat)
    requires start <= |payload|
    ensures r == FirstRecord(payload[start..])
    ensures r.Some? ==> offset == start + 8 + |r.value.data| <= |payload|
  {
    offset := start;
    if offset + 8 > |payload| {
      return None, offset;
    }
    FieldsAt(payload, offset);
    var index, size := FromBigEndian(payload[offset..offset + 4]), FromBigEndian(payload[offset + 4..offset + 8]);
    offset := offset + 8;
    if !(OVERHEAD <= size <= STRIDE) || offset + size > |payload| {
      return None, offset;
    }
    return Some(Record(index, payload[offset..offset + size])), offset + size;
  }

  /** The backend's parser: an offset into the payload, an upper limit on its length, and repeated indices allowed. */
  method DecodeUploadBatch(payload: ByteString) returns (r: Option<Batch>)
    ensures r == Decoded(payload)
  {
    if |payload| < 22 || |payload| > 22 + BATCH_CHUNKS * (CHUNK_SIZE + 36) || payload[..4] != MAGIC {
      if Decoded(payload).Some? {
        LengthCheckIsImplied(payload);
      }
      return None;
    }
    var count := FromBigEndian(payload[20..22]);
    if !(1 <= count <= BATCH_CHUNKS) {
      return None;
    }
    var records := ReadAll(payload, count);
    if records.None? {
      return None;
    }
    return Some(Batch(payload[4..20], records.value));
  }

  /** The backend's loop over the records behind the header. */
  method ReadAll(payload: ByteString, count: nat) returns (r: Option<seq<Record>>)
    requires |payload| >= 22
    ensures r == ReadRecords(payload[22..], count)
  {
    var chunks: seq<Record> := [];
    var offset := 22;
    NothingBefore(ReadRecords(payload[22..], count));
    for done := 0 to count
      invariant 22 <= offset <= |payload|
      invariant ReadRecords(payload[22..], count) == Ahead(chunks, ReadRecords(payload[offset..], count - done))
    {
      OneRecordOn(payload, offset, count - done, chunks);
      var record, next := ReadAt(payload, offset);
      if record.None? {
        return None;
      }
      chunks, offset := chunks + [record.value], next;
    }
    if offset != |payload| {
      return None;
    }
    assert chunks + [] == chunks;
    return Some(chunks);
  }

  lemma NothingBefore(more: Option<seq<Record>>)
    ensures Ahead([], more) == more
  {
    if more.Some? {
      assert [] + more.value == more.value;
    }
  }

  /** Cuts one record off the front of the input. */
  method TakeRecord(data: ByteString) returns (first: Option<Record>, rest: ByteString)
    ensures first == FirstRecord(data)
    ensures first.Some? ==> 8 + |first.value.data| <= |data| && rest == data[8 + |first.value.data|..]
  {
    if |data| < 8 {
      return None, data;
    }
    var index, length := FromBigEndian(data[..4]), FromBigEndian(data[4..8]);
    rest := data[8..];
    if length < OVERHEAD || length > STRIDE || length > |rest| {
      return None, rest;
    }
    assert rest[..length] == data[8..8 + length] && rest[length..] == data[8 + length..];
    return Some(Record(index, rest[..length])), rest[length..];
  }

  datatype ParseError = InvalidRequest | InvalidChunk

  /**
   * The native parser's view of the records: a record too short to have a header, or bytes left over,
   * against a bad or repeated one.
   */
  function NativeRecords(bytes: ByteString, count: nat, seen: set<nat>): Result<seq<Record>, ParseError>
    decreases count
  {
    if count == 0 then (if bytes == [] then Ok([]) else Err(InvalidRequest))
    else if |bytes| < 8 then Err(InvalidRequest)
    else
      match FirstRecord(bytes)
      case None => Err(InvalidChunk)
      case Some(r) =>
        if r.index in seen then Err(InvalidChunk)
        else AfterFirst([r], NativeRecords(bytes[8 + |r.data|..], count - 1, seen + {r.index}))
  }

  function AfterFirst(records: seq<Record>, more: Result<seq<Record>, ParseError>): Result<seq<Record>, ParseError>
  {
    match more
    case Err(e) => Err(e)
    case Ok(rest) => Ok(records + rest)
  }

  function Native(payload: ByteString): Result<Batch, ParseError>
  {
    if |payload| < 22 || payload[..4] != MAGIC then Err(InvalidRequest)
    else
      var count := FromBigEndian(payload[20..22]);
      if !(1 <= count <= BATCH_CHUNKS) then Err(InvalidRequest)
      else
        match NativeRecords(payload[22..], count, {})
        case Err(e) => Err(e)
        case Ok(records) => Ok(Batch(payload[4..20], records))
  }

  /** No index is named twice or was seen before. */
  predicate FreshIndices(records: seq<Record>, seen: set<nat>)
  {
    NoRepeatedIndex(records) && forall i :: 0 <= i < |records| ==> records[i].index !in seen
  }

  lemma FreshHead(r: Record, rest: seq<Record>, seen: set<nat>)
    ensures FreshIndices([r] + rest, seen) <==> r.index !in seen && FreshIndices(rest, seen + {r.index})
  {
    var all := [r] + rest;
    assert all[0] == r && forall i :: 0 <= i < |rest| ==> all[i + 1] == rest[i];
    if FreshIndices(all, seen) {
      forall i, j | 0 <= i < j < |rest| ensures rest[i].index != rest[j].index {
        assert all[i + 1].index != all[j + 1].index;
      }
      forall i | 0 <= i < |rest| ensures rest[i].index !in seen + {r.index} {
        assert all[0].index != all[i + 1].index;
      }
    }
    if r.index !in seen && FreshIndices(rest, seen + {r.index}) {
      forall i, j | 0 <= i < j < |all| ensures all[i].index != all[j].index {
        assert all[j] == rest[j - 1];
        assert i > 0 ==> all[i] == rest[i - 1];
      }
    }
  }

  lemma {:induction false} NativeRecordsExactly(bytes: ByteString, count: nat, seen: set<nat>)
    ensures NativeRecords(bytes, count, seen).Ok? <==>
      ReadRecords(bytes, count).Some? && FreshIndices(ReadRecords(bytes, count).value, seen)
    ensures NativeRecords(bytes, count, seen).Ok? ==>
      Some(NativeRecords(bytes, count, seen).value) == ReadRecords(bytes, count)
    decreases count
  {
    if count > 0 && FirstRecord(bytes).Some? {
      var r := FirstRecord(bytes).value;
      var rest := bytes[8 + |r.data|..];
      NativeRecordsExactly(rest, count - 1, seen + {r.index});
      if ReadRecords(rest, count - 1).Some? {
        FreshHead(r, ReadRecords(rest, count - 1).value, seen);
      }
    }
  }

  /**
   * The two parsers agree: the native one accepts a payload exactly when the backend's does
   * and the indices are distinct, and then it finds the same file and the same chunks.
   */
  lemma ParsersAgree(payload: ByteString)
    ensures Native(payload).Ok? <==> Decoded(payload).Some? && NoRepeatedIndex(Decoded(payload).value.records)
    ensures Native(payload).Ok? ==> Some(Native(payload).value) == Decoded(payload)
  {
    if |payload| >= 22 {
      NativeRecordsExactly(payload[22..], FromBigEndian(payload[20..22]), {});
    }
  }

  lemma AfterTwice(a: seq<Record>, b: seq<Record>, more: Result<seq<Record>, ParseError>)
    ensures AfterFirst(a, AfterFirst(b, more)) == AfterFirst(a + b, more)
    ensures AfterFirst([], more) == more
  {
    if more.Ok? {
      assert a + (b + more.value) == (a + b) + more.value;
      assert [] + more.value == more.value;
    }
  }

  /** The native parser: it consumes its input, refuses a repeated index and tells two errors apart. */
  method ParseBatch(payload: ByteString) returns (r: Result<Batch, ParseError>)
    ensures r == Native(payload)
    ensures r.Ok? <==> Decoded(payload).Some? && NoRepeatedIndex(Decoded(payload).value.records)
    ensures r.Ok? ==> Some(r.value) == Decoded(payload)
  {
    ParsersAgree(payload);
    if |payload| < 22 || payload[..4] != MAGIC {
      return Err(InvalidRequest);
    }
    var id := payload[4..20];
    var count := FromBigEndian(payload[20..22]);
    var data := payload[22..];
    if count < 1 || count > BATCH_CHUNKS {
      return Err(InvalidRequest);
    }
    var chunks: seq<Record> := [];
    var seen: set<nat> := {};
    AfterTwice([], [], NativeRecords(data, count, {}));
    for done := 0 to count
      invariant NativeRecords(payload[22..], count, {}) == AfterFirst(chunks, NativeRecords(data, count - done, seen))
    {
      if |data| < 8 {
        return Err(InvalidRequest);
      }
      var first, rest := TakeRecord(data);
      if first.None? || first.value.index in seen {
        return Err(InvalidChunk);
      }
      seen := seen + {first.value.index};
      AfterTwice(chunks, [first.value], NativeRecords(rest, count - done - 1, seen));
      chunks, data := chunks + [first.value], rest;
    }
    if data != [] {
      return Err(InvalidRequest);
    }
    assert chunks + [] == chunks;
    return Ok(Batch(id, chunks));
  }
}
