/**
 * Group commit of single-chunk writes: a batch is validated as a whole, written
 * with one sync in ascending slot order and indexed in one transaction, and still
 * answers every request as if the requests had been processed one at a time.
 */
module GroupCommit {
  import opened Outcomes
  import opened Bytes
  import opened Slots
  import opened Storage

  /** A decoded write request; `chunk` is None when its text did not decode. */
  datatype Put = Put(user: User, index: int, chunk: Option<ByteString>, now: int)

  datatype Contents = Contents(chunks: map<nat, Digest>, bytes: ByteString)

  type Answer = Result<(), FileError>

  /**
   * How the I/O of a batch ends: done; all written but not indexed; or failed in a slot,
   * with the slots below it written and any part of that slot.
   */
  datatype BatchIo = Commits | WriteFails(upTo: nat, torn: nat) | IndexFails

  // ------------------------------------------------------ one request at a time

  function Judge(row: Row, chunks: map<nat, Digest>, put: Put): Answer
  {
    if row.owner != put.user then Err(AccessDenied)
    else if IsExpired(row, put.now) then Err(FileExpired)
    else if row.state != Uploading then Err(UploadClosed)
    else if !(0 <= put.index < ChunkCount(row.size)) then Err(InvalidRequest)
    else if put.chunk.None? || put.chunk.value == [] || |put.chunk.value| > STRIDE then Err(InvalidRequest)
    else if |put.chunk.value| != PayloadLength(row.size, put.index) then Err(InvalidChunk)
    else if put.index in chunks && chunks[put.index] != Sha256(put.chunk.value) then Err(ChunkConflict)
    else Ok(())
  }

  /** A single write, carried out on the spot. */
  function PutOne(row: Row, c: Contents, put: Put): (Contents, Answer)
  {
    var answer := Judge(row, c.chunks, put);
    if answer.Err? || put.index in c.chunks then (c, answer)
    else
      (Contents(c.chunks[put.index := Sha256(put.chunk.value)], WriteSlot(c.bytes, put.index, put.chunk.value)), answer)
  }

  function PutAll(row: Row, c: Contents, batch: seq<Put>): (r: (Contents, seq<Answer>))
    ensures |r.1| == |batch|
  {
    if batch == [] then (c, [])
    else
      var (before, answers) := PutAll(row, c, batch[..|batch| - 1]);
      var (after, answer) := PutOne(row, before, batch[|batch| - 1]);
      (after, answers + [answer])
  }

  // --------------------------------------------------- what an answer amounts to

  /** The owner sends a chunk of the right length for its place in a file that is still open. */
  predicate Proper(row: Row, put: Put)
  {
    && row.owner == put.user && row.state == Uploading && row.expires > put.now
    && 0 <= put.index < ChunkCount(row.size)
    && put.chunk.Some? && |put.chunk.value| == PayloadLength(row.size, put.index)
  }

  /** The request got past its checks, whether or not the disk let it be acknowledged. */
  predicate Passed(answer: Answer)
  {
    answer.Ok? || answer == Err(StorageUnavailable)
  }

  /** Other bytes have the request's place: by the index before, or by an earlier request that passed. */
  predicate Contradicted(c: Contents, batch: seq<Put>, answers: seq<Answer>, k: nat)
    requires k < |batch| == |answers|
  {
    || (batch[k].index >= 0 && batch[k].index in c.chunks && batch[k].chunk.Some?
        && c.chunks[batch[k].index] != Sha256(batch[k].chunk.value))
    || exists j :: 0 <= j < k && Passed(answers[j]) && batch[j].index == batch[k].index
                   && batch[j].chunk != batch[k].chunk
  }

  /** The grounds on which a request is refused. */
  predicate PutGrounds(row: Row, c: Contents, batch: seq<Put>, answers: seq<Answer>, k: nat, e: FileError)
    requires k < |batch| == |answers|
  {
    var put := batch[k];
    var open := row.owner == put.user && row.state == Uploading && row.expires > put.now;
    var shaped := 0 <= put.index < ChunkCount(row.size) && put.chunk.Some? && 1 <= |put.chunk.value| <= STRIDE;
    match e
    case AccessDenied => row.owner != put.user
    case FileExpired => row.owner == put.user && (row.expires <= put.now || row.state == Expired)
    case UploadClosed => row.owner == put.user && row.expires > put.now && row.state in {Ready, Deleted}
    case InvalidRequest => open && !shaped
    case InvalidChunk => open && shaped && |put.chunk.value| != PayloadLength(row.size, put.index)
    case ChunkConflict => Proper(row, put) && Contradicted(c, batch, answers, k)
    case _ => false
  }

  /** The answer to one request, in terms of the answers before it. */
  ghost predicate AnsweredAt(row: Row, c: Contents, batch: seq<Put>, answers: seq<Answer>, k: nat)
    requires k < |batch| == |answers|
  {
    && (Passed(answers[k]) <==> Proper(row, batch[k]) && !Contradicted(c, batch, answers, k))
    && (forall e :: e != StorageUnavailable ==> (answers[k] == Err(e) <==> PutGrounds(row, c, batch, answers, k, e)))
  }

  /** A passed request's own bytes are indexed at its place and, if it was not indexed before, read back from it. */
  predicate Stored(c: Contents, after: Contents, put: Put)
  {
    && put.index >= 0 && put.chunk.Some? && put.index in after.chunks
    && after.chunks[put.index] == Sha256(put.chunk.value)
    && (put.index !in c.chunks ==> ReadSlot(after.bytes, put.index, |put.chunk.value|) == Some(put.chunk.value))
  }

  /** Nothing is indexed but what was before and what some passed request brought. */
  ghost predicate NothingElse(c: Contents, batch: seq<Put>, answers: seq<Answer>, after: Contents)
    requires |batch| == |answers|
  {
    && (forall i :: i in c.chunks ==> i in after.chunks && after.chunks[i] == c.chunks[i])
    && (forall i :: i in after.chunks && i !in c.chunks ==>
          exists k :: 0 <= k < |batch| && Passed(answers[k]) && batch[k].index == i)
  }

  ghost predicate PutsMean(row: Row, c: Contents, batch: seq<Put>, after: Contents, answers: seq<Answer>)
  {
    && |answers| == |batch|
    && (forall k :: 0 <= k < |batch| ==> answers[k] != Err(StorageUnavailable))
    && (forall k :: 0 <= k < |batch| ==> AnsweredAt(row, c, batch, answers, k))
    && (forall k :: 0 <= k < |batch| ==> Passed(answers[k]) ==> Stored(c, after, batch[k]))
    && NothingElse(c, batch, answers, after)
  }

  /** Answers depend only on what came before. */
  lemma AnswerOfPrefix(row: Row, c: Contents, batch: seq<Put>, answers: seq<Answer>, put: Put, answer: Answer, k: nat)
    requires k < |batch| == |answers| && AnsweredAt(row, c, batch, answers, k)
    ensures AnsweredAt(row, c, batch + [put], answers + [answer], k)
  {
    var b, a := batch + [put], answers + [answer];
    assert b[k] == batch[k] && a[k] == answers[k];
    assert forall j :: 0 <= j < k ==> b[j] == batch[j] && a[j] == answers[j];
    assert Contradicted(c, b, a, k) <==> Contradicted(c, batch, answers, k);
    assert forall e :: PutGrounds(row, c, b, a, k, e) <==> PutGrounds(row, c, batch, answers, k, e);
  }

  /** A later write to another place, or none, leaves a stored request stored. */
  lemma StoredStill(row: Row, c: Contents, mid: Contents, put: Put, before: Put)
    requires Stored(c, mid, before) && |before.chunk.value| <= STRIDE
    ensures Stored(c, PutOne(row, mid, put).0, before)
  {
    if Judge(row, mid.chunks, put).Ok? && put.index !in mid.chunks && before.index !in c.chunks {
      OtherSlotUntouched(mid.bytes, put.index, put.chunk.value, before.index, |before.chunk.value|);
    }
  }

  /** The index before a request contradicts it exactly when the old index or an earlier request does. */
  lemma ContradictedExactly(row: Row, c: Contents, batch: seq<Put>, mid: Contents, answers: seq<Answer>, put: Put,
                            answer: Answer)
    requires PutsMean(row, c, batch, mid, answers) && Proper(row, put)
    ensures Contradicted(c, batch + [put], answers + [answer], |batch|) <==>
              put.index in mid.chunks && mid.chunks[put.index] != Sha256(put.chunk.value)
  {
    var b, a, n := batch + [put], answers + [answer], |batch|;
    assert b[n] == put && forall j :: 0 <= j < n ==> b[j] == batch[j] && a[j] == answers[j];
    forall j | 0 <= j < n && Passed(a[j]) && b[j].index == put.index
      ensures put.index in mid.chunks && mid.chunks[put.index] == Sha256(b[j].chunk.value) && b[j].chunk.Some?
    {
      assert Stored(c, mid, batch[j]);
    }
    if put.index in mid.chunks && put.index !in c.chunks {
      var j :| 0 <= j < n && Passed(answers[j]) && batch[j].index == put.index;
      assert Passed(a[j]) && b[j].index == put.index;
    }
  }

  lemma NewAnswer(row: Row, c: Contents, batch: seq<Put>, mid: Contents, answers: seq<Answer>, put: Put)
    requires PutsMean(row, c, batch, mid, answers)
    ensures
      var answer := Judge(row, mid.chunks, put);
      && answer != Err(StorageUnavailable)
      && AnsweredAt(row, c, batch + [put], answers + [answer], |batch|)
  {
    var answer := Judge(row, mid.chunks, put);
    assert (batch + [put])[|batch|] == put && (answers + [answer])[|batch|] == answer;
    if Proper(row, put) {
      ContradictedExactly(row, c, batch, mid, answers, put, answer);
    }
  }

  lemma NewStored(row: Row, c: Contents, mid: Contents, put: Put)
    requires Judge(row, mid.chunks, put).Ok?
    requires put.index in mid.chunks && put.index !in c.chunks ==>
      ReadSlot(mid.bytes, put.index, |put.chunk.value|) == Some(put.chunk.value)
    ensures Stored(c, PutOne(row, mid, put).0, put)
  {
    if put.index !in mid.chunks {
      ReadBackSlot(mid.bytes, put.index, put.chunk.value);
    }
  }

  /** A place that an earlier request filled holds that request's bytes, which are then the same. */
  lemma FilledBefore(row: Row, c: Contents, batch: seq<Put>, mid: Contents, answers: seq<Answer>, put: Put)
    requires PutsMean(row, c, batch, mid, answers) && Judge(row, mid.chunks, put).Ok?
    ensures put.index in mid.chunks && put.index !in c.chunks ==>
      ReadSlot(mid.bytes, put.index, |put.chunk.value|) == Some(put.chunk.value)
  {
    if put.index in mid.chunks && put.index !in c.chunks {
      var j :| 0 <= j < |batch| && Passed(answers[j]) && batch[j].index == put.index;
      assert Stored(c, mid, batch[j]);
    }
  }

  lemma NothingElseStep(row: Row, c: Contents, batch: seq<Put>, mid: Contents, answers: seq<Answer>, put: Put)
    requires |batch| == |answers| && NothingElse(c, batch, answers, mid)
    ensures
      var (after, answer) := PutOne(row, mid, put);
      NothingElse(c, batch + [put], answers + [answer], after)
  {
    var (after, answer) := PutOne(row, mid, put);
    var b, a := batch + [put], answers + [answer];
    assert b[|batch|] == put && a[|batch|] == answer;
    forall i | i in after.chunks && i !in c.chunks
      ensures exists k :: 0 <= k < |b| && Passed(a[k]) && b[k].index == i
    {
      if i in mid.chunks {
        var k :| 0 <= k < |batch| && Passed(answers[k]) && batch[k].index == i;
        assert Passed(a[k]) && b[k].index == i;
      } else {
        assert Passed(a[|batch|]) && b[|batch|].index == i;
      }
    }
  }

  lemma PutsStep(row: Row, c: Contents, batch: seq<Put>, mid: Contents, answers: seq<Answer>, put: Put)
    requires PutsMean(row, c, batch, mid, answers)
    ensures
      var (after, answer) := PutOne(row, mid, put);
      PutsMean(row, c, batch + [put], after, answers + [answer])
  {
    var (after, answer) := PutOne(row, mid, put);
    var b, a := batch + [put], answers + [answer];
    NewAnswer(row, c, batch, mid, answers, put);
    NothingElseStep(row, c, batch, mid, answers, put);
    forall k | 0 <= k < |b|
      ensures a[k] != Err(StorageUnavailable) && AnsweredAt(row, c, b, a, k)
      ensures Passed(a[k]) ==> Stored(c, after, b[k])
    {
      if k < |batch| {
        AnswerOfPrefix(row, c, batch, answers, put, answer, k);
        if Passed(answers[k]) {
          StoredStill(row, c, mid, put, batch[k]);
        }
      } else if Passed(a[k]) {
        FilledBefore(row, c, batch, mid, answers, put);
        NewStored(row, c, mid, put);
      }
    }
  }

  /** One request at a time: who is acknowledged, who is refused and why, and what is stored then. */
  lemma {:induction false} PutAllMeans(row: Row, c: Contents, batch: seq<Put>)
    ensures PutsMean(row, c, batch, PutAll(row, c, batch).0, PutAll(row, c, batch).1)
  {
    if batch != [] {
      var init := batch[..|batch| - 1];
      PutAllMeans(row, c, init);
      PutsStep(row, c, init, PutAll(row, c, init).0, PutAll(row, c, init).1, batch[|batch| - 1]);
      assert batch == init + [batch[|batch| - 1]];
    }
  }

  // --------------------------------------------------------------- one batch

  /** The blob after the pending write to one slot, if there is one. */
  function WriteOne(bytes: ByteString, writes: map<nat, ByteString>, i: nat): ByteString
  {
    if i in writes then WriteSlot(bytes, i, writes[i]) else bytes
  }

  /** The blob after the pending writes to slots below `n`, in ascending order. */
  function WriteAscending(bytes: ByteString, writes: map<nat, ByteString>, n: nat): ByteString
  {
    if n == 0 then bytes else WriteOne(WriteAscending(bytes, writes, n - 1), writes, n - 1)
  }

  function Digests(existing: map<nat, Digest>, writes: map<nat, ByteString>): map<nat, Digest>
  {
    existing + map i | i in writes :: Sha256(writes[i])
  }

  /** The blob with one more slot written last, if it is to be. */
  function LastIf(written: bool, bytes: ByteString, i: nat, data: ByteString): ByteString
  {
    if written then WriteSlot(bytes, i, data) else bytes
  }

  lemma OtherSlotSame(bytes: ByteString, writes: map<nat, ByteString>, i: nat, data: ByteString, k: nat)
    requires i != k
    ensures WriteOne(bytes, writes[i := data], k) == WriteOne(bytes, writes, k)
  {
  }

  lemma OtherSlotCommutes(bytes: ByteString, writes: map<nat, ByteString>, i: nat, data: ByteString, k: nat)
    requires i != k && |data| <= STRIDE && (k in writes ==> |writes[k]| <= STRIDE)
    ensures WriteOne(WriteSlot(bytes, i, data), writes, k) == WriteSlot(WriteOne(bytes, writes, k), i, data)
  {
    if k in writes {
      WritesCommute(bytes, i, data, k, writes[k]);
    }
  }

  lemma NewSlotWritten(bytes: ByteString, writes: map<nat, ByteString>, i: nat, data: ByteString)
    requires i !in writes
    ensures WriteOne(bytes, writes[i := data], i) == WriteSlot(WriteOne(bytes, writes, i), i, data)
  {
  }

  /** One slot further, with the new slot already among those below or not. */
  lemma NewWriteStep(with: ByteString, without: ByteString, writes: map<nat, ByteString>, i: nat, data: ByteString,
                     k: nat)
    requires i !in writes && |data| <= STRIDE && (k in writes ==> |writes[k]| <= STRIDE)
    requires with == LastIf(i < k, without, i, data)
    ensures WriteOne(with, writes[i := data], k) == LastIf(i <= k, WriteOne(without, writes, k), i, data)
  {
    if i == k {
      NewSlotWritten(without, writes, i, data);
    } else {
      OtherSlotSame(with, writes, i, data, k);
      OtherSlotCommutes(without, writes, i, data, k);
    }
  }

  /** A further slot may as well have been written last. */
  lemma {:induction false} NewWriteLast(bytes: ByteString, writes: map<nat, ByteString>, i: nat, data: ByteString,
                                        n: nat)
    requires i !in writes && |data| <= STRIDE
    requires forall k :: k in writes ==> |writes[k]| <= STRIDE
    ensures WriteAscending(bytes, writes[i := data], n) == LastIf(i < n, WriteAscending(bytes, writes, n), i, data)
  {
    if n > 0 {
      NewWriteLast(bytes, writes, i, data, n - 1);
      NewWriteStep(WriteAscending(bytes, writes[i := data], n - 1), WriteAscending(bytes, writes, n - 1),
                   writes, i, data, n - 1);
    }
  }

  /** What a batch has decided after its first requests, before any I/O. */
  ghost predicate Decided(row: Row, c: Contents, batch: seq<Put>, writes: map<nat, ByteString>, answers: seq<Answer>)
  {
    && (forall i :: i in writes ==> i < ChunkCount(row.size) && |writes[i]| <= STRIDE && i !in c.chunks)
    && PutAll(row, c, batch) ==
         (Contents(Digests(c.chunks, writes), WriteAscending(c.bytes, writes, ChunkCount(row.size))), answers)
  }

  /** A request that needs no new slot: refused, or a repetition of what is there. */
  lemma DecideSame(row: Row, c: Contents, batch: seq<Put>, writes: map<nat, ByteString>, answers: seq<Answer>, put: Put)
    requires Decided(row, c, batch, writes, answers)
    requires Judge(row, Digests(c.chunks, writes), put).Err? || put.index in Digests(c.chunks, writes)
    ensures Decided(row, c, batch + [put], writes, answers + [Judge(row, Digests(c.chunks, writes), put)])
  {
    assert (batch + [put])[..|batch|] == batch;
  }

  lemma DecideNew(row: Row, c: Contents, batch: seq<Put>, writes: map<nat, ByteString>, answers: seq<Answer>, put: Put)
    requires Decided(row, c, batch, writes, answers)
    requires Judge(row, Digests(c.chunks, writes), put).Ok? && put.index !in Digests(c.chunks, writes)
    ensures Decided(row, c, batch + [put], writes[put.index := put.chunk.value], answers + [Ok(())])
  {
    assert (batch + [put])[..|batch|] == batch;
    NewWriteLast(c.bytes, writes, put.index, put.chunk.value, ChunkCount(row.size));
    DigestsGrow(c.chunks, writes, put.index, put.chunk.value);
  }

  lemma DigestsGrow(existing: map<nat, Digest>, writes: map<nat, ByteString>, i: nat, data: ByteString)
    ensures Digests(existing, writes[i := data]) == Digests(existing, writes)[i := Sha256(data)]
  {
  }

  /**
   * What a batch amounts to. When the I/O succeeds, every request gets the answer, and blob
   * and index the contents, of handling the requests one at a time in batch order. When it
   * fails, no accepted request is acknowledged, the refused ones keep their own error, and
   * the index is untouched. Either way the chunks indexed before read as before.
   */
  ghost predicate Flushed(row: Row, c: Contents, batch: seq<Put>, io: BatchIo, after: Contents, answers: seq<Answer>)
  {
    var (all, single) := PutAll(row, c, batch);
    && |answers| == |batch|
    && (io.Commits? || all.chunks == c.chunks ==> (after, answers) == (all, single))
    && (!io.Commits? && all.chunks != c.chunks ==> after.chunks == c.chunks)
    && (forall k :: 0 <= k < |batch| ==> single[k].Err? ==> answers[k] == single[k])
    && (!io.Commits? && all.chunks != c.chunks ==>
          forall k :: 0 <= k < |batch| ==> single[k].Ok? ==> answers[k] == Err(StorageUnavailable))
    && (forall i: nat, n: nat :: i in c.chunks && n <= STRIDE && ReadSlot(c.bytes, i, n).Some? ==>
          ReadSlot(after.bytes, i, n) == ReadSlot(c.bytes, i, n))
  }

  /**
   * The same without reference to single requests. A request passes exactly when it is proper and
   * neither the index nor an earlier passed request has other bytes at its place. If the I/O is
   * done, or none was needed, exactly the passed requests are acknowledged and stored; otherwise
   * none is, and nothing is indexed.
   */
  ghost predicate BatchMeans(row: Row, c: Contents, batch: seq<Put>, io: BatchIo, after: Contents, answers: seq<Answer>)
  {
    && |answers| == |batch|
    && (forall k :: 0 <= k < |batch| ==> AnsweredAt(row, c, batch, answers, k))
    && if io.Commits? || Idle(c, batch, answers) then
         && (forall k :: 0 <= k < |batch| ==> answers[k] != Err(StorageUnavailable))
         && (forall k :: 0 <= k < |batch| ==> answers[k].Ok? ==> Stored(c, after, batch[k]))
         && NothingElse(c, batch, answers, after)
       else
         (forall k :: 0 <= k < |batch| ==> answers[k].Err?) && after.chunks == c.chunks
  }

  /** Every request that passed only repeats what is indexed. */
  predicate Idle(c: Contents, batch: seq<Put>, answers: seq<Answer>)
    requires |answers| == |batch|
  {
    forall k :: 0 <= k < |batch| && Passed(answers[k]) ==> batch[k].index >= 0 && batch[k].index in c.chunks
  }

  lemma WithdrawnAnswer(row: Row, c: Contents, batch: seq<Put>, single: seq<Answer>, answers: seq<Answer>, k: nat)
    requires k < |batch| == |single| == |answers| && AnsweredAt(row, c, batch, single, k)
    requires forall j :: 0 <= j < |batch| ==> Passed(answers[j]) == Passed(single[j])
    requires forall j :: 0 <= j < |batch| ==> !Passed(single[j]) ==> answers[j] == single[j]
    ensures AnsweredAt(row, c, batch, answers, k)
  {
    assert Contradicted(c, batch, answers, k) <==> Contradicted(c, batch, single, k);
    assert forall e :: PutGrounds(row, c, batch, answers, k, e) <==> PutGrounds(row, c, batch, single, k, e);
  }

  lemma IdleExactly(row: Row, c: Contents, batch: seq<Put>, all: Contents, single: seq<Answer>)
    requires PutsMean(row, c, batch, all, single)
    ensures Idle(c, batch, single) <==> all.chunks == c.chunks
  {
    forall k | 0 <= k < |batch| && Passed(single[k]) ensures Stored(c, all, batch[k]) {
    }
    if Idle(c, batch, single) {
      assert forall i :: i in all.chunks ==> i in c.chunks;
    }
  }

  /** Processing a batch like single requests gives each request the answer it deserves. */
  lemma FlushedMeans(row: Row, c: Contents, batch: seq<Put>, io: BatchIo, after: Contents, answers: seq<Answer>)
    requires Flushed(row, c, batch, io, after, answers)
    ensures BatchMeans(row, c, batch, io, after, answers)
  {
    var (all, single) := PutAll(row, c, batch);
    PutAllMeans(row, c, batch);
    IdleExactly(row, c, batch, all, single);
    forall k | 0 <= k < |batch|
      ensures Passed(answers[k]) == Passed(single[k]) && (!Passed(single[k]) ==> answers[k] == single[k])
    {
    }
    forall k | 0 <= k < |batch| ensures AnsweredAt(row, c, batch, answers, k) {
      WithdrawnAnswer(row, c, batch, single, answers, k);
    }
    assert Idle(c, batch, answers) <==> Idle(c, batch, single);
  }

  /** The batch leader's work; without a row every request fails and nothing changes. */
  method FlushBatch(found: Option<Row>, c: Contents, batch: seq<Put>, io: BatchIo)
    returns (after: Contents, answers: seq<Answer>)
    ensures found.Some? ==> Flushed(found.value, c, batch, io, after, answers)
    ensures found.Some? ==> BatchMeans(found.value, c, batch, io, after, answers)
    ensures found.None? ==>
      after == c && |answers| == |batch| && forall k :: 0 <= k < |batch| ==> answers[k] == Err(NotAvailable)
  {
    if found.None? {
      return c, seq(|batch|, k => Err(NotAvailable));
    }
    after, answers := FlushFound(found.value, c, batch, io);
    FlushedMeans(found.value, c, batch, io, after, answers);
  }

  method FlushFound(row: Row, c: Contents, batch: seq<Put>, io: BatchIo) returns (after: Contents, answers: seq<Answer>)
    ensures Flushed(row, c, batch, io, after, answers)
  {
    var count := ChunkCount(row.size);
    var writes: map<nat, ByteString> := map[];
    answers := [];
    NothingToWrite(c.bytes, writes, count);
    assert Digests(c.chunks, writes) == c.chunks;
    var k := 0;
    while k < |batch|
      invariant 0 <= k <= |batch| && |answers| == k
      invariant Decided(row, c, batch[..k], writes, answers)
    {
      var put := batch[k];
      var previous := Digests(c.chunks, writes);
      assert batch[..k + 1] == batch[..k] + [put];
      var answer := Judge(row, previous, put);
      if answer.Err? || put.index in previous {
        DecideSame(row, c, batch[..k], writes, answers, put);
      } else {
        DecideNew(row, c, batch[..k], writes, answers, put);
        writes := writes[put.index := put.chunk.value];
      }
      answers := answers + [answer];
      k := k + 1;
    }
    assert batch[..k] == batch;
    NoWritesNoDigests(c.chunks, writes);
    if writes == map[] {
      NothingToWrite(c.bytes, writes, count);
      assert Digests(c.chunks, writes) == c.chunks;
      return c, answers;
    }
    var limit := if io.WriteFails? && io.upTo < count then io.upTo else count;
    var bytes := WriteSlots(c.bytes, writes, limit);
    IndexedSlotsSafe(row, c, writes, limit);
    if io.WriteFails? && limit in writes {
      TornSlotSafe(row, c, writes, limit, io.torn);
      bytes := WriteSlot(bytes, limit, Torn(writes[limit], io.torn));
    }
    if io.Commits? {
      after := Contents(Digests(c.chunks, writes), bytes);
    } else {
      after := Contents(c.chunks, bytes);
      answers := Withdraw(answers);
    }
  }

  /** Writes the pending slots below a limit in ascending order. */
  method WriteSlots(before: ByteString, writes: map<nat, ByteString>, limit: nat) returns (bytes: ByteString)
    ensures bytes == WriteAscending(before, writes, limit)
  {
    bytes := before;
    for i := 0 to limit
      invariant bytes == WriteAscending(before, writes, i)
    {
      if i in writes {
        bytes := WriteSlot(bytes, i, writes[i]);
      }
    }
  }

  /** The part of a chunk that a failing write left. */
  function Torn(data: ByteString, length: nat): (r: ByteString)
    ensures |r| <= |data|
  {
    if length < |data| then data[..length] else data
  }

  lemma TornSlotSafe(row: Row, c: Contents, writes: map<nat, ByteString>, n: nat, torn: nat)
    requires (forall i :: i in writes ==> |writes[i]| <= STRIDE && i !in c.chunks) && n in writes
    ensures forall i: nat, length: nat :: i in c.chunks && length <= STRIDE && ReadSlot(c.bytes, i, length).Some? ==>
              ReadSlot(WriteSlot(WriteAscending(c.bytes, writes, n), n, Torn(writes[n], torn)), i, length) ==
                ReadSlot(c.bytes, i, length)
  {
    IndexedSlotsSafe(row, c, writes, n);
    forall i: nat, length: nat | i in c.chunks && length <= STRIDE && ReadSlot(c.bytes, i, length).Some?
      ensures ReadSlot(WriteSlot(WriteAscending(c.bytes, writes, n), n, Torn(writes[n], torn)), i, length) ==
        ReadSlot(c.bytes, i, length)
    {
      OtherSlotUntouched(WriteAscending(c.bytes, writes, n), n, Torn(writes[n], torn), i, length);
    }
  }

  /** An I/O error reaches every request that would have been acknowledged. */
  function Withdraw(answers: seq<Answer>): (r: seq<Answer>)
    ensures |r| == |answers|
    ensures forall k :: 0 <= k < |r| ==> r[k] == if answers[k].Ok? then Err(StorageUnavailable) else answers[k]
  {
    seq(|answers|, k requires 0 <= k < |answers| => if answers[k].Ok? then Err(StorageUnavailable) else answers[k])
  }

  lemma NoWritesNoDigests(existing: map<nat, Digest>, writes: map<nat, ByteString>)
    requires forall i :: i in writes ==> i !in existing
    ensures Digests(existing, writes) == existing <==> writes == map[]
  {
    if writes != map[] {
      var i :| i in writes;
      assert i in Digests(existing, writes);
    }
  }

  lemma {:induction false} NothingToWrite(bytes: ByteString, writes: map<nat, ByteString>, n: nat)
    requires writes == map[]
    ensures WriteAscending(bytes, writes, n) == bytes
  {
    if n > 0 {
      NothingToWrite(bytes, writes, n - 1);
    }
  }

  /** However far the writes got, chunks indexed earlier read as before. */
  lemma {:induction false} IndexedSlotsSafe(row: Row, c: Contents, writes: map<nat, ByteString>, n: nat)
    requires forall i :: i in writes ==> |writes[i]| <= STRIDE && i !in c.chunks
    ensures forall i: nat, length: nat :: i in c.chunks && length <= STRIDE && ReadSlot(c.bytes, i, length).Some? ==>
              ReadSlot(WriteAscending(c.bytes, writes, n), i, length) == ReadSlot(c.bytes, i, length)
  {
    if n > 0 {
      IndexedSlotsSafe(row, c, writes, n - 1);
      forall i: nat, length: nat | i in c.chunks && length <= STRIDE && ReadSlot(c.bytes, i, length).Some?
        ensures ReadSlot(WriteAscending(c.bytes, writes, n), i, length) == ReadSlot(c.bytes, i, length)
      {
        if n - 1 in writes {
          OtherSlotUntouched(WriteAscending(c.bytes, writes, n - 1), n - 1, writes[n - 1], i, length);
        }
      }
    }
  }
}
