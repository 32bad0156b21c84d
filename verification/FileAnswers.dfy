/**
 * When each storage operation answers what it answers, said of the rows, the index and the
 * leases themselves: who may upload, finish, delete, read and create, and what each refusal means.
 */
module FileAnswers {
  import opened Outcomes
  import opened Slots
  import opened Sums
  import opened Storage
  import opened UploadProtocol

  /** A record that has not been deleted and whose time has not run out. */
  predicate InTime(rows: map<FileId, Row>, id: FileId, now: int)
  {
    id in rows && rows[id].state in {Uploading, Ready} && rows[id].expires > now
  }

  /** The user's own file, still being uploaded. */
  predicate OpenTo(rows: map<FileId, Row>, id: FileId, user: User, now: int)
  {
    id in rows && rows[id].owner == user && rows[id].state == Uploading && rows[id].expires > now
  }

  // ---------------------------------------------------------------- chunk lists

  /** Chunk `k` is the first to fail, in this way. */
  predicate FailsAt(size: nat, existing: map<nat, Digest>, chunks: seq<Chunk>, k: nat, e: FileError)
  {
    && k < |chunks| && Passes(size, existing, chunks[..k])
    && var c := chunks[k];
       var fits := 0 <= c.index < ChunkCount(size) && c.index !in Named(chunks[..k])
                   && c.length == PayloadLength(size, c.index);
       match e
       case InvalidRequest => !(0 <= c.index < ChunkCount(size))
       case InvalidChunk => 0 <= c.index < ChunkCount(size) && !fits
       case ChunkConflict => fits && c.index in existing && existing[c.index] != c.digest
       case _ => false
  }

  /** The scan fails with the error of the first chunk that fails. */
  lemma FirstFailure(size: nat, existing: map<nat, Digest>, chunks: seq<Chunk>, k: nat, e: FileError)
    requires FailsAt(size, existing, chunks, k, e)
    ensures Scan(size, existing, chunks) == Err(e)
  {
    ScanMeaning(size, existing, chunks[..k]);
    assert chunks[..k + 1][..k] == chunks[..k];
    FailureIsFinal(size, existing, chunks, k + 1);
  }

  lemma LastFails(size: nat, existing: map<nat, Digest>, init: seq<Chunk>, sofar: Scanned, c: Chunk, e: FileError)
    requires Scan(size, existing, init) == Ok(sofar) && ScanOne(size, existing, sofar, c) == Err(e)
    ensures FailsAt(size, existing, init + [c], |init|, e)
  {
    ScanMeaning(size, existing, init);
    assert (init + [c])[..|init|] == init;
  }

  lemma LongerFails(size: nat, existing: map<nat, Digest>, init: seq<Chunk>, c: Chunk, k: nat, e: FileError)
    requires FailsAt(size, existing, init, k, e)
    ensures FailsAt(size, existing, init + [c], k, e)
  {
    assert (init + [c])[..k] == init[..k];
  }

  lemma {:induction false} SomeFailure(size: nat, existing: map<nat, Digest>, chunks: seq<Chunk>) returns (k: nat)
    requires Scan(size, existing, chunks).Err?
    ensures FailsAt(size, existing, chunks, k, Scan(size, existing, chunks).error)
  {
    var init, c := chunks[..|chunks| - 1], chunks[|chunks| - 1];
    assert chunks == init + [c];
    if Scan(size, existing, init).Ok? {
      LastFails(size, existing, init, Scan(size, existing, init).value, c, Scan(size, existing, chunks).error);
      return |init|;
    }
    k := SomeFailure(size, existing, init);
    LongerFails(size, existing, init, c, k, Scan(size, existing, init).error);
  }

  // ------------------------------------------------------------- who may upload

  /** The grounds on which prepare and commit refuse before they look at leases. */
  ghost predicate UploadGrounds(s: Store, id: FileId, user: User, chunks: seq<Chunk>, now: int, e: FileError)
  {
    match e
    case NotAvailable => id !in s.rows || s.rows[id].state == Deleted
    case FileExpired => id in s.rows && s.rows[id].state != Deleted && !InTime(s.rows, id, now)
    case AccessDenied => InTime(s.rows, id, now) && s.rows[id].owner != user
    case UploadClosed => InTime(s.rows, id, now) && s.rows[id].owner == user && s.rows[id].state == Ready
    case InvalidRequest =>
      && OpenTo(s.rows, id, user, now)
      && (chunks == [] || |chunks| > 16 || exists k: nat :: FailsAt(s.rows[id].size, ChunksOf(s, id), chunks, k, e))
    case InvalidChunk => ListFails(s, id, user, chunks, now, e)
    case ChunkConflict => ListFails(s, id, user, chunks, now, e)
    case _ => false
  }

  ghost predicate ListFails(s: Store, id: FileId, user: User, chunks: seq<Chunk>, now: int, e: FileError)
  {
    && OpenTo(s.rows, id, user, now) && 1 <= |chunks| <= 16
    && exists k: nat :: FailsAt(s.rows[id].size, ChunksOf(s, id), chunks, k, e)
  }

  /** The owner asks for at most sixteen acceptable chunks of a file that is still open. */
  predicate MayUpload(s: Store, id: FileId, user: User, chunks: seq<Chunk>, now: int)
  {
    OpenTo(s.rows, id, user, now) && 1 <= |chunks| <= 16 && Passes(s.rows[id].size, ChunksOf(s, id), chunks)
  }

  lemma ValidatedExactly(s: Store, id: FileId, user: User, chunks: seq<Chunk>, now: int)
    ensures Validate(s, id, user, chunks, now).Ok? <==> MayUpload(s, id, user, chunks, now)
  {
    if id in s.rows {
      ScanMeaning(s.rows[id].size, ChunksOf(s, id), chunks);
    }
  }

  lemma ValidationFails(s: Store, id: FileId, user: User, chunks: seq<Chunk>, now: int, e: FileError)
    ensures Validate(s, id, user, chunks, now) == Err(e) <==> UploadGrounds(s, id, user, chunks, now, e)
  {
    if OpenTo(s.rows, id, user, now) {
      ListFailure(s.rows[id].size, ChunksOf(s, id), chunks, e);
    }
  }

  lemma ListFailure(size: nat, existing: map<nat, Digest>, chunks: seq<Chunk>, e: FileError)
    ensures Scan(size, existing, chunks) == Err(e) <==> exists k: nat :: FailsAt(size, existing, chunks, k, e)
  {
    if Scan(size, existing, chunks) == Err(e) {
      var k := SomeFailure(size, existing, chunks);
    }
    if exists k: nat :: FailsAt(size, existing, chunks, k, e) {
      var k: nat :| FailsAt(size, existing, chunks, k, e);
      FirstFailure(size, existing, chunks, k, e);
    }
  }

  predicate Leased(leases: map<FileId, Lease>, id: FileId, mono: int)
  {
    id in leases && leases[id].expires > mono
  }

  /** The file has a live lease, or fewer than 2048 files have one. */
  predicate LeaseToBeHad(leases: map<FileId, Lease>, id: FileId, mono: int)
  {
    Leased(leases, id, mono) || |set f | f in leases && leases[f].expires > mono| < 2048
  }

  /** A prepare succeeds exactly for the owner of an open file, if it has a live lease or there is room for one. */
  lemma PreparedExactly(s: Store, id: FileId, user: User, chunks: seq<Chunk>, now: int, mono: int, token: Token)
    ensures
      var room := LeaseToBeHad(s.leases, id, mono);
      var answer := Prepare(s, id, user, chunks, now, mono, token).1;
      && (answer.Ok? <==> MayUpload(s, id, user, chunks, now) && room)
      && (answer == Err(Busy) <==> MayUpload(s, id, user, chunks, now) && !room)
  {
    ValidatedExactly(s, id, user, chunks, now);
    ValidationFails(s, id, user, chunks, now, Busy);
    var live := LiveLeases(s.leases, mono);
    assert live.Keys == set f | f in s.leases && s.leases[f].expires > mono;
    assert |live| == |live.Keys|;
  }

  lemma PrepareRefusedExactly(s: Store, id: FileId, user: User, chunks: seq<Chunk>, now: int, mono: int, token: Token,
                              e: FileError)
    requires e != Busy
    ensures Prepare(s, id, user, chunks, now, mono, token).1 == Err(e) <==> UploadGrounds(s, id, user, chunks, now, e)
  {
    ValidationFails(s, id, user, chunks, now, e);
  }

  /** What a prepare grants: a fresh lease on the very list, and a plan to write what is not stored yet. */
  lemma PrepareMeans(s: Store, id: FileId, user: User, chunks: seq<Chunk>, now: int, mono: int, token: Token)
    requires Prepare(s, id, user, chunks, now, mono, token).1.Ok?
    ensures
      var (t, answer) := Prepare(s, id, user, chunks, now, mono, token);
      && id in s.rows && id in t.leases
      && t.leases[id] == Lease(token, mono + 120, Binding(user, s.rows[id].created, s.rows[id].envelope,
                                                          s.rows[id].size, chunks))
      && answer.value.token == token
      && (forall i :: i in answer.value.received <==> i in Named(chunks))
      && (forall i :: i in answer.value.write <==> i in answer.value.received && i !in ChunksOf(s, id))
      && (forall f :: f != id ==> (f in t.leases <==> Leased(s.leases, f, mono)))
      && (forall f :: f != id && f in t.leases ==> t.leases[f] == s.leases[f])
  {
    ValidatedExactly(s, id, user, chunks, now);
    ScanMeaning(s.rows[id].size, ChunksOf(s, id), chunks);
  }

  /** The file has a live lease with this token, for it as it is now and for this very list. */
  predicate LeasedFor(s: Store, id: FileId, token: Token, chunks: seq<Chunk>, mono: int)
  {
    && Leased(s.leases, id, mono) && s.leases[id].token == token && id in s.rows
    && var row, bound := s.rows[id], s.leases[id].binding;
       && bound.owner == row.owner && bound.created == row.created && bound.envelope == row.envelope
       && bound.size == row.size && bound.chunks == chunks
  }

  /** A commit succeeds exactly for the owner of an open file under its live lease on the very list. */
  lemma CommittedExactly(s: Store, id: FileId, user: User, chunks: seq<Chunk>, token: Token, now: int, mono: int)
    ensures
      var leased := LeasedFor(s, id, token, chunks, mono);
      var answer := Commit(s, id, user, chunks, token, now, mono).1;
      && (answer.Ok? <==> MayUpload(s, id, user, chunks, now) && leased)
      && (answer == Err(Busy) <==> MayUpload(s, id, user, chunks, now) && !leased)
  {
    ValidatedExactly(s, id, user, chunks, now);
    ValidationFails(s, id, user, chunks, now, Busy);
  }

  lemma CommitRefusedExactly(s: Store, id: FileId, user: User, chunks: seq<Chunk>, token: Token, now: int, mono: int,
                             e: FileError)
    requires e != Busy
    ensures Commit(s, id, user, chunks, token, now, mono).1 == Err(e) <==> UploadGrounds(s, id, user, chunks, now, e)
  {
    ValidationFails(s, id, user, chunks, now, e);
  }

  /** A prepared list can be committed until the file or the lease runs out. */
  lemma PreparedCommits(s: Store, id: FileId, user: User, chunks: seq<Chunk>, now: int, mono: int, token: Token,
                        later: int, monoLater: int)
    requires Prepare(s, id, user, chunks, now, mono, token).1.Ok?
    ensures
      Commit(Prepare(s, id, user, chunks, now, mono, token).0, id, user, chunks, token, later, monoLater).1.Ok? <==>
        later < s.rows[id].expires && monoLater < mono + 120
  {
    var t := Prepare(s, id, user, chunks, now, mono, token).0;
    PreparedExactly(s, id, user, chunks, now, mono, token);
    PrepareMeans(s, id, user, chunks, now, mono, token);
    CommittedExactly(t, id, user, chunks, token, later, monoLater);
    assert ChunksOf(t, id) == ChunksOf(s, id);
  }

  /** A newer prepare of the file takes the right to commit away from every older one. */
  lemma NewerPrepareWins(s: Store, id: FileId, user: User, chunks: seq<Chunk>, now: int, mono: int, token: Token,
                         older: seq<Chunk>, oldToken: Token, sender: User, later: int, monoLater: int)
    requires Prepare(s, id, user, chunks, now, mono, token).1.Ok? && oldToken != token
    ensures
      var t := Prepare(s, id, user, chunks, now, mono, token).0;
      Commit(t, id, sender, older, oldToken, later, monoLater).1.Err?
  {
    PrepareMeans(s, id, user, chunks, now, mono, token);
    CommittedExactly(Prepare(s, id, user, chunks, now, mono, token).0, id, sender, older, oldToken, later, monoLater);
  }

  // ---------------------------------------------------- finish, delete and read

  /** The grounds on which a finish is refused. */
  predicate FinishGrounds(s: Store, id: FileId, user: User, now: int, e: FileError)
  {
    match e
    case NotAvailable => id !in s.rows || s.rows[id].state == Deleted
    case AccessDenied => id in s.rows && s.rows[id].state != Deleted && s.rows[id].owner != user
    case FileExpired =>
      id in s.rows && s.rows[id].state != Deleted && s.rows[id].owner == user && !InTime(s.rows, id, now)
    case UploadIncomplete =>
      InTime(s.rows, id, now) && s.rows[id].owner == user && |ChunksOf(s, id)| != ChunkCount(s.rows[id].size)
    case _ => false
  }

  lemma FinishedExactly(s: Store, id: FileId, user: User, now: int, e: FileError)
    ensures
      var answer := Finish(s, id, user, now).1;
      && (answer.Ok? <==>
            && InTime(s.rows, id, now) && s.rows[id].owner == user
            && |ChunksOf(s, id)| == ChunkCount(s.rows[id].size))
      && (answer == Err(e) <==> FinishGrounds(s, id, user, now, e))
  {
  }

  /** Only the owner deletes, whatever became of the file, and nothing but failing I/O prevents it. */
  lemma DeletedExactly(s: Store, id: FileId, user: User, io: Io)
    ensures
      var answer := Delete(s, id, user, io).1;
      var there := id in s.rows && s.rows[id].state != Deleted;
      && (answer.Ok? <==> there && s.rows[id].owner == user && io == Completes)
      && (answer == Err(NotAvailable) <==> !there)
      && (answer == Err(AccessDenied) <==> there && s.rows[id].owner != user)
      && (answer == Err(StorageUnavailable) <==> there && s.rows[id].owner == user && io != Completes)
  {
  }

  predicate ProperIndices(size: nat, indices: seq<int>)
  {
    && 1 <= |indices| <= 16
    && (forall k :: 0 <= k < |indices| ==> 0 <= indices[k] < ChunkCount(size))
    && (forall j, k :: 0 <= j < k < |indices| ==> indices[j] != indices[k])
  }

  /** Anyone may read a ready file in time, at most sixteen different chunks of it at once. */
  lemma ReadExactly(s: Store, id: FileId, indices: seq<int>, now: int)
    ensures
      var answer := ReadAnswer(s, id, indices, now);
      var there := id in s.rows && s.rows[id].state != Deleted;
      var ready := InTime(s.rows, id, now) && s.rows[id].state == Ready;
      && (answer.Ok? <==> ready && ProperIndices(s.rows[id].size, indices))
      && (answer == Err(NotAvailable) <==> !there)
      && (answer == Err(FileExpired) <==> there && !InTime(s.rows, id, now))
      && (answer == Err(UploadIncomplete) <==> InTime(s.rows, id, now) && s.rows[id].state == Uploading)
      && (answer == Err(InvalidRequest) <==> ready && !ProperIndices(s.rows[id].size, indices))
      && (answer.Ok? ==>
            && |answer.value| == |indices|
            && forall k :: 0 <= k < |indices| ==> answer.value[k] == PayloadLength(s.rows[id].size, indices[k]))
  {
  }

  // --------------------------------------------------------------------- create

  /** There is room for another file of this size under each of the five limits. */
  ghost predicate HasRoom(rows: map<FileId, Row>, user: User, size: int, now: int)
  {
    && |UnexpiredOf(rows, user, now)| < 2
    && |ActiveSizes(rows)| < 1000
    && |RecordsOf(rows, user)| < 100
    && Sum(ActiveSizes(rows)) + size <= GLOBAL_QUOTA
    && Sum(OwnerSizes(rows, user)) + size <= OWNER_QUOTA
  }

  /** A request within its own bounds makes a new file, repeats an old one or is refused, on these grounds. */
  lemma AdmittedExactly(rows: map<FileId, Row>, id: FileId, user: User, size: int, ttl: int, envelope: string, now: int)
    ensures
      var a := Admit(rows, id, user, size, ttl, envelope, now);
      var proper := 0 <= size <= MAX_FILE_SIZE && 60 <= ttl <= 86400;
      var there := id in rows && rows[id].state != Deleted;
      var same := there && rows[id].owner == user && rows[id].envelope == envelope;
      && (a == Fresh <==> proper && id !in rows && HasRoom(rows, user, size, now))
      && (a.Retry? <==> proper && same)
      && (a.Retry? ==> a.row == rows[id])
      && (a == Refused(InvalidRequest) <==> !proper)
      && (a == Refused(NotAvailable) <==> proper && id in rows && !there)
      && (a == Refused(UploadConflict) <==> proper && there && !same)
      && (a == Refused(ActiveFileLimit) <==> proper && id !in rows && |UnexpiredOf(rows, user, now)| >= 2)
      && (a == Refused(StorageFull) <==>
            proper && id !in rows && |UnexpiredOf(rows, user, now)| < 2 && !HasRoom(rows, user, size, now))
  {
  }

  /** A create succeeds exactly as a repetition, or as a new file for which the disk had no leftover and no failure. */
  lemma CreatedExactly(s: Store, id: FileId, user: User, size: int, ttl: int, envelope: string, now: int, io: Io)
    ensures
      var (t, answer) := Create(s, id, user, size, ttl, envelope, now, io);
      var a := Admit(s.rows, id, user, size, ttl, envelope, now);
      && (answer.Ok? <==> a.Retry? || (a == Fresh && io == Completes && id !in s.blobs))
      && (answer.Ok? && a == Fresh ==>
            && t.rows == s.rows[id := Row(user, size, now + ttl, now, Uploading, envelope)]
            && t.blobs == s.blobs[id := Blob([], {}, {})])
  {
  }

  // -------------------------------------------------------------------- expiry

  /** A committed clean-up drops a record that was deleted or has been expired for a week, and marks any other. */
  lemma ExpiredExactly(s: Store, id: FileId, cutoff: int)
    requires id in s.rows
    ensures
      var t := Expire(s, id, cutoff, Completes);
      var over := s.rows[id].state == Deleted || s.rows[id].expires + 7 * 86400 < cutoff;
      && (id in t.rows <==> !over)
      && (id in t.rows ==> t.rows[id] == s.rows[id].(state := Expired))
      && id !in t.index && id !in t.leases
      && (forall f :: f != id ==> (f in t.rows <==> f in s.rows) && (f in t.index <==> f in s.index))
      && (forall f :: f != id && f in s.rows ==> t.rows[f] == s.rows[f])
      && (forall f :: f != id && f in s.index ==> t.index[f] == s.index[f])
  {
  }
}
