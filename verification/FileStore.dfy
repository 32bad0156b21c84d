/**
 * The file store as the control process runs it: an object whose tables are
 * updated in place, statement by statement, with the loops of the original. Each
 * operation is proved to compute the function that the protocol is stated over.
 */
module FileStoreObject {
  import opened Outcomes
  import opened Slots
  import opened Sums
  import opened Storage
  import opened UploadProtocol
  import opened FileAnswers
  import opened UploadSafety
  import opened Quotas

  /** The decoded form of a create request: a client of the older access model, texts that do not decode, or neither. */
  datatype Form = NamesAccess | Malformed | WellFormed

  /** Only present files are indexed, within their size, and a ready file lacks no chunk. */
  ghost predicate IndexSound(s: Store)
  {
    && (forall id :: id in s.index ==> id in s.rows && FileFits(s.rows[id], s.index[id], None))
    && (forall id :: id in s.rows ==> ReadyComplete(s.rows[id], ChunksOf(s, id)))
  }

  /** Counting the chunks is enough: a file that finishes has every one. */
  lemma FinishCompletes(s: Store, id: FileId, user: User, now: int)
    requires IndexSound(s)
    ensures
      var (t, r) := Storage.Finish(s, id, user, now);
      && IndexSound(t)
      && (r.Ok? ==> id in t.rows && t.rows[id].state == Ready
                    && forall i: nat :: i < ChunkCount(t.rows[id].size) <==> i in ChunksOf(t, id))
  {
    var t := Storage.Finish(s, id, user, now).0;
    FinishEffect(s, id, user, now);
    if t != s && id in s.index {
      CountMakesComplete(s.rows[id], s.index[id], None);
    }
    if t != s {
      forall f | f in t.index ensures FileFits(t.rows[f], t.index[f], None) {
        assert FileFits(s.rows[f], s.index[f], None);
      }
    }
  }

  /** Only the owner finishes, in time, and exactly when no chunk is missing. */
  lemma FinishAnswers(s: Store, id: FileId, user: User, now: int)
    requires IndexSound(s)
    ensures
      var r := Storage.Finish(s, id, user, now).1;
      && (r.Ok? <==>
            && InTime(s.rows, id, now) && s.rows[id].owner == user
            && forall i: nat :: i < ChunkCount(s.rows[id].size) ==> i in ChunksOf(s, id))
      && (forall e :: r == Err(e) <==> FinishGrounds(s, id, user, now, e))
  {
    forall e {
      FinishedExactly(s, id, user, now, e);
    }
    if InTime(s.rows, id, now) {
      AllIsCount(s.rows[id], ChunksOf(s, id));
    }
  }

  /** Within the size of the file, having every chunk is having as many as there are. */
  lemma AllIsCount(row: Row, chunks: map<nat, Digest>)
    requires forall i :: i in chunks ==> i < ChunkCount(row.size)
    ensures (forall i: nat :: i < ChunkCount(row.size) ==> i in chunks) <==> |chunks| == ChunkCount(row.size)
  {
    assert |chunks| == |chunks.Keys|;
    if |chunks| == ChunkCount(row.size) {
      CountFillsRange(chunks.Keys, ChunkCount(row.size));
    }
    if forall i: nat :: i < ChunkCount(row.size) ==> i in chunks {
      assert chunks.Keys == Below(ChunkCount(row.size));
      BelowSize(ChunkCount(row.size));
    }
  }

  lemma DeleteForgets(s: Store, id: FileId, user: User, io: Io)
    requires IndexSound(s)
    ensures
      var (t, r) := Storage.Delete(s, id, user, io);
      && IndexSound(t)
      && (r.Ok? ==> id in t.rows && t.rows[id].state == Deleted && id !in t.index && id !in t.leases && id !in t.blobs)
      && (r.Err? ==> t.rows == s.rows && t.index == s.index)
  {
  }

  lemma CreateIndexes(s: Store, id: FileId, user: User, size: int, ttl: int, envelope: string, now: int, io: Io)
    requires IndexSound(s)
    ensures IndexSound(Storage.Create(s, id, user, size, ttl, envelope, now, io).0)
  {
    CreateEffect(s, id, user, size, ttl, envelope, now, io);
    var t := Storage.Create(s, id, user, size, ttl, envelope, now, io).0;
    if t != s {
      forall f | f in t.rows ensures ReadyComplete(t.rows[f], ChunksOf(t, f)) {
        assert f != id ==> f in s.rows && t.rows[f] == s.rows[f];
      }
    }
  }

  lemma CommitIndexes(s: Store, id: FileId, user: User, chunks: seq<Chunk>, token: Token, now: int, mono: int)
    requires IndexSound(s)
    ensures
      var (t, r) := Storage.Commit(s, id, user, chunks, token, now, mono);
      && IndexSound(t)
      && (r.Ok? ==> forall k :: 0 <= k < |chunks| ==> DigestAt(t, id, chunks[k].index) == Some(chunks[k].digest))
      && (r.Err? ==> t == s)
  {
    CommitEffect(s, id, user, chunks, token, now, mono);
    if Storage.Commit(s, id, user, chunks, token, now, mono).1.Ok? {
      IndexedFits(s.rows[id], ChunksOf(s, id), chunks);
    }
  }

  lemma PrepareAnswers(s: Store, id: FileId, user: User, chunks: seq<Chunk>, now: int, mono: int, token: Token)
    ensures
      var (t, r) := Storage.Prepare(s, id, user, chunks, now, mono, token);
      && (r.Ok? <==> MayUpload(s, id, user, chunks, now) && LeaseToBeHad(s.leases, id, mono))
      && (forall e :: e != Busy ==> (r == Err(e) <==> UploadGrounds(s, id, user, chunks, now, e)))
      && (r.Ok? ==>
            && id in s.rows && s.rows[id].owner == user && id in t.leases && r.value.token == token
            && t.leases[id] == Lease(token, mono + 120, Binding(user, s.rows[id].created, s.rows[id].envelope,
                                                                s.rows[id].size, chunks)))
      && (r.Ok? ==> forall i :: i in r.value.write <==> i in Named(chunks) && i !in ChunksOf(s, id))
  {
    PreparedExactly(s, id, user, chunks, now, mono, token);
    forall e | e != Busy {
      PrepareRefusedExactly(s, id, user, chunks, now, mono, token, e);
    }
    if Storage.Prepare(s, id, user, chunks, now, mono, token).1.Ok? {
      PrepareMeans(s, id, user, chunks, now, mono, token);
    }
  }

  lemma CommitAnswers(s: Store, id: FileId, user: User, chunks: seq<Chunk>, token: Token, now: int, mono: int)
    ensures
      var (t, r) := Storage.Commit(s, id, user, chunks, token, now, mono);
      && (r.Ok? <==> MayUpload(s, id, user, chunks, now) && LeasedFor(s, id, token, chunks, mono))
      && (forall e :: e != Busy ==> (r == Err(e) <==> UploadGrounds(s, id, user, chunks, now, e)))
      && (r.Ok? ==> id in t.rows && t.rows[id].owner == user && id !in t.leases)
  {
    CommittedExactly(s, id, user, chunks, token, now, mono);
    CommitEffect(s, id, user, chunks, token, now, mono);
    forall e | e != Busy {
      CommitRefusedExactly(s, id, user, chunks, token, now, mono, e);
    }
  }

  /** Indexing acceptable chunks stays within the size of the file and records all of them. */
  lemma IndexedFits(row: Row, existing: map<nat, Digest>, chunks: seq<Chunk>)
    requires row.state == Uploading && Passes(row.size, existing, chunks)
    requires forall i :: i in existing ==> i < ChunkCount(row.size)
    ensures FileFits(row, Indexed(existing, chunks), None) && ReadyComplete(row, Indexed(existing, chunks))
    ensures forall k :: 0 <= k < |chunks| ==>
      && 0 <= chunks[k].index && chunks[k].index in Indexed(existing, chunks)
      && Indexed(existing, chunks)[chunks[k].index] == chunks[k].digest
  {
    IndexedMeaning(row.size, existing, chunks);
    assert forall k :: 0 <= k < |chunks| ==> Acceptable(row.size, existing, chunks[k]);
  }

  /** The validation loop over a chunk list. */
  method ScanChunks(size: nat, existing: map<nat, Digest>, chunks: seq<Chunk>) returns (r: Result<Scanned, FileError>)
    ensures r == Scan(size, existing, chunks)
  {
    var count := ChunkCount(size);
    var seen: set<nat>, writes: seq<nat> := {}, [];
    var i := 0;
    while i < |chunks|
      invariant 0 <= i <= |chunks|
      invariant Scan(size, existing, chunks[..i]) == Ok(Scanned(seen, writes))
    {
      var c := chunks[i];
      assert chunks[..i + 1][..i] == chunks[..i];
      if !(0 <= c.index < count) {
        FailureIsFinal(size, existing, chunks, i + 1);
        return Err(InvalidRequest);
      }
      if c.index in seen || c.length != PayloadLength(size, c.index) {
        FailureIsFinal(size, existing, chunks, i + 1);
        return Err(InvalidChunk);
      }
      seen := seen + {c.index};
      if c.index in existing {
        if existing[c.index] != c.digest {
          FailureIsFinal(size, existing, chunks, i + 1);
          return Err(ChunkConflict);
        }
      } else {
        writes := writes + [c.index];
      }
      i := i + 1;
    }
    assert chunks[..i] == chunks;
    return Ok(Scanned(seen, writes));
  }

  /** The SUM queries. */
  method Total(sizes: map<FileId, nat>) returns (total: nat)
    ensures total == Sum(sizes)
  {
    total := 0;
    var rest := sizes;
    while rest != map[]
      invariant total + Sum(rest) == Sum(sizes)
      decreases |rest|
    {
      var k :| k in rest;
      SumRemove(rest, k);
      assert (rest - {k}).Keys == rest.Keys - {k};
      total := total + rest[k];
      rest := rest - {k};
    }
  }

  lemma CreatedRow(s: Store, id: FileId, user: User, size: int, ttl: int, envelope: string, now: int, io: Io)
    ensures
      var (t, r) := Storage.Create(s, id, user, size, ttl, envelope, now, io);
      && (r.Ok? ==> id in t.rows && t.rows[id] == r.value && r.value.owner == user && r.value.envelope == envelope)
      && (r.Ok? && id in s.rows ==> r.value == s.rows[id] && t == s)
  {
  }

  class FileStore {
    var rows: map<FileId, Row>
    var index: map<FileId, map<nat, Digest>>
    var leases: map<FileId, Lease>
    var blobs: map<FileId, Blob>

    function Contents(): Store
      reads this
    {
      Store(rows, index, leases, blobs)
    }

    ghost predicate Valid()
      reads this
    {
      IndexSound(Contents())
    }

    constructor ()
      ensures Valid() && Contents() == EMPTY_STORE
    {
      rows, index, leases, blobs := map[], map[], map[], map[];
    }

    /** The checks shared by prepare and commit. */
    method Check(id: FileId, user: User, chunks: seq<Chunk>, now: int) returns (r: Result<Scanned, FileError>)
      ensures r == Validate(Contents(), id, user, chunks, now)
    {
      if id !in rows || rows[id].state == Deleted {
        return Err(NotAvailable);
      }
      var row := rows[id];
      if row.expires <= now || row.state == Expired {
        return Err(FileExpired);
      }
      if row.owner != user {
        return Err(AccessDenied);
      }
      if row.state != Uploading {
        return Err(UploadClosed);
      }
      if !(1 <= |chunks| <= BATCH_CHUNKS) {
        return Err(InvalidRequest);
      }
      r := ScanChunks(row.size, ChunksOf(Contents(), id), chunks);
    }

    /** Drops the leases that have run out, one by one. */
    method PurgeLeases(mono: int)
      modifies this`leases
      ensures leases == LiveLeases(old(leases), mono)
    {
      var pending := leases.Keys;
      while pending != {}
        invariant pending <= leases.Keys <= old(leases).Keys
        invariant forall k :: k in leases ==> leases[k] == old(leases)[k] && (k in pending || leases[k].expires > mono)
        invariant forall k :: k in old(leases) && old(leases)[k].expires > mono ==> k in leases
        decreases |pending|
      {
        var k :| k in pending;
        if leases[k].expires <= mono {
          leases := leases - {k};
        }
        pending := pending - {k};
      }
    }

    method Prepare(id: FileId, user: User, chunks: seq<Chunk>, now: int, mono: int, token: Token)
      returns (r: Result<Plan, FileError>)
      requires Valid()
      modifies this`leases
      ensures Valid()
      ensures r.Ok? <==> MayUpload(old(Contents()), id, user, chunks, now) && LeaseToBeHad(old(leases), id, mono)
      ensures forall e :: e != Busy ==> (r == Err(e) <==> UploadGrounds(old(Contents()), id, user, chunks, now, e))
      ensures r.Ok? ==>
        && id in rows && rows[id].owner == user && id in leases && r.value.token == token
        && leases[id] ==
             Lease(token, mono + 120, Binding(user, rows[id].created, rows[id].envelope, rows[id].size, chunks))
      ensures r.Ok? ==> forall i :: i in r.value.write <==> i in Named(chunks) && i !in ChunksOf(Contents(), id)
      ensures Contents() == Storage.Prepare(old(Contents()), id, user, chunks, now, mono, token).0
      ensures r == Storage.Prepare(old(Contents()), id, user, chunks, now, mono, token).1
    {
      PrepareAnswers(Contents(), id, user, chunks, now, mono, token);
      r := Grant(id, user, chunks, now, mono, token);
    }

    method Grant(id: FileId, user: User, chunks: seq<Chunk>, now: int, mono: int, token: Token)
      returns (r: Result<Plan, FileError>)
      modifies this`leases
      ensures Contents() == Storage.Prepare(old(Contents()), id, user, chunks, now, mono, token).0
      ensures r == Storage.Prepare(old(Contents()), id, user, chunks, now, mono, token).1
    {
      var scanned := Check(id, user, chunks, now);
      if scanned.Err? {
        return Err(scanned.error);
      }
      PurgeLeases(mono);
      if id !in leases && |leases| >= MAX_LEASES {
        return Err(Busy);
      }
      leases := leases[id := Lease(token, mono + LEASE_SECONDS, BindingOf(rows[id], chunks))];
      return Ok(Plan(scanned.value.writes, scanned.value.seen, token));
    }

    method Commit(id: FileId, user: User, chunks: seq<Chunk>, token: Token, now: int, mono: int)
      returns (r: Result<set<nat>, FileError>)
      requires Valid()
      modifies this`index, this`leases
      ensures Valid()
      ensures r.Ok? <==>
        MayUpload(old(Contents()), id, user, chunks, now) && LeasedFor(old(Contents()), id, token, chunks, mono)
      ensures forall e :: e != Busy ==> (r == Err(e) <==> UploadGrounds(old(Contents()), id, user, chunks, now, e))
      ensures r.Ok? ==> id in rows && rows[id].owner == user && id !in leases
      ensures r.Ok? ==>
        forall k :: 0 <= k < |chunks| ==> DigestAt(Contents(), id, chunks[k].index) == Some(chunks[k].digest)
      ensures r.Err? ==> Contents() == old(Contents())
      ensures Contents() == Storage.Commit(old(Contents()), id, user, chunks, token, now, mono).0
      ensures r == Storage.Commit(old(Contents()), id, user, chunks, token, now, mono).1
    {
      CommitIndexes(Contents(), id, user, chunks, token, now, mono);
      CommitAnswers(Contents(), id, user, chunks, token, now, mono);
      r := Insert(id, user, chunks, token, now, mono);
    }

    method Insert(id: FileId, user: User, chunks: seq<Chunk>, token: Token, now: int, mono: int)
      returns (r: Result<set<nat>, FileError>)
      modifies this`index, this`leases
      ensures Contents() == Storage.Commit(old(Contents()), id, user, chunks, token, now, mono).0
      ensures r == Storage.Commit(old(Contents()), id, user, chunks, token, now, mono).1
    {
      var scanned := Check(id, user, chunks, now);
      if scanned.Err? {
        return Err(scanned.error);
      }
      if id !in leases || leases[id].token != token || leases[id].expires <= mono
         || leases[id].binding != BindingOf(rows[id], chunks) {
        return Err(Busy);
      }
      var existing := ChunksOf(Contents(), id);
      var table := existing;
      var i := 0;
      while i < |chunks|
        invariant 0 <= i <= |chunks|
        invariant table == Indexed(existing, chunks[..i])
      {
        assert chunks[..i + 1][..i] == chunks[..i];
        if chunks[i].index >= 0 && chunks[i].index !in existing {
          table := table[chunks[i].index := chunks[i].digest];
        }
        i := i + 1;
      }
      assert chunks[..i] == chunks;
      index := index[id := table];
      leases := leases - {id};
      return Ok(scanned.value.seen);
    }

    /** The checks of a create request, before anything is changed. */
    method AdmitRequest(form: Form, id: FileId, user: User, size: int, ttl: int, envelope: string, now: int)
      returns (a: Admission)
      ensures form.WellFormed? ==> a == Admit(rows, id, user, size, ttl, envelope, now)
      ensures !form.WellFormed? ==>
        var outdated := form.NamesAccess? && 0 <= size <= MAX_FILE_SIZE && 60 <= ttl <= MAX_EXPIRY;
        a == Refused(if outdated then AccessModelChanged else InvalidRequest)
    {
      if !(0 <= size <= MAX_FILE_SIZE) || !(60 <= ttl <= MAX_EXPIRY) {
        return Refused(InvalidRequest);
      }
      if form.NamesAccess? {
        return Refused(AccessModelChanged);
      }
      if form.Malformed? {
        return Refused(InvalidRequest);
      }
      if id in rows {
        if rows[id].state == Deleted {
          return Refused(NotAvailable);
        }
        if rows[id].owner != user || rows[id].envelope != envelope {
          return Refused(UploadConflict);
        }
        return Retry(rows[id]);
      }
      if |UnexpiredOf(rows, user, now)| >= MAX_ACTIVE_FILES_PER_OWNER {
        return Refused(ActiveFileLimit);
      }
      var everyone := Total(ActiveSizes(rows));
      var own := Total(OwnerSizes(rows, user));
      if |ActiveSizes(rows)| >= MAX_ACTIVE_FILES || |RecordsOf(rows, user)| >= MAX_RECORDS_PER_OWNER
         || everyone + size > GLOBAL_QUOTA || own + size > OWNER_QUOTA {
        return Refused(StorageFull);
      }
      return Fresh;
    }

    method StartFile(id: FileId, row: Row, io: Io) returns (r: Result<Row, FileError>)
      modifies this`rows, this`leases, this`blobs
      ensures (Contents(), r) == CreateFresh(old(Contents()), id, row, io)
    {
      leases := leases - {id};
      if io == FailsEarly || id in blobs {
        return Err(StorageUnavailable);
      }
      blobs := blobs[id := Blob([], {}, {})];
      if io == FailsLate {
        return Err(StorageUnavailable);
      }
      rows := rows[id := row];
      return Ok(row);
    }

    /** Creates a file within every limit; a repeated request gets the same row and changes nothing. */
    method Create(form: Form, id: FileId, user: User, size: int, ttl: int, envelope: string, now: int, io: Io)
      returns (r: Result<Row, FileError>)
      requires Valid()
      modifies this`rows, this`leases, this`blobs
      ensures Valid() && (WithinQuota(old(rows), now) ==> WithinQuota(rows, now))
      ensures form.WellFormed? ==>
        (Contents(), r) == Storage.Create(old(Contents()), id, user, size, ttl, envelope, now, io)
      ensures !form.WellFormed? ==> r.Err? && Contents() == old(Contents())
      ensures r.Ok? && id in old(rows) ==> r.value == old(rows)[id] && Contents() == old(Contents())
      ensures r.Ok? ==> id in rows && rows[id] == r.value && r.value.owner == user && r.value.envelope == envelope
    {
      CreateIndexes(Contents(), id, user, size, ttl, envelope, now, io);
      CreatedRow(Contents(), id, user, size, ttl, envelope, now, io);
      if WithinQuota(rows, now) {
        CreateKeepsQuota(Contents(), id, user, size, ttl, envelope, now, io);
      }
      var admission := AdmitRequest(form, id, user, size, ttl, envelope, now);
      match admission {
        case Refused(e) => return Err(e);
        case Retry(row) => return Ok(row);
        case Fresh => r := StartFile(id, Row(user, size, now + ttl, now, Uploading, envelope), io);
      }
    }

    /** A file becomes ready exactly when its owner finishes it in time with no chunk missing. */
    method Finish(id: FileId, user: User, now: int) returns (r: Result<(), FileError>)
      requires Valid()
      modifies this`rows
      ensures Valid()
      ensures Contents() == Storage.Finish(old(Contents()), id, user, now).0
      ensures r == Storage.Finish(old(Contents()), id, user, now).1
      ensures r.Ok? <==>
        && InTime(old(rows), id, now) && old(rows)[id].owner == user
        && forall i: nat :: i < ChunkCount(old(rows)[id].size) ==> i in ChunksOf(Contents(), id)
      ensures forall e :: r == Err(e) <==> FinishGrounds(old(Contents()), id, user, now, e)
      ensures r.Ok? ==> rows == old(rows)[id := old(rows)[id].(state := Ready)]
      ensures r.Ok? ==> forall i: nat :: i < ChunkCount(rows[id].size) <==> i in ChunksOf(Contents(), id)
    {
      FinishCompletes(Contents(), id, user, now);
      FinishAnswers(Contents(), id, user, now);
      if id !in rows || rows[id].state == Deleted {
        return Err(NotAvailable);
      }
      var row := rows[id];
      if row.owner != user {
        return Err(AccessDenied);
      }
      if row.expires <= now || row.state == Expired {
        return Err(FileExpired);
      }
      if |ChunksOf(Contents(), id)| != ChunkCount(row.size) {
        return Err(UploadIncomplete);
      }
      rows := rows[id := row.(state := Ready)];
      return Ok(());
    }

    /**
     * A delete that succeeds leaves only a marked row; one that fails keeps row and index, and may
     * have lost lease and blob.
     */
    method Delete(id: FileId, user: User, io: Io) returns (r: Result<(), FileError>)
      requires Valid()
      modifies this
      ensures Valid()
      ensures r.Ok? ==> id in rows && rows[id].state == Deleted && id !in index && id !in leases && id !in blobs
      ensures r.Err? ==> rows == old(rows) && index == old(index)
      ensures r.Ok? <==>
        id in old(rows) && old(rows)[id].state != Deleted && old(rows)[id].owner == user && io == Completes
      ensures r == Err(AccessDenied) <==>
        id in old(rows) && old(rows)[id].state != Deleted && old(rows)[id].owner != user
      ensures Contents() == Storage.Delete(old(Contents()), id, user, io).0
      ensures r == Storage.Delete(old(Contents()), id, user, io).1
    {
      DeleteForgets(Contents(), id, user, io);
      DeletedExactly(Contents(), id, user, io);
      if id !in rows || rows[id].state == Deleted {
        return Err(NotAvailable);
      }
      if rows[id].owner != user {
        return Err(AccessDenied);
      }
      leases := leases - {id};
      if io == FailsEarly {
        return Err(StorageUnavailable);
      }
      blobs := blobs - {id};
      if io == FailsLate {
        return Err(StorageUnavailable);
      }
      rows := rows[id := rows[id].(state := Deleted)];
      index := index - {id};
      return Ok(());
    }
  }
}
