/**
 * The metadata and blobs of temporary encrypted files: table of files, chunk
 * index, upload leases and blob contents, with each storage operation as a
 * function from the old contents to the new ones.
 */
module Storage {
  import opened Outcomes
  import opened Bytes
  import opened Slots
  import opened Sums

  type FileId = string
  type User = string
  type Token = nat

  const MAX_LEASES: nat := 2048
  const LEASE_SECONDS: int := 120
  const MAX_FILE_SIZE: nat := 0xC000_0000
  const OWNER_QUOTA: nat := MAX_FILE_SIZE
  const GLOBAL_QUOTA: nat := 0x2_8000_0000
  const MAX_EXPIRY: int := 86400
  const MAX_ACTIVE_FILES_PER_OWNER: nat := 2
  const MAX_ACTIVE_FILES: nat := 1000
  const MAX_RECORDS_PER_OWNER: nat := 100
  const RECORD_RETENTION: int := 7 * 86400

  /** An ideal digest: equal digests have equal preimages. */
  datatype Digest = Sha256(preimage: ByteString)

  datatype RowState = Uploading | Ready | Expired | Deleted

  datatype Row = Row(owner: User, size: nat, expires: int, created: int, state: RowState, envelope: string)

  /** What a chunk request says about one chunk; the ciphertext itself never crosses IPC. */
  datatype Chunk = Chunk(index: int, length: int, digest: Digest)

  datatype Binding = Binding(owner: User, created: int, envelope: string, size: nat, chunks: seq<Chunk>)

  datatype Lease = Lease(token: Token, expires: int, binding: Binding)

  /**
   * A blob and what is known of its durability: `clean` slots were synced after
   * their last write, `dirty` ones were not.
   */
  datatype Blob = Blob(bytes: ByteString, clean: set<nat>, dirty: set<nat>)

  datatype Store = Store(
    rows: map<FileId, Row>,
    index: map<FileId, map<nat, Digest>>,
    leases: map<FileId, Lease>,
    blobs: map<FileId, Blob>)

  const EMPTY_STORE := Store(map[], map[], map[], map[])

  datatype FileError =
    | NotAvailable | FileExpired | AccessDenied | UploadClosed | UploadIncomplete
    | InvalidRequest | InvalidChunk | ChunkConflict | Busy
    | UploadConflict | ActiveFileLimit | StorageFull | StorageUnavailable | AccessModelChanged

  function ChunksOf(s: Store, id: FileId): map<nat, Digest>
  {
    if id in s.index then s.index[id] else map[]
  }

  /** A deleted record is as good as none until it is purged. */
  function Lookup(rows: map<FileId, Row>, id: FileId): (r: Option<Row>)
    ensures r.Some? <==> id in rows && rows[id].state != Deleted
  {
    if id in rows && rows[id].state != Deleted then Some(rows[id]) else None
  }

  predicate IsExpired(row: Row, now: int)
  {
    row.expires <= now || row.state == Expired
  }

  // ---------------------------------------------------------------- chunk lists

  datatype Scanned = Scanned(seen: set<nat>, writes: seq<nat>)

  /** One round of the validation loop: the first failing test decides the error. */
  function ScanOne(size: nat, existing: map<nat, Digest>, sofar: Scanned, c: Chunk): Result<Scanned, FileError>
  {
    if !(0 <= c.index < ChunkCount(size)) then Err(InvalidRequest)
    else if c.index in sofar.seen || c.length != PayloadLength(size, c.index) then Err(InvalidChunk)
    else if c.index in existing && existing[c.index] != c.digest then Err(ChunkConflict)
    else Ok(Scanned(sofar.seen + {c.index},
                    if c.index in existing then sofar.writes else sofar.writes + [c.index]))
  }

  function Scan(size: nat, existing: map<nat, Digest>, chunks: seq<Chunk>): Result<Scanned, FileError>
  {
    if chunks == [] then Ok(Scanned({}, []))
    else
      match Scan(size, existing, chunks[..|chunks| - 1])
      case Err(e) => Err(e)
      case Ok(sofar) => ScanOne(size, existing, sofar, chunks[|chunks| - 1])
  }

  predicate DistinctIndices(chunks: seq<Chunk>)
  {
    forall i, j :: 0 <= i < j < |chunks| ==> chunks[i].index != chunks[j].index
  }

  /** A chunk that fits the file and does not contradict what is already stored. */
  predicate Acceptable(size: nat, existing: map<nat, Digest>, c: Chunk)
  {
    && 0 <= c.index < ChunkCount(size)
    && c.length == PayloadLength(size, c.index)
    && (c.index in existing ==> existing[c.index] == c.digest)
  }

  predicate Passes(size: nat, existing: map<nat, Digest>, chunks: seq<Chunk>)
  {
    DistinctIndices(chunks) && forall k :: 0 <= k < |chunks| ==> Acceptable(size, existing, chunks[k])
  }

  /** The chunk indices that a list names. */
  function Named(chunks: seq<Chunk>): (r: set<int>)
    ensures forall k :: 0 <= k < |chunks| ==> chunks[k].index in r
    ensures forall i :: i in r ==> exists k :: 0 <= k < |chunks| && chunks[k].index == i
  {
    set k | 0 <= k < |chunks| :: chunks[k].index
  }

  lemma PassesStep(size: nat, existing: map<nat, Digest>, chunks: seq<Chunk>, c: Chunk)
    ensures Named(chunks + [c]) == Named(chunks) + {c.index}
    ensures Passes(size, existing, chunks + [c]) <==>
              Passes(size, existing, chunks) && Acceptable(size, existing, c) && c.index !in Named(chunks)
  {
    var all := chunks + [c];
    assert all[|chunks|] == c;
    assert forall k :: 0 <= k < |chunks| ==> all[k] == chunks[k];
    forall i | i in Named(chunks) + {c.index}
      ensures i in Named(all)
    {
      if i in Named(chunks) {
        var k :| 0 <= k < |chunks| && chunks[k].index == i;
        assert all[k].index == i;
      }
    }
    if Passes(size, existing, all) {
      assert DistinctIndices(chunks) by {
        forall i, j | 0 <= i < j < |chunks| ensures chunks[i].index != chunks[j].index {
          assert all[i].index != all[j].index;
        }
      }
    }
  }

  /** What a passed scan reports about a list. */
  ghost predicate Reports(existing: map<nat, Digest>, chunks: seq<Chunk>, s: Scanned)
  {
    && (forall i :: i in s.seen <==> i in Named(chunks))
    && (forall i :: i in s.writes <==> i in s.seen && i !in existing)
    && |s.seen| == |chunks|
  }

  lemma ScanStep(size: nat, existing: map<nat, Digest>, chunks: seq<Chunk>, sofar: Scanned, c: Chunk)
    requires Reports(existing, chunks, sofar)
    ensures var r := ScanOne(size, existing, sofar, c);
            && (r.Ok? <==> Acceptable(size, existing, c) && c.index !in Named(chunks))
            && (r.Ok? ==> Reports(existing, chunks + [c], r.value))
  {
    PassesStep(size, existing, chunks, c);
  }

  /** The scan, said without its loop: which lists pass, and what they ask to be written. */
  lemma {:induction false} ScanMeaning(size: nat, existing: map<nat, Digest>, chunks: seq<Chunk>)
    ensures Scan(size, existing, chunks).Ok? <==> Passes(size, existing, chunks)
    ensures Scan(size, existing, chunks).Ok? ==> Reports(existing, chunks, Scan(size, existing, chunks).value)
  {
    if chunks != [] {
      var init, c := chunks[..|chunks| - 1], chunks[|chunks| - 1];
      ScanMeaning(size, existing, init);
      assert chunks == init + [c];
      PassesStep(size, existing, init, c);
      if Scan(size, existing, init).Ok? {
        ScanStep(size, existing, init, Scan(size, existing, init).value, c);
      }
    }
  }

  /** Once a prefix has failed, the whole list fails in the same way. */
  lemma {:induction false} FailureIsFinal(size: nat, existing: map<nat, Digest>, chunks: seq<Chunk>, n: nat)
    requires n <= |chunks| && Scan(size, existing, chunks[..n]).Err?
    ensures Scan(size, existing, chunks) == Scan(size, existing, chunks[..n])
    decreases |chunks|
  {
    if n == |chunks| {
      assert chunks[..n] == chunks;
    } else {
      assert chunks[..|chunks| - 1][..n] == chunks[..n];
      FailureIsFinal(size, existing, chunks[..|chunks| - 1], n);
    }
  }

  // ------------------------------------------------------- prepare and commit

  datatype Plan = Plan(write: seq<nat>, received: set<nat>, token: Token)

  /** The checks that prepare and commit share, in the order they are made. */
  function Validate(s: Store, id: FileId, user: User, chunks: seq<Chunk>, now: int): Result<Scanned, FileError>
  {
    match Lookup(s.rows, id)
    case None => Err(NotAvailable)
    case Some(row) =>
      if IsExpired(row, now) then Err(FileExpired)
      else if row.owner != user then Err(AccessDenied)
      else if row.state != Uploading then Err(UploadClosed)
      else if !(1 <= |chunks| <= BATCH_CHUNKS) then Err(InvalidRequest)
      else Scan(row.size, ChunksOf(s, id), chunks)
  }

  function BindingOf(row: Row, chunks: seq<Chunk>): Binding
  {
    Binding(row.owner, row.created, row.envelope, row.size, chunks)
  }

  function LiveLeases(leases: map<FileId, Lease>, mono: int): map<FileId, Lease>
  {
    map k | k in leases && leases[k].expires > mono :: leases[k]
  }

  function Prepare(s: Store, id: FileId, user: User, chunks: seq<Chunk>, now: int, mono: int, token: Token)
    : (Store, Result<Plan, FileError>)
  {
    match Validate(s, id, user, chunks, now)
    case Err(e) => (s, Err(e))
    case Ok(scanned) =>
      assert id in s.rows;
      var live := LiveLeases(s.leases, mono);
      if id !in live && |live| >= MAX_LEASES then
        (s.(leases := live), Err(Busy))
      else
        var lease := Lease(token, mono + LEASE_SECONDS, BindingOf(s.rows[id], chunks));
        (s.(leases := live[id := lease]), Ok(Plan(scanned.writes, scanned.seen, token)))
  }

  /** The index of a file with the new chunks of a committed list added. */
  function Indexed(existing: map<nat, Digest>, chunks: seq<Chunk>): map<nat, Digest>
  {
    if chunks == [] then existing
    else
      var c := chunks[|chunks| - 1];
      var rest := Indexed(existing, chunks[..|chunks| - 1]);
      if c.index < 0 || c.index in existing then rest else rest[c.index := c.digest]
  }

  function Commit(s: Store, id: FileId, user: User, chunks: seq<Chunk>, token: Token, now: int, mono: int)
    : (Store, Result<set<nat>, FileError>)
  {
    match Validate(s, id, user, chunks, now)
    case Err(e) => (s, Err(e))
    case Ok(scanned) =>
      assert id in s.rows;
      if id !in s.leases || s.leases[id].token != token || s.leases[id].expires <= mono
         || s.leases[id].binding != BindingOf(s.rows[id], chunks) then (s, Err(Busy))
      else
        (s.(index := s.index[id := Indexed(ChunksOf(s, id), chunks)], leases := s.leases - {id}),
         Ok(scanned.seen))
  }

  lemma {:induction false} IndexedMeaning(size: nat, existing: map<nat, Digest>, chunks: seq<Chunk>)
    requires Passes(size, existing, chunks)
    ensures var r := Indexed(existing, chunks);
            && (forall i :: i in existing ==> i in r && r[i] == existing[i])
            && (forall k :: 0 <= k < |chunks| ==> chunks[k].index in r && r[chunks[k].index] == chunks[k].digest)
            && (forall i :: i in r ==> i in existing || i in Named(chunks))
  {
    if chunks != [] {
      var init, c := chunks[..|chunks| - 1], chunks[|chunks| - 1];
      assert chunks == init + [c];
      PassesStep(size, existing, init, c);
      IndexedMeaning(size, existing, init);
      forall k | 0 <= k < |init|
        ensures chunks[k] == init[k] && init[k].index != c.index
      {
        assert init[k].index in Named(init);
      }
    }
  }

  // ------------------------------------------------------------ file lifecycle

  /** How far an operation got: it may fail before or after its effect on the blob directory. */
  datatype Io = Completes | FailsEarly | FailsLate

  predicate IsActive(row: Row)
  {
    row.state == Uploading || row.state == Ready
  }

  /** Sizes of the active files, of everyone or of one owner. */
  function ActiveSizes(rows: map<FileId, Row>): map<FileId, nat>
  {
    map k | k in rows && IsActive(rows[k]) :: rows[k].size
  }

  function OwnerSizes(rows: map<FileId, Row>, owner: User): map<FileId, nat>
  {
    map k | k in rows && IsActive(rows[k]) && rows[k].owner == owner :: rows[k].size
  }

  function RecordsOf(rows: map<FileId, Row>, owner: User): set<FileId>
  {
    set k | k in rows && rows[k].owner == owner && rows[k].state != Deleted
  }

  function UnexpiredOf(rows: map<FileId, Row>, owner: User, now: int): set<FileId>
  {
    set k | k in rows && rows[k].owner == owner && IsActive(rows[k]) && rows[k].expires > now
  }

  datatype Admission = Retry(row: Row) | Fresh | Refused(error: FileError)

  ghost function Admit(rows: map<FileId, Row>, id: FileId, user: User, size: int, ttl: int, envelope: string, now: int)
    : (r: Admission)
  {
    if !(0 <= size <= MAX_FILE_SIZE) || !(60 <= ttl <= MAX_EXPIRY) then Refused(InvalidRequest)
    else if id in rows then
      if rows[id].state == Deleted then Refused(NotAvailable)
      else if rows[id].owner != user || rows[id].envelope != envelope then Refused(UploadConflict)
      else Retry(rows[id])
    else if |UnexpiredOf(rows, user, now)| >= MAX_ACTIVE_FILES_PER_OWNER then Refused(ActiveFileLimit)
    else if || |ActiveSizes(rows)| >= MAX_ACTIVE_FILES
            || |RecordsOf(rows, user)| >= MAX_RECORDS_PER_OWNER
            || Sum(ActiveSizes(rows)) + size > GLOBAL_QUOTA
            || Sum(OwnerSizes(rows, user)) + size > OWNER_QUOTA then Refused(StorageFull)
    else Fresh
  }

  ghost function Create(s: Store, id: FileId, user: User, size: int, ttl: int, envelope: string, now: int, io: Io)
    : (r: (Store, Result<Row, FileError>))
  {
    match Admit(s.rows, id, user, size, ttl, envelope, now)
    case Refused(e) => (s, Err(e))
    case Retry(row) => (s, Ok(row))
    case Fresh => CreateFresh(s, id, Row(user, size, now + ttl, now, Uploading, envelope), io)
  }

  /** The blob comes first; a leftover blob or a failure leaves no row. */
  function CreateFresh(s: Store, id: FileId, row: Row, io: Io): (r: (Store, Result<Row, FileError>))
  {
    var t := s.(leases := s.leases - {id});
    if io == FailsEarly || id in s.blobs then (t, Err(StorageUnavailable))
    else
      var u := t.(blobs := t.blobs[id := Blob([], {}, {})]);
      if io == FailsLate then (u, Err(StorageUnavailable)) else (u.(rows := u.rows[id := row]), Ok(row))
  }

  function Finish(s: Store, id: FileId, user: User, now: int): (Store, Result<(), FileError>)
  {
    match Lookup(s.rows, id)
    case None => (s, Err(NotAvailable))
    case Some(row) =>
      if row.owner != user then (s, Err(AccessDenied))
      else if IsExpired(row, now) then (s, Err(FileExpired))
      else if |ChunksOf(s, id)| != ChunkCount(row.size) then (s, Err(UploadIncomplete))
      else (s.(rows := s.rows[id := row.(state := Ready)]), Ok(()))
  }

  /** Leases are memory, not database: a failed transaction does not bring one back. */
  function Delete(s: Store, id: FileId, user: User, io: Io): (Store, Result<(), FileError>)
  {
    match Lookup(s.rows, id)
    case None => (s, Err(NotAvailable))
    case Some(row) =>
      if row.owner != user then (s, Err(AccessDenied)) else DeleteOwned(s, id, row, io)
  }

  function DeleteOwned(s: Store, id: FileId, row: Row, io: Io): (Store, Result<(), FileError>)
  {
    var t := s.(leases := s.leases - {id});
    if io == FailsEarly then (t, Err(StorageUnavailable))
    else
      var u := t.(blobs := t.blobs - {id});
      if io == FailsLate then (u, Err(StorageUnavailable))
      else (u.(rows := u.rows[id := row.(state := Deleted)], index := u.index - {id}), Ok(()))
  }

  /** The database half of expiry; the blob was unlinked just before, under the same file lock. */
  function Expire(s: Store, id: FileId, cutoff: int, io: Io): Store
  {
    var t := s.(leases := s.leases - {id});
    if io != Completes then t
    else if id !in s.rows then t.(index := t.index - {id})
    else
      var row := s.rows[id];
      var rows :=
        if row.state == Deleted || row.expires < cutoff - RECORD_RETENTION then s.rows - {id}
        else s.rows[id := row.(state := Expired)];
      t.(rows := rows, index := t.index - {id})
  }

  function Unlink(s: Store, id: FileId): Store
  {
    s.(blobs := s.blobs - {id})
  }
}
