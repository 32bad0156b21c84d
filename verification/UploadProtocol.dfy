/**
 * The two-process upload protocol.
 *
 * The transport child takes the stripe lock of a file, asks the control process to
 * `prepare` (which hands out a lease), writes and syncs the ciphertext, asks it to
 * `commit` the digests, and only then drops the lock. Either side may give up at
 * any time. A request that was sent is executed later or never, on a pool thread,
 * whether or not its sender still waits or holds the lock; requests overtake each
 * other. Finishing, deletion, expiry, re-creation, downloads and crashes with loss
 * of unsynced writes interleave freely with all of this, subject only to the lock.
 */
module UploadProtocol {
  import opened Outcomes
  import opened Bytes
  import opened Slots
  import opened Storage

  type OpId = nat
  type ReaderId = nat
  type Stripe = string

  /** A chunk of ciphertext as the child received it. */
  datatype Part = Part(index: int, data: ByteString)

  function Describe(parts: seq<Part>): (r: seq<Chunk>)
    ensures |r| == |parts|
    ensures forall k :: 0 <= k < |parts| ==> r[k] == Chunk(parts[k].index, |parts[k].data|, Sha256(parts[k].data))
  {
    seq(|parts|, k requires 0 <= k < |parts| => Chunk(parts[k].index, |parts[k].data|, Sha256(parts[k].data)))
  }

  datatype Phase =
    | Waiting
    | Preparing
    | Writing(plan: Plan, next: nat)
    | Committing
    | Gone

  datatype Op = Op(id: FileId, user: User, parts: seq<Part>, phase: Phase)

  datatype ReadPhase =
    | ReadWaiting
    | Asking
    | Planned(lengths: seq<nat>)
    | Done(data: seq<ByteString>)
    | ReadGone

  datatype Reader = Reader(id: FileId, indices: seq<int>, phase: ReadPhase)

  datatype Cleaner = Idle | Cleaning(id: FileId, cutoff: int)

  /** Who holds a stripe lock; a stripe that is not in the table is free. */
  datatype Lock = ByUpload(op: OpId) | ByCleaner | ByReaders(readers: set<ReaderId>)

  /**
   * `prepares` and `commits` are the requests in flight, `replies` the answers to
   * executed prepares; `issued` remembers every lease token ever handed
   * out and the file it was for.
   */
  datatype State = State(
    store: Store,
    ops: map<OpId, Op>,
    prepares: set<OpId>,
    replies: map<OpId, Plan>,
    commits: map<OpId, Token>,
    readers: map<ReaderId, Reader>,
    cleaner: Cleaner,
    locks: map<Stripe, Lock>,
    issued: map<Token, FileId>,
    now: int,
    mono: int)

  /** Steps of the transport child and of the pool threads that serve it. */
  datatype UploadStep =
    | Arrive(op: OpId, id: FileId, user: User, parts: seq<Part>)
    | Acquire(op: OpId)
    | RunPrepare(op: OpId, token: Token)
    | TakePlan(op: OpId)
    | WritePart(op: OpId)
    | SkipPart(op: OpId)
    | WriteTorn(op: OpId, length: nat)
    | SyncAndCommit(op: OpId)
    | RunCommit(op: OpId)
    | Leave(op: OpId)
    | DropRequests(op: OpId)

  /** Operations of the control process on whole files, and its expiry thread. */
  datatype FileStep =
    | CreateFile(id: FileId, user: User, size: int, ttl: int, envelope: string, io: Io)
    | FinishFile(id: FileId, user: User)
    | DeleteFile(id: FileId, user: User, io: Io)
    | CleanBegin(id: FileId, cutoff: int)
    | CleanEnd(id: FileId, io: Io)
    | RemoveOrphan(id: FileId)

  datatype ReadStep =
    | ReadArrive(reader: ReaderId, id: FileId, indices: seq<int>)
    | ReadAcquire(reader: ReaderId)
    | RunRead(reader: ReaderId)
    | ReadBlob(reader: ReaderId)
    | ReadLeave(reader: ReaderId)

  datatype Event =
    | Uploads(upload: UploadStep)
    | Files(file: FileStep)
    | Reads(read: ReadStep)
    | Tick(now: int, mono: int)
    | Restart(survivors: map<FileId, ByteString>)

  // ------------------------------------------------------------------- locking

  function StripeOf(id: FileId): Stripe
  {
    if |id| <= 2 then id else id[..2]
  }

  predicate Holds(op: Op)
  {
    op.phase.Preparing? || op.phase.Writing? || op.phase.Committing?
  }

  predicate HoldsShared(r: Reader)
  {
    r.phase.Asking? || r.phase.Planned?
  }

  predicate Free(s: State, id: FileId)
  {
    StripeOf(id) !in s.locks
  }

  predicate FreeToRead(s: State, id: FileId)
  {
    StripeOf(id) in s.locks ==> s.locks[StripeOf(id)].ByReaders?
  }

  function ReadLock(s: State, id: FileId, r: ReaderId): map<Stripe, Lock>
  {
    var k := StripeOf(id);
    s.locks[k := ByReaders(if k in s.locks && s.locks[k].ByReaders? then s.locks[k].readers + {r} else {r})]
  }

  function ReadUnlock(s: State, id: FileId, r: ReaderId): map<Stripe, Lock>
  {
    var k := StripeOf(id);
    if k in s.locks && s.locks[k].ByReaders? then
      if s.locks[k].readers <= {r} then s.locks - {k} else s.locks[k := ByReaders(s.locks[k].readers - {r})]
    else s.locks
  }

  function Unlock(s: State, id: FileId): map<Stripe, Lock>
  {
    s.locks - {StripeOf(id)}
  }

  // --------------------------------------------------------------------- steps

  function WithPhase(s: State, p: OpId, phase: Phase): State
    requires p in s.ops
  {
    s.(ops := s.ops[p := s.ops[p].(phase := phase)])
  }

  function WithReadPhase(s: State, r: ReaderId, phase: ReadPhase): State
    requires r in s.readers
  {
    s.(readers := s.readers[r := s.readers[r].(phase := phase)])
  }

  function WriteBlob(b: Blob, index: nat, data: ByteString): Blob
  {
    Blob(WriteSlot(b.bytes, index, data), b.clean - {index}, b.dirty + {index})
  }

  function SyncBlob(b: Blob): Blob
  {
    Blob(b.bytes, b.clean + b.dirty, {})
  }

  function BlobWritten(s: Store, id: FileId, index: nat, data: ByteString): Store
    requires id in s.blobs
  {
    s.(blobs := s.blobs[id := WriteBlob(s.blobs[id], index, data)])
  }

  /** After a crash only what was synced is certain; other slots hold anything. */
  ghost predicate Survives(b: Blob, bytes: ByteString)
  {
    forall i: nat, n: nat :: i in b.clean && n <= STRIDE && ReadSlot(b.bytes, i, n).Some? ==>
      ReadSlot(bytes, i, n) == ReadSlot(b.bytes, i, n)
  }

  /** Whether the part at the write cursor is one the plan asks to write. */
  predicate PartWanted(op: Op)
  {
    && op.phase.Writing?
    && op.phase.next < |op.parts|
    && op.parts[op.phase.next].index >= 0
    && op.parts[op.phase.next].index in op.phase.plan.write
  }

  function ReadAnswer(s: Store, id: FileId, indices: seq<int>, now: int): Result<seq<nat>, FileError>
  {
    match Lookup(s.rows, id)
    case None => Err(NotAvailable)
    case Some(row) =>
      if IsExpired(row, now) then Err(FileExpired)
      else if row.state != Ready then Err(UploadIncomplete)
      else if !(1 <= |indices| <= BATCH_CHUNKS) then Err(InvalidRequest)
      else if exists k :: 0 <= k < |indices| && !(0 <= indices[k] < ChunkCount(row.size)) then Err(InvalidRequest)
      else if exists j, k :: 0 <= j < k < |indices| && indices[j] == indices[k] then Err(InvalidRequest)
      else Ok(seq(|indices|, k requires 0 <= k < |indices| => PayloadLength(row.size, indices[k])))
  }

  /** What the child reads from the blob for a planned download; any short read fails it. */
  function ReadAll(blob: ByteString, indices: seq<int>, lengths: seq<nat>): Option<seq<ByteString>>
    requires |lengths| == |indices|
  {
    if exists k :: 0 <= k < |indices| && (indices[k] < 0 || ReadSlot(blob, indices[k], lengths[k]).None?) then None
    else Some(seq(|indices|, k requires 0 <= k < |indices| =>
      if indices[k] >= 0 && ReadSlot(blob, indices[k], lengths[k]).Some?
      then ReadSlot(blob, indices[k], lengths[k]).value else []))
  }

  // Uploads.

  predicate CanAcquire(s: State, p: OpId)
  {
    p in s.ops && s.ops[p].phase.Waiting? && Free(s, s.ops[p].id)
  }

  function Acquired(s: State, p: OpId): State
    requires p in s.ops
  {
    WithPhase(s, p, Preparing).(prepares := s.prepares + {p}, locks := s.locks[StripeOf(s.ops[p].id) := ByUpload(p)])
  }

  predicate CanRunPrepare(s: State, p: OpId, token: Token)
  {
    p in s.prepares && p in s.ops && token !in s.issued
  }

  function PrepareRun(s: State, p: OpId, token: Token): State
    requires p in s.ops
  {
    var op := s.ops[p];
    var (store, answer) := Prepare(s.store, op.id, op.user, Describe(op.parts), s.now, s.mono, token);
    s.(store := store, prepares := s.prepares - {p}, issued := s.issued[token := op.id],
       replies := if answer.Ok? then s.replies[p := answer.value] else s.replies)
  }

  predicate CanTakePlan(s: State, p: OpId)
  {
    && p in s.ops && s.ops[p].phase.Preparing? && p in s.replies
    && (s.replies[p].write == [] || s.ops[p].id in s.store.blobs)
  }

  function PlanTaken(s: State, p: OpId): State
    requires p in s.ops && p in s.replies
  {
    WithPhase(s, p, Writing(s.replies[p], 0))
  }

  predicate CanWritePart(s: State, p: OpId)
  {
    p in s.ops && PartWanted(s.ops[p]) && s.ops[p].id in s.store.blobs
  }

  function Advanced(s: State, p: OpId): State
    requires p in s.ops && s.ops[p].phase.Writing?
  {
    WithPhase(s, p, Writing(s.ops[p].phase.plan, s.ops[p].phase.next + 1))
  }

  function PartWritten(s: State, p: OpId): State
    requires CanWritePart(s, p)
  {
    var op := s.ops[p];
    Advanced(s, p).(store := BlobWritten(s.store, op.id, op.parts[op.phase.next].index, op.parts[op.phase.next].data))
  }

  predicate CanSkipPart(s: State, p: OpId)
  {
    && p in s.ops && s.ops[p].phase.Writing? && s.ops[p].phase.next < |s.ops[p].parts|
    && !PartWanted(s.ops[p])
  }

  predicate CanTear(s: State, p: OpId, n: nat)
  {
    && p in s.ops && PartWanted(s.ops[p]) && s.ops[p].id in s.store.blobs
    && n <= |s.ops[p].parts[s.ops[p].phase.next].data|
  }

  function TornWritten(s: State, p: OpId, n: nat): State
    requires CanTear(s, p, n)
  {
    var op := s.ops[p];
    WithPhase(s, p, Gone).(
      locks := Unlock(s, op.id),
      store := BlobWritten(s.store, op.id, op.parts[op.phase.next].index, op.parts[op.phase.next].data[..n]))
  }

  predicate CanSync(s: State, p: OpId)
  {
    p in s.ops && s.ops[p].phase.Writing? && s.ops[p].phase.next == |s.ops[p].parts|
  }

  /** The sync is skipped when nothing had to be written. */
  function Synced(s: State, p: OpId): State
    requires CanSync(s, p)
  {
    var op := s.ops[p];
    if op.phase.plan.write == [] || op.id !in s.store.blobs then s
    else s.(store := s.store.(blobs := s.store.blobs[op.id := SyncBlob(s.store.blobs[op.id])]))
  }

  function CommitSent(s: State, p: OpId): State
    requires CanSync(s, p)
  {
    WithPhase(s, p, Committing).(commits := s.commits[p := s.ops[p].phase.plan.token])
  }

  function CommitRun(s: State, p: OpId): State
    requires p in s.ops && p in s.commits
  {
    var op := s.ops[p];
    s.(store := Commit(s.store, op.id, op.user, Describe(op.parts), s.commits[p], s.now, s.mono).0,
       commits := s.commits - {p})
  }

  function Left(s: State, p: OpId): State
    requires p in s.ops
  {
    WithPhase(s, p, Gone).(locks := if Holds(s.ops[p]) then Unlock(s, s.ops[p].id) else s.locks)
  }

  function Dropped(s: State, p: OpId): State
  {
    s.(prepares := s.prepares - {p}, commits := s.commits - {p})
  }

  // Expiry.

  predicate CanClean(s: State, id: FileId, cutoff: int)
  {
    && s.cleaner.Idle? && Free(s, id) && id in s.store.rows && cutoff <= s.now
    && (s.store.rows[id].expires <= cutoff || s.store.rows[id].state in {Expired, Deleted})
  }

  function CleanStarted(s: State, id: FileId, cutoff: int): State
  {
    s.(store := Unlink(s.store, id), cleaner := Cleaning(id, cutoff), locks := s.locks[StripeOf(id) := ByCleaner])
  }

  function CleanEnded(s: State, io: Io): State
    requires s.cleaner.Cleaning?
  {
    s.(store := Expire(s.store, s.cleaner.id, s.cleaner.cutoff, io), cleaner := Idle, locks := Unlock(s, s.cleaner.id))
  }

  // Downloads.

  predicate CanReadAcquire(s: State, r: ReaderId)
  {
    r in s.readers && s.readers[r].phase.ReadWaiting? && FreeToRead(s, s.readers[r].id)
  }

  function ReadAcquired(s: State, r: ReaderId): State
    requires r in s.readers
  {
    WithReadPhase(s, r, Asking).(locks := ReadLock(s, s.readers[r].id, r))
  }

  function ReadEnded(s: State, r: ReaderId, phase: ReadPhase): State
    requires r in s.readers
  {
    var locks := if HoldsShared(s.readers[r]) then ReadUnlock(s, s.readers[r].id, r) else s.locks;
    WithReadPhase(s, r, phase).(locks := locks)
  }

  predicate CanRunRead(s: State, r: ReaderId)
  {
    && r in s.readers && s.readers[r].phase.Asking?
    && ReadAnswer(s.store, s.readers[r].id, s.readers[r].indices, s.now).Ok?
  }

  function ReadRun(s: State, r: ReaderId): State
    requires CanRunRead(s, r)
  {
    WithReadPhase(s, r, Planned(ReadAnswer(s.store, s.readers[r].id, s.readers[r].indices, s.now).value))
  }

  predicate CanReadBlob(s: State, r: ReaderId)
  {
    && r in s.readers && s.readers[r].phase.Planned? && s.readers[r].id in s.store.blobs
    && |s.readers[r].phase.lengths| == |s.readers[r].indices|
    && ReadAll(s.store.blobs[s.readers[r].id].bytes, s.readers[r].indices, s.readers[r].phase.lengths).Some?
  }

  function BlobRead(s: State, r: ReaderId): seq<ByteString>
    requires CanReadBlob(s, r)
  {
    var reader := s.readers[r];
    ReadAll(s.store.blobs[reader.id].bytes, reader.indices, reader.phase.lengths).value
  }

  // Crash of either process or of the machine.

  ghost predicate CanRestart(s: State, survivors: map<FileId, ByteString>)
  {
    && survivors.Keys == s.store.blobs.Keys
    && forall id :: id in survivors ==> Survives(s.store.blobs[id], survivors[id])
  }

  function Restarted(s: State, survivors: map<FileId, ByteString>): State
    requires survivors.Keys == s.store.blobs.Keys
  {
    s.(store := s.store.(leases := map[],
                         blobs := map id | id in survivors :: Blob(survivors[id], s.store.blobs[id].clean, {})),
       ops := map p | p in s.ops :: s.ops[p].(phase := Gone),
       prepares := {}, replies := map[], commits := map[], cleaner := Idle, locks := map[],
       readers := map r | r in s.readers ::
         if s.readers[r].phase.Done? then s.readers[r] else s.readers[r].(phase := ReadGone))
  }

  predicate UploadEnabled(s: State, e: UploadStep)
  {
    match e
    case Arrive(p, _, _, _) => p !in s.ops
    case Acquire(p) => CanAcquire(s, p)
    case RunPrepare(p, token) => CanRunPrepare(s, p, token)
    case TakePlan(p) => CanTakePlan(s, p)
    case WritePart(p) => CanWritePart(s, p)
    case SkipPart(p) => CanSkipPart(s, p)
    case WriteTorn(p, n) => CanTear(s, p, n)
    case SyncAndCommit(p) => CanSync(s, p)
    case RunCommit(p) => p in s.commits && p in s.ops
    case Leave(p) => p in s.ops && !s.ops[p].phase.Gone?
    case DropRequests(p) => true
  }

  function UploadApply(s: State, e: UploadStep): State
    requires UploadEnabled(s, e)
  {
    match e
    case Arrive(p, id, user, parts) => s.(ops := s.ops[p := Op(id, user, parts, Waiting)])
    case Acquire(p) => Acquired(s, p)
    case RunPrepare(p, token) => PrepareRun(s, p, token)
    case TakePlan(p) => PlanTaken(s, p)
    case WritePart(p) => PartWritten(s, p)
    case SkipPart(p) => Advanced(s, p)
    case WriteTorn(p, n) => TornWritten(s, p, n)
    case SyncAndCommit(p) => CommitSent(Synced(s, p), p)
    case RunCommit(p) => CommitRun(s, p)
    case Leave(p) => Left(s, p)
    case DropRequests(p) => Dropped(s, p)
  }

  predicate FileEnabled(s: State, e: FileStep)
  {
    match e
    case CreateFile(id, _, _, _, _, _) => Free(s, id)
    case FinishFile(id, _) => Free(s, id)
    case DeleteFile(id, _, _) => Free(s, id)
    case CleanBegin(id, cutoff) => CanClean(s, id, cutoff)
    case CleanEnd(id, _) => s.cleaner.Cleaning? && s.cleaner.id == id
    case RemoveOrphan(id) => Free(s, id) && id !in s.store.rows
  }

  ghost function FileApply(s: State, e: FileStep): State
    requires FileEnabled(s, e)
  {
    match e
    case CreateFile(id, user, size, ttl, envelope, io) =>
      s.(store := Create(s.store, id, user, size, ttl, envelope, s.now, io).0)
    case FinishFile(id, user) => s.(store := Finish(s.store, id, user, s.now).0)
    case DeleteFile(id, user, io) => s.(store := Delete(s.store, id, user, io).0)
    case CleanBegin(id, cutoff) => CleanStarted(s, id, cutoff)
    case CleanEnd(id, io) => CleanEnded(s, io)
    case RemoveOrphan(id) => s.(store := Unlink(s.store, id))
  }

  predicate ReadEnabled(s: State, e: ReadStep)
  {
    match e
    case ReadArrive(r, _, _) => r !in s.readers
    case ReadAcquire(r) => CanReadAcquire(s, r)
    case RunRead(r) => CanRunRead(s, r)
    case ReadBlob(r) => CanReadBlob(s, r)
    case ReadLeave(r) => r in s.readers && !s.readers[r].phase.Done?
  }

  function ReadApply(s: State, e: ReadStep): State
    requires ReadEnabled(s, e)
  {
    match e
    case ReadArrive(r, id, indices) => s.(readers := s.readers[r := Reader(id, indices, ReadWaiting)])
    case ReadAcquire(r) => ReadAcquired(s, r)
    case RunRead(r) => ReadRun(s, r)
    case ReadBlob(r) => ReadEnded(s, r, Done(BlobRead(s, r)))
    case ReadLeave(r) => ReadEnded(s, r, ReadGone)
  }

  ghost predicate Enabled(s: State, e: Event)
  {
    match e
    case Uploads(u) => UploadEnabled(s, u)
    case Files(f) => FileEnabled(s, f)
    case Reads(r) => ReadEnabled(s, r)
    case Tick(now, mono) => s.now <= now && s.mono <= mono
    case Restart(survivors) => CanRestart(s, survivors)
  }

  ghost function Apply(s: State, e: Event): State
    requires Enabled(s, e)
  {
    match e
    case Uploads(u) => UploadApply(s, u)
    case Files(f) => FileApply(s, f)
    case Reads(r) => ReadApply(s, r)
    case Tick(now, mono) => s.(now := now, mono := mono)
    case Restart(survivors) => Restarted(s, survivors)
  }

  // ----------------------------------------------------------------- invariant

  /** The plan an upload has been given and not yet turned into a commit. */
  function PlanOf(s: State, p: OpId): Option<Plan>
    requires p in s.ops
  {
    match s.ops[p].phase
    case Writing(plan, _) => Some(plan)
    case Preparing => if p in s.replies then Some(s.replies[p]) else None
    case _ => None
  }

  function Progress(op: Op): nat
  {
    if op.phase.Writing? then op.phase.next else 0
  }

  predicate SlotHolds(b: Blob, index: nat, data: ByteString)
  {
    ReadSlot(b.bytes, index, |data|) == Some(data)
  }

  /** The digest is that of the bytes a full read of the slot returns, and those bytes are durable. */
  predicate SlotDurable(b: Blob, index: nat, length: nat, digest: Digest)
  {
    && index in b.clean
    && length <= STRIDE
    && ReadSlot(b.bytes, index, length).Some?
    && Sha256(ReadSlot(b.bytes, index, length).value) == digest
  }

  /** Everyone in a phase that relies on the lock holds it. */
  ghost predicate LocksHeld(s: State)
  {
    && (forall p :: p in s.ops && Holds(s.ops[p]) ==>
          StripeOf(s.ops[p].id) in s.locks && s.locks[StripeOf(s.ops[p].id)] == ByUpload(p))
    && (s.cleaner.Cleaning? ==> StripeOf(s.cleaner.id) in s.locks && s.locks[StripeOf(s.cleaner.id)] == ByCleaner)
    && (forall r :: r in s.readers && HoldsShared(s.readers[r]) ==>
          var k := StripeOf(s.readers[r].id);
          k in s.locks && s.locks[k].ByReaders? && r in s.locks[k].readers)
  }

  predicate IssuedFor(s: State, token: Token, id: FileId)
  {
    token in s.issued && s.issued[token] == id
  }

  ghost predicate TokensKnown(s: State)
  {
    && (forall id :: id in s.store.leases ==> IssuedFor(s, s.store.leases[id].token, id))
    && (forall p :: p in s.replies && p in s.ops ==> IssuedFor(s, s.replies[p].token, s.ops[p].id))
    && (forall p :: p in s.commits && p in s.ops ==> IssuedFor(s, s.commits[p], s.ops[p].id))
    && (forall p :: p in s.ops && s.ops[p].phase.Writing? ==> IssuedFor(s, s.ops[p].phase.plan.token, s.ops[p].id))
  }

  ghost predicate RequestsShaped(s: State)
  {
    && (forall p :: p in s.prepares ==>
          p in s.ops && !s.ops[p].phase.Waiting? && !s.ops[p].phase.Writing? && p !in s.replies)
    && (forall p :: p in s.replies ==> p in s.ops && !s.ops[p].phase.Waiting?)
    && (forall p :: p in s.commits ==> p in s.ops && (s.ops[p].phase.Committing? || s.ops[p].phase.Gone?))
  }

  ghost predicate Shaped(s: State)
  {
    LocksHeld(s) && TokensKnown(s) && RequestsShaped(s)
  }

  function LeaseOf(s: Store, id: FileId): Option<Lease>
  {
    if id in s.leases then Some(s.leases[id]) else None
  }

  function BlobOf(s: Store, id: FileId): Option<Blob>
  {
    if id in s.blobs then Some(s.blobs[id]) else None
  }

  /** The main claim, for one file: every indexed digest is that of durable bytes in its slot. */
  ghost predicate FileFits(row: Row, chunks: map<nat, Digest>, blob: Option<Blob>)
  {
    && row.state != Deleted
    && (forall i :: i in chunks ==> i < ChunkCount(row.size))
    && (blob.Some? ==> forall i :: i in chunks ==>
          SlotDurable(blob.value, i, PayloadLength(row.size, i), chunks[i]))
  }

  ghost predicate ReadyComplete(row: Row, chunks: map<nat, Digest>)
  {
    row.state == Ready ==> forall i: nat :: i < ChunkCount(row.size) ==> i in chunks
  }

  /** What an upload that got `plan`, and wrote its first `progress` parts, relies on. */
  ghost predicate PlanFits(parts: seq<Part>, plan: Plan, progress: nat, existing: map<nat, Digest>,
                           lease: Option<Lease>, blob: Option<Blob>, inFlight: set<Token>)
  {
    && DistinctIndices(Describe(parts))
    && (forall k :: 0 <= k < |parts| ==> 0 <= parts[k].index && |parts[k].data| <= STRIDE)
    && progress <= |parts|
    && (forall i :: i in plan.write ==> i !in existing)
    && (lease.Some? ==> lease.value.token !in inFlight)
    && (lease.Some? && lease.value.token == plan.token ==>
          && lease.value.binding.chunks == Describe(parts)
          && forall k :: 0 <= k < |parts| ==> parts[k].index in plan.write || parts[k].index in existing)
    && (blob.Some? ==> forall k :: 0 <= k < progress && parts[k].index in plan.write ==>
          && SlotHolds(blob.value, parts[k].index, parts[k].data)
          && parts[k].index in blob.value.clean + blob.value.dirty)
  }

  ghost predicate PlanSound(s: State, p: OpId)
    requires p in s.ops
  {
    var op := s.ops[p];
    PlanOf(s, p).Some? ==>
      PlanFits(op.parts, PlanOf(s, p).value, Progress(op), ChunksOf(s.store, op.id),
               LeaseOf(s.store, op.id), BlobOf(s.store, op.id), s.commits.Values)
  }

  /** A commit in flight that would still be accepted speaks of durable bytes only. */
  ghost predicate CommitFits(parts: seq<Part>, token: Token, existing: map<nat, Digest>,
                             lease: Option<Lease>, blob: Option<Blob>)
  {
    lease.Some? && lease.value.token == token ==>
      && lease.value.binding.chunks == Describe(parts)
      && forall k :: 0 <= k < |parts| ==>
           && 0 <= parts[k].index && |parts[k].data| <= STRIDE
           && (parts[k].index in existing
               || (blob.Some? ==>
                     SlotHolds(blob.value, parts[k].index, parts[k].data) && parts[k].index in blob.value.clean))
  }

  ghost predicate CommitSound(s: State, p: OpId)
    requires p in s.ops && p in s.commits
  {
    var op := s.ops[p];
    CommitFits(op.parts, s.commits[p], ChunksOf(s.store, op.id), LeaseOf(s.store, op.id), BlobOf(s.store, op.id))
  }

  ghost predicate ReaderSound(s: State, r: ReaderId)
    requires r in s.readers
  {
    s.readers[r].phase.Planned? ==>
      var reader := s.readers[r];
      && reader.id in s.store.rows && s.store.rows[reader.id].state == Ready
      && |reader.phase.lengths| == |reader.indices|
      && forall k :: 0 <= k < |reader.indices| ==>
           && 0 <= reader.indices[k] < ChunkCount(s.store.rows[reader.id].size)
           && reader.phase.lengths[k] == PayloadLength(s.store.rows[reader.id].size, reader.indices[k])
  }

  ghost predicate StoreSound(s: Store)
  {
    && (forall id :: id in s.index ==> id in s.rows && FileFits(s.rows[id], s.index[id], BlobOf(s, id)))
    && (forall id :: id in s.rows ==> ReadyComplete(s.rows[id], ChunksOf(s, id)))
  }

  ghost predicate PlansSound(s: State) { forall p :: p in s.ops ==> PlanSound(s, p) }
  ghost predicate CommitsSound(s: State)
    requires Shaped(s)
  { forall p :: p in s.commits ==> CommitSound(s, p) }
  ghost predicate ReadersSound(s: State) { forall r :: r in s.readers ==> ReaderSound(s, r) }

  ghost predicate Inv(s: State)
  {
    && Shaped(s)
    && StoreSound(s.store)
    && PlansSound(s)
    && CommitsSound(s)
    && ReadersSound(s)
  }

  const INITIAL := State(EMPTY_STORE, map[], {}, map[], map[], map[], Idle, map[], map[], 0, 0)

  ghost predicate IsRun(s: State, run: seq<Event>)
    decreases |run|
  {
    run == [] || (Enabled(s, run[0]) && IsRun(Apply(s, run[0]), run[1..]))
  }

  ghost function After(s: State, run: seq<Event>): State
    requires IsRun(s, run)
    decreases |run|
  {
    if run == [] then s else After(Apply(s, run[0]), run[1..])
  }
}
