/** A file is kept until its time is over or its owner deletes it, whatever else goes on. */
module FileLifetime {
  import opened Outcomes
  import opened Slots
  import opened Storage
  import opened UploadProtocol
  import opened FileAnswers
  import opened UploadSafety

  // ----------------------------------------------------------------- the cleaner

  /** The cleaner works only on a file whose time was over, or that was marked, when it began. */
  predicate CleanerSound(s: State)
  {
    s.cleaner.Cleaning? && s.cleaner.id in s.store.rows ==>
      !InTime(s.store.rows, s.cleaner.id, s.now)
  }

  lemma FileStepCleaner(s: State, e: FileStep)
    requires Inv(s) && FileEnabled(s, e) && CleanerSound(s)
    ensures CleanerSound(FileApply(s, e))
  {
    match e
    case CreateFile(f, user, size, ttl, envelope, io) => CreateEffect(s.store, f, user, size, ttl, envelope, s.now, io);
    case FinishFile(f, user) => FinishEffect(s.store, f, user, s.now);
    case DeleteFile(f, user, io) => DeleteEffect(s.store, f, user, io);
    case CleanBegin(f, cutoff) =>
    case CleanEnd(f, io) =>
    case RemoveOrphan(f) =>
  }

  lemma UploadStepRows(s: State, e: UploadStep)
    requires UploadEnabled(s, e)
    ensures UploadApply(s, e).store.rows == s.store.rows && UploadApply(s, e).now == s.now
    ensures UploadApply(s, e).cleaner == s.cleaner
  {
    match e
    case RunPrepare(p, token) =>
      var op := s.ops[p];
      PrepareEffect(s.store, op.id, op.user, Describe(op.parts), s.now, s.mono, token, op.id);
    case RunCommit(p) =>
      var op := s.ops[p];
      CommitEffect(s.store, op.id, op.user, Describe(op.parts), s.commits[p], s.now, s.mono);
    case _ =>
  }

  lemma ReadStepFrame(s: State, e: ReadStep)
    requires ReadEnabled(s, e)
    ensures ReadApply(s, e).store == s.store && ReadApply(s, e).now == s.now && ReadApply(s, e).cleaner == s.cleaner
  {
  }

  lemma StepCleaner(s: State, e: Event)
    requires Inv(s) && Enabled(s, e) && CleanerSound(s)
    ensures CleanerSound(Apply(s, e))
  {
    match e
    case Uploads(u) => UploadStepRows(s, u);
    case Files(f) => FileStepCleaner(s, f);
    case Reads(r) => ReadStepFrame(s, r);
    case Tick(_, _) =>
    case Restart(_) =>
  }

  lemma {:induction false} RunCleaner(s: State, run: seq<Event>)
    requires Inv(s) && IsRun(s, run) && CleanerSound(s)
    ensures CleanerSound(After(s, run))
    decreases |run|
  {
    if run != [] {
      StepCleaner(s, run[0]);
      StepKeeps(s, run[0]);
      RunCleaner(Apply(s, run[0]), run[1..]);
    }
  }

  // --------------------------------------------------------------------- one file

  /** The record is the same, or has only become ready. */
  predicate KeptRow(a: Row, b: Row)
  {
    b == a || (a.state == Uploading && b == a.(state := Ready))
  }

  /** The owner's delete of the file succeeds. */
  predicate OwnerDeletes(s: State, e: Event, id: FileId)
  {
    && e.Files? && e.file.DeleteFile? && e.file.id == id && e.file.io == Completes
    && id in s.store.rows && s.store.rows[id].owner == e.file.user
  }

  lemma CreateKeepsRow(s: Store, f: FileId, user: User, size: int, ttl: int, envelope: string, now: int, io: Io,
                       id: FileId)
    requires id in s.rows
    ensures
      var t := Create(s, f, user, size, ttl, envelope, now, io).0;
      id in t.rows && t.rows[id] == s.rows[id]
  {
    CreateEffect(s, f, user, size, ttl, envelope, now, io);
  }

  lemma FinishKeepsRow(s: Store, f: FileId, user: User, now: int, id: FileId)
    requires id in s.rows && s.rows[id].state in {Uploading, Ready}
    ensures
      var t := Finish(s, f, user, now).0;
      id in t.rows && KeptRow(s.rows[id], t.rows[id])
  {
  }

  lemma DeleteKeepsRow(s: Store, f: FileId, user: User, io: Io, id: FileId)
    requires id in s.rows && !(f == id && s.rows[id].owner == user && io == Completes)
    ensures
      var t := Delete(s, f, user, io).0;
      id in t.rows && t.rows[id] == s.rows[id]
  {
  }

  lemma ExpireKeepsRow(s: Store, f: FileId, cutoff: int, io: Io, id: FileId)
    requires id in s.rows && f != id
    ensures
      var t := Expire(s, f, cutoff, io);
      id in t.rows && t.rows[id] == s.rows[id]
  {
  }

  lemma FileStepKeepsRow(s: State, e: FileStep, id: FileId)
    requires FileEnabled(s, e) && CleanerSound(s) && InTime(s.store.rows, id, s.now)
    requires !OwnerDeletes(s, Files(e), id)
    ensures
      var t := FileApply(s, e);
      && id in t.store.rows && KeptRow(s.store.rows[id], t.store.rows[id]) && t.now == s.now
      && !Discards(s, Files(e), id)
  {
    match e
    case CreateFile(f, user, size, ttl, envelope, io) =>
      CreateKeepsRow(s.store, f, user, size, ttl, envelope, s.now, io, id);
    case FinishFile(f, user) => FinishKeepsRow(s.store, f, user, s.now, id);
    case DeleteFile(f, user, io) =>
      DeleteKeepsRow(s.store, f, user, io, id);
      DeletedExactly(s.store, f, user, io);
    case CleanBegin(f, cutoff) =>
    case CleanEnd(f, io) => ExpireKeepsRow(s.store, f, s.cleaner.cutoff, io, id);
    case RemoveOrphan(f) =>
  }

  lemma StepKeepsFile(s: State, e: Event, id: FileId)
    requires Enabled(s, e) && CleanerSound(s) && InTime(s.store.rows, id, s.now) && !OwnerDeletes(s, e, id)
    ensures
      var t := Apply(s, e);
      && id in t.store.rows && KeptRow(s.store.rows[id], t.store.rows[id]) && s.now <= t.now
      && !Discards(s, e, id)
  {
    match e
    case Uploads(u) => UploadStepRows(s, u);
    case Files(f) => FileStepKeepsRow(s, f, id);
    case Reads(r) => ReadStepFrame(s, r);
    case Tick(_, _) =>
    case Restart(_) =>
  }

  /** No step of the run is a successful delete of the file by its owner. */
  ghost predicate NotDeleted(s: State, run: seq<Event>, id: FileId)
    requires IsRun(s, run)
    decreases |run|
  {
    run == [] || (!OwnerDeletes(s, run[0], id) && NotDeleted(Apply(s, run[0]), run[1..], id))
  }

  lemma {:induction false} ClockGrows(s: State, run: seq<Event>)
    requires IsRun(s, run)
    ensures s.now <= After(s, run).now
    decreases |run|
  {
    if run != [] {
      StepClock(s, run[0]);
      ClockGrows(Apply(s, run[0]), run[1..]);
    }
  }

  lemma StepClock(s: State, e: Event)
    requires Enabled(s, e)
    ensures s.now <= Apply(s, e).now
  {
    match e
    case Uploads(u) => UploadStepRows(s, u);
    case Files(f) =>
    case Reads(r) => ReadStepFrame(s, r);
    case Tick(_, _) =>
    case Restart(_) =>
  }

  lemma {:induction false} RunKeepsFile(s: State, run: seq<Event>, id: FileId)
    requires Inv(s) && CleanerSound(s) && IsRun(s, run) && NotDeleted(s, run, id)
    requires id in s.store.rows && InTime(s.store.rows, id, After(s, run).now)
    ensures
      var t := After(s, run);
      && id in t.store.rows && KeptRow(s.store.rows[id], t.store.rows[id])
      && Extends(ChunksOf(s.store, id), ChunksOf(t.store, id))
    decreases |run|
  {
    if run != [] {
      var u := Apply(s, run[0]);
      StepClock(s, run[0]);
      ClockGrows(u, run[1..]);
      StepKeepsFile(s, run[0], id);
      StepCleaner(s, run[0]);
      StepKeeps(s, run[0]);
      IndexPersists(s, run[0], id);
      RunKeepsFile(u, run[1..], id);
    }
  }

  /**
   * In every run, a file whose time is not over at the end is still there with its owner, size and
   * envelope, ready if it was ready, and with every digest it had, unless its owner has deleted it.
   */
  lemma KeptUntilExpiry(before: seq<Event>, rest: seq<Event>, id: FileId)
    requires IsRun(INITIAL, before) && IsRun(After(INITIAL, before), rest)
    requires
      var s := After(INITIAL, before);
      NotDeleted(s, rest, id) && InTime(s.store.rows, id, After(s, rest).now)
    ensures
      var s := After(INITIAL, before);
      var t := After(s, rest);
      && id in t.store.rows && KeptRow(s.store.rows[id], t.store.rows[id])
      && Extends(ChunksOf(s.store, id), ChunksOf(t.store, id))
  {
    var s := After(INITIAL, before);
    InitialInv();
    RunKeeps(INITIAL, before);
    RunCleaner(INITIAL, before);
    RunKeepsFile(s, rest, id);
  }

  // ------------------------------------------------------------ reading it for sure

  /** The owner asks for the file to be deleted, whether or not that succeeds. */
  predicate OwnerAsks(s: State, e: Event, id: FileId)
  {
    && e.Files? && e.file.DeleteFile? && e.file.id == id
    && id in s.store.rows && s.store.rows[id].owner == e.file.user
  }

  lemma FileStepKeepsBlob(s: State, e: FileStep, id: FileId)
    requires FileEnabled(s, e) && InTime(s.store.rows, id, s.now) && id in s.store.blobs && !OwnerAsks(s, Files(e), id)
    ensures id in FileApply(s, e).store.blobs
  {
    match e
    case CreateFile(f, user, size, ttl, envelope, io) => CreateEffect(s.store, f, user, size, ttl, envelope, s.now, io);
    case FinishFile(f, user) => FinishEffect(s.store, f, user, s.now);
    case DeleteFile(f, user, io) => DeleteKeepsBlob(s.store, f, user, io, id);
    case CleanBegin(f, cutoff) =>
    case CleanEnd(f, io) =>
    case RemoveOrphan(f) =>
  }

  lemma DeleteKeepsBlob(s: Store, f: FileId, user: User, io: Io, id: FileId)
    requires id in s.rows && id in s.blobs && !(f == id && s.rows[id].owner == user)
    ensures id in Delete(s, f, user, io).0.blobs
  {
  }

  lemma UploadStepKeepsBlob(s: State, e: UploadStep, id: FileId)
    requires UploadEnabled(s, e) && id in s.store.blobs
    ensures id in UploadApply(s, e).store.blobs
  {
    match e
    case RunPrepare(p, token) =>
      var op := s.ops[p];
      PrepareEffect(s.store, op.id, op.user, Describe(op.parts), s.now, s.mono, token, op.id);
    case RunCommit(p) =>
      var op := s.ops[p];
      CommitEffect(s.store, op.id, op.user, Describe(op.parts), s.commits[p], s.now, s.mono);
    case _ =>
  }

  lemma StepKeepsBlob(s: State, e: Event, id: FileId)
    requires Enabled(s, e) && InTime(s.store.rows, id, s.now) && id in s.store.blobs && !OwnerAsks(s, e, id)
    ensures id in Apply(s, e).store.blobs
  {
    match e
    case Uploads(u) => UploadStepKeepsBlob(s, u, id);
    case Files(f) => FileStepKeepsBlob(s, f, id);
    case Reads(r) => ReadStepFrame(s, r);
    case Tick(_, _) =>
    case Restart(_) =>
  }

  ghost predicate NotAsked(s: State, run: seq<Event>, id: FileId)
    requires IsRun(s, run)
    decreases |run|
  {
    run == [] || (!OwnerAsks(s, run[0], id) && NotAsked(Apply(s, run[0]), run[1..], id))
  }

  lemma {:induction false} RunKeepsBlob(s: State, run: seq<Event>, id: FileId)
    requires Inv(s) && CleanerSound(s) && IsRun(s, run) && NotAsked(s, run, id) && id in s.store.blobs
    requires id in s.store.rows && InTime(s.store.rows, id, After(s, run).now)
    ensures
      var t := After(s, run);
      id in t.store.blobs && id in t.store.rows && KeptRow(s.store.rows[id], t.store.rows[id])
    decreases |run|
  {
    if run != [] {
      var u := Apply(s, run[0]);
      StepClock(s, run[0]);
      ClockGrows(u, run[1..]);
      StepKeepsFile(s, run[0], id);
      StepKeepsBlob(s, run[0], id);
      StepCleaner(s, run[0]);
      StepKeeps(s, run[0]);
      RunKeepsBlob(u, run[1..], id);
    }
  }

  /** A proper request for chunks of a ready file in time is planned, and the read that follows succeeds. */
  lemma ReadSucceeds(s: State, r: ReaderId)
    requires Inv(s) && r in s.readers && s.readers[r].phase.Asking? && s.readers[r].id in s.store.blobs
    requires
      var id := s.readers[r].id;
      && InTime(s.store.rows, id, s.now) && s.store.rows[id].state == Ready
      && ProperIndices(s.store.rows[id].size, s.readers[r].indices)
    ensures CanRunRead(s, r) && CanReadBlob(ReadRun(s, r), r)
  {
    var id, indices := s.readers[r].id, s.readers[r].indices;
    ReadExactly(s.store, id, indices, s.now);
    var lengths := ReadAnswer(s.store, id, indices, s.now).value;
    var blob := s.store.blobs[id];
    forall k | 0 <= k < |indices| ensures indices[k] >= 0 && ReadSlot(blob.bytes, indices[k], lengths[k]).Some? {
      ChunkReads(s.store, id, indices[k]);
    }
    assert ReadRun(s, r).store == s.store;
  }

  lemma ChunkReads(s: Store, id: FileId, i: nat)
    requires StoreSound(s) && id in s.rows && s.rows[id].state == Ready && id in s.blobs
    requires i < ChunkCount(s.rows[id].size)
    ensures ReadSlot(s.blobs[id].bytes, i, PayloadLength(s.rows[id].size, i)).Some?
  {
    assert ReadyComplete(s.rows[id], ChunksOf(s, id));
    assert i in ChunksOf(s, id) && FileFits(s.rows[id], s.index[id], BlobOf(s, id));
    assert SlotDurable(s.blobs[id], i, PayloadLength(s.rows[id].size, i), s.index[id][i]);
  }

  /**
   * In every run, a ready file that has its blob can be read until its time is over: as long as its
   * owner does not ask to delete it, every proper request that has its turn is answered with data.
   */
  lemma ReadableUntilExpiry(before: seq<Event>, rest: seq<Event>, r: ReaderId)
    requires IsRun(INITIAL, before) && IsRun(After(INITIAL, before), rest)
    requires
      var s := After(INITIAL, before);
      var t := After(s, rest);
      && r in t.readers && t.readers[r].phase.Asking?
      && var id := t.readers[r].id;
         && NotAsked(s, rest, id) && InTime(s.store.rows, id, t.now) && s.store.rows[id].state == Ready
         && id in s.store.blobs && ProperIndices(s.store.rows[id].size, t.readers[r].indices)
    ensures
      var t := After(After(INITIAL, before), rest);
      CanRunRead(t, r) && CanReadBlob(ReadRun(t, r), r)
  {
    var s := After(INITIAL, before);
    var t := After(s, rest);
    InitialInv();
    RunKeeps(INITIAL, before);
    RunCleaner(INITIAL, before);
    RunKeeps(s, rest);
    RunKeepsBlob(s, rest, t.readers[r].id);
    ReadSucceeds(t, r);
  }
}
