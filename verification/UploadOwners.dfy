/** Where the index comes from: in every run each digest in it was sent by the owner of the file. */
module UploadOwners {
  import opened Storage
  import opened UploadProtocol
  import opened FileAnswers
  import opened UploadSafety

  /** Part `k` of upload `p` is this chunk of the file, and the upload is its owner's. */
  predicate SentByOwner(s: State, p: OpId, k: nat, id: FileId, i: nat, d: Digest)
  {
    && p in s.ops && id in s.store.rows && s.ops[p].id == id && s.ops[p].user == s.store.rows[id].owner
    && k < |s.ops[p].parts| && s.ops[p].parts[k].index == i && Sha256(s.ops[p].parts[k].data) == d
  }

  ghost predicate Owned(s: State, id: FileId, i: nat)
  {
    i in ChunksOf(s.store, id) ==>
      exists p: OpId, k: nat :: SentByOwner(s, p, k, id, i, ChunksOf(s.store, id)[i])
  }

  /** Uploads are never forgotten or changed but in their phase. */
  predicate KeepsOps(s: State, t: State)
  {
    forall p :: p in s.ops ==> KeepsOp(s, t, p)
  }

  predicate KeepsOp(s: State, t: State, p: OpId)
    requires p in s.ops
  {
    p in t.ops && t.ops[p].id == s.ops[p].id && t.ops[p].user == s.ops[p].user && t.ops[p].parts == s.ops[p].parts
  }

  lemma StepKeepsOps(s: State, e: Event)
    requires Enabled(s, e)
    ensures KeepsOps(s, Apply(s, e))
  {
    match e
    case Uploads(u) => UploadKeepsOps(s, u);
    case Files(f) => FileKeepsOps(s, f);
    case _ =>
  }

  lemma UploadKeepsOps(s: State, e: UploadStep)
    requires UploadEnabled(s, e)
    ensures KeepsOps(s, UploadApply(s, e))
  {
    forall q | q in s.ops ensures KeepsOp(s, UploadApply(s, e), q) {
      UploadKeepsOp(s, e, q);
    }
  }

  lemma UploadKeepsOp(s: State, e: UploadStep, q: OpId)
    requires UploadEnabled(s, e) && q in s.ops
    ensures KeepsOp(s, UploadApply(s, e), q)
  {
    match e
    case Arrive(_, _, _, _) =>
    case Acquire(_) =>
    case RunPrepare(_, _) =>
    case TakePlan(_) =>
    case WritePart(_) =>
    case SkipPart(_) =>
    case WriteTorn(_, _) =>
    case SyncAndCommit(p) => assert Synced(s, p).ops == s.ops;
    case RunCommit(_) =>
    case Leave(_) =>
    case DropRequests(_) =>
  }

  lemma FileKeepsOps(s: State, e: FileStep)
    requires FileEnabled(s, e)
    ensures FileApply(s, e).ops == s.ops
  {
  }

  /** The file has the chunk as before, and the same owner. */
  predicate HadIt(s: Store, t: Store, id: FileId, i: nat)
  {
    && i in ChunksOf(s, id) && i in ChunksOf(t, id) && ChunksOf(s, id)[i] == ChunksOf(t, id)[i]
    && id in s.rows && id in t.rows && t.rows[id].owner == s.rows[id].owner
  }

  lemma StillOwned(s: State, t: State, id: FileId, i: nat)
    requires Owned(s, id, i) && KeepsOps(s, t) && (i in ChunksOf(t.store, id) ==> HadIt(s.store, t.store, id, i))
    ensures Owned(t, id, i)
  {
    if i in ChunksOf(t.store, id) {
      var d := ChunksOf(s.store, id)[i];
      var p: OpId, k: nat :| SentByOwner(s, p, k, id, i, d);
      assert SentByOwner(t, p, k, id, i, d);
    }
  }

  lemma FileStepHad(s: State, e: FileStep, id: FileId, i: nat)
    requires StoreSound(s.store) && FileEnabled(s, e) && i in ChunksOf(FileApply(s, e).store, id)
    ensures HadIt(s.store, FileApply(s, e).store, id, i)
  {
    match e
    case CreateFile(f, user, size, ttl, envelope, io) =>
      CreateHad(s.store, f, user, size, ttl, envelope, s.now, io, id, i);
    case FinishFile(f, user) => FinishHad(s.store, f, user, s.now, id, i);
    case DeleteFile(f, user, io) => DeleteHad(s.store, f, user, io, id, i);
    case CleanBegin(f, cutoff) =>
    case CleanEnd(f, io) => ExpireHad(s.store, f, s.cleaner.cutoff, io, id, i);
    case RemoveOrphan(f) =>
  }

  lemma CreateHad(s: Store, f: FileId, user: User, size: int, ttl: int, envelope: string, now: int, io: Io,
                  id: FileId, i: nat)
    requires StoreSound(s) && i in ChunksOf(Create(s, f, user, size, ttl, envelope, now, io).0, id)
    ensures HadIt(s, Create(s, f, user, size, ttl, envelope, now, io).0, id, i)
  {
    CreateEffect(s, f, user, size, ttl, envelope, now, io);
  }

  lemma FinishHad(s: Store, f: FileId, user: User, now: int, id: FileId, i: nat)
    requires StoreSound(s) && i in ChunksOf(Finish(s, f, user, now).0, id)
    ensures HadIt(s, Finish(s, f, user, now).0, id, i)
  {
  }

  lemma DeleteHad(s: Store, f: FileId, user: User, io: Io, id: FileId, i: nat)
    requires StoreSound(s) && i in ChunksOf(Delete(s, f, user, io).0, id)
    ensures HadIt(s, Delete(s, f, user, io).0, id, i)
  {
  }

  lemma ExpireHad(s: Store, f: FileId, cutoff: int, io: Io, id: FileId, i: nat)
    requires StoreSound(s) && i in ChunksOf(Expire(s, f, cutoff, io), id)
    ensures HadIt(s, Expire(s, f, cutoff, io), id, i)
  {
  }

  lemma UploadStepHad(s: State, e: UploadStep, id: FileId, i: nat)
    requires StoreSound(s.store) && UploadEnabled(s, e) && !e.RunCommit? && i in ChunksOf(UploadApply(s, e).store, id)
    ensures HadIt(s.store, UploadApply(s, e).store, id, i)
  {
    if e.RunPrepare? {
      var op := s.ops[e.op];
      PrepareEffect(s.store, op.id, op.user, Describe(op.parts), s.now, s.mono, e.token, op.id);
    }
  }

  /** A commit adds only parts of an upload by the owner. */
  lemma CommitOwned(s: State, p: OpId, id: FileId, i: nat)
    requires StoreSound(s.store) && p in s.ops && p in s.commits && Owned(s, id, i)
    ensures Owned(CommitRun(s, p), id, i)
  {
    var op, t := s.ops[p], CommitRun(s, p);
    CommitEffect(s.store, op.id, op.user, Describe(op.parts), s.commits[p], s.now, s.mono);
    if Accepts(s, p) && id == op.id && i in ChunksOf(t.store, id) && i !in ChunksOf(s.store, id) {
      IndexedMeaning(s.store.rows[id].size, ChunksOf(s.store, id), Describe(op.parts));
      var k :| 0 <= k < |op.parts| && Describe(op.parts)[k].index == i;
      AcceptedIsIndexed(s, p, k);
      assert SentByOwner(t, p, k, id, i, ChunksOf(t.store, id)[i]);
    } else {
      CommitHad(s, p, id, i);
      StillOwned(s, t, id, i);
    }
  }

  lemma CommitHad(s: State, p: OpId, id: FileId, i: nat)
    requires StoreSound(s.store) && p in s.ops && p in s.commits
    requires Accepts(s, p) && id == s.ops[p].id && i in ChunksOf(CommitRun(s, p).store, id) ==>
      i in ChunksOf(s.store, id)
    ensures i in ChunksOf(CommitRun(s, p).store, id) ==> HadIt(s.store, CommitRun(s, p).store, id, i)
  {
    var op := s.ops[p];
    CommitEffect(s.store, op.id, op.user, Describe(op.parts), s.commits[p], s.now, s.mono);
    if Accepts(s, p) {
      IndexedMeaning(s.store.rows[op.id].size, ChunksOf(s.store, op.id), Describe(op.parts));
    }
  }

  lemma StepOwned(s: State, e: Event, id: FileId, i: nat)
    requires Inv(s) && Enabled(s, e) && Owned(s, id, i)
    ensures Owned(Apply(s, e), id, i)
  {
    var t := Apply(s, e);
    if e.Uploads? && e.upload.RunCommit? {
      CommitOwned(s, e.upload.op, id, i);
    } else {
      StepKeepsOps(s, e);
      if i in ChunksOf(t.store, id) {
        match e {
          case Uploads(u) => UploadStepHad(s, u, id, i);
          case Files(f) => FileStepHad(s, f, id, i);
          case Reads(r) => ReadStepStore(s, r);
          case Tick(_, _) =>
          case Restart(survivors) => RestartIndex(s, survivors);
        }
      }
      StillOwned(s, t, id, i);
    }
  }

  lemma {:induction false} RunOwned(s: State, run: seq<Event>, id: FileId, i: nat)
    requires Inv(s) && IsRun(s, run) && Owned(s, id, i)
    ensures Owned(After(s, run), id, i)
    decreases |run|
  {
    if run != [] {
      StepOwned(s, run[0], id, i);
      StepKeeps(s, run[0]);
      RunOwned(Apply(s, run[0]), run[1..], id, i);
    }
  }

  /**
   * In every run, whoever prepares and commits in between, each digest in the index of a file is
   * that of a part which the owner of the file itself has uploaded.
   */
  lemma IndexedByOwner(run: seq<Event>, id: FileId, i: nat) returns (p: OpId, k: nat)
    requires IsRun(INITIAL, run) && i in ChunksOf(After(INITIAL, run).store, id)
    ensures SentByOwner(After(INITIAL, run), p, k, id, i, ChunksOf(After(INITIAL, run).store, id)[i])
  {
    InitialInv();
    RunOwned(INITIAL, run, id, i);
    p, k :| SentByOwner(After(INITIAL, run), p, k, id, i, ChunksOf(After(INITIAL, run).store, id)[i]);
  }
}
