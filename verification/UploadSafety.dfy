/** Every step of the upload protocol keeps the invariant. */
module UploadSafety {
  import opened Outcomes
  import opened Bytes
  import opened Slots
  import opened Storage
  import opened UploadProtocol
  import opened FileAnswers

  // ------------------------------------------------------------ what steps keep

  /** One file's chunks are as before; its lease and blob too, or gone. */
  predicate SameFile(a: Store, b: Store, id: FileId)
  {
    && ChunksOf(a, id) == ChunksOf(b, id)
    && (LeaseOf(b, id) == LeaseOf(a, id) || LeaseOf(b, id).None?)
    && (BlobOf(b, id) == BlobOf(a, id) || BlobOf(b, id).None?)
  }

  /** Losing the lease, the blob or requests in flight harms no plan; nor does syncing. */
  lemma PlanFitsLess(parts: seq<Part>, plan: Plan, progress: nat, existing: map<nat, Digest>,
                     lease: Option<Lease>, blob: Option<Blob>, inFlight: set<Token>,
                     lease': Option<Lease>, blob': Option<Blob>, inFlight': set<Token>)
    requires PlanFits(parts, plan, progress, existing, lease, blob, inFlight)
    requires lease' == lease || lease'.None?
    requires blob' == blob || blob'.None?
    requires inFlight' <= inFlight
    ensures PlanFits(parts, plan, progress, existing, lease', blob', inFlight')
    ensures PlanFits(parts, plan, 0, existing, lease', blob', inFlight')
  {
  }

  lemma PlanKept(s: State, t: State, p: OpId)
    requires p in s.ops && p in t.ops && PlanSound(s, p)
    requires t.ops[p].id == s.ops[p].id && t.ops[p].parts == s.ops[p].parts
    requires PlanOf(t, p).Some? ==> PlanOf(s, p) == PlanOf(t, p) && Progress(t.ops[p]) == Progress(s.ops[p])
    requires SameFile(s.store, t.store, s.ops[p].id)
    requires t.commits.Values <= s.commits.Values
    ensures PlanSound(t, p)
  {
    if PlanOf(t, p).Some? {
      var op := s.ops[p];
      PlanFitsLess(op.parts, PlanOf(s, p).value, Progress(op), ChunksOf(s.store, op.id),
                   LeaseOf(s.store, op.id), BlobOf(s.store, op.id), s.commits.Values,
                   LeaseOf(t.store, op.id), BlobOf(t.store, op.id), t.commits.Values);
    }
  }

  lemma CommitKept(s: State, t: State, p: OpId)
    requires p in s.ops && p in t.ops && p in s.commits && p in t.commits && CommitSound(s, p)
    requires t.ops[p].id == s.ops[p].id && t.ops[p].parts == s.ops[p].parts
    requires t.commits[p] == s.commits[p]
    requires SameFile(s.store, t.store, s.ops[p].id)
    ensures CommitSound(t, p)
  {
  }

  lemma ReadersKept(s: State, t: State)
    requires ReadersSound(s)
    requires t.readers == s.readers
    requires forall r :: r in s.readers && HoldsShared(s.readers[r]) && s.readers[r].id in s.store.rows ==>
               s.readers[r].id in t.store.rows && t.store.rows[s.readers[r].id] == s.store.rows[s.readers[r].id]
    ensures ReadersSound(t)
  {
    forall r | r in t.readers
      ensures ReaderSound(t, r)
    {
      assert ReaderSound(s, r);
    }
  }

  lemma FewerTokens(a: map<OpId, Token>, b: map<OpId, Token>)
    requires forall q :: q in b ==> q in a && a[q] == b[q]
    ensures b.Values <= a.Values
  {
    forall v | v in b.Values
      ensures v in a.Values
    {
      var q :| q in b && b[q] == v;
      assert a[q] == v;
    }
  }

  // ------------------------------------------------- steps of one upload, no I/O

  /** All plans and commits except those of upload `p` look at an unchanged world. */
  lemma OthersKept(s: State, t: State, p: OpId)
    requires Shaped(s) && Shaped(t) && PlansSound(s) && CommitsSound(s)
    requires forall q :: q in t.ops && q != p ==>
      q in s.ops && t.ops[q] == s.ops[q] && SameFile(s.store, t.store, s.ops[q].id)
    requires forall q :: q in t.replies && q != p ==> q in s.replies && t.replies[q] == s.replies[q]
    requires forall q :: q in t.commits ==> q in s.commits && t.commits[q] == s.commits[q]
    ensures forall q :: q in t.ops && q != p ==> PlanSound(t, q)
    ensures forall q :: q in t.commits && q != p ==> CommitSound(t, q)
  {
    FewerTokens(s.commits, t.commits);
    forall q | q in t.ops && q != p
      ensures PlanSound(t, q)
    {
      assert PlanSound(s, q);
      PlanKept(s, t, q);
    }
    forall q | q in t.commits && q != p
      ensures CommitSound(t, q)
    {
      assert CommitSound(s, q);
      CommitKept(s, t, q);
    }
  }

  /** Only upload `p` moves; requests may be lost; the store is untouched. */
  lemma OpMoves(s: State, t: State, p: OpId)
    requires Inv(s)
    requires t.store == s.store && t.readers == s.readers && t.cleaner == s.cleaner && t.issued == s.issued
    requires forall q :: q in t.ops && q != p ==> q in s.ops && t.ops[q] == s.ops[q]
    requires p in s.ops && p in t.ops ==> t.ops[p].id == s.ops[p].id && t.ops[p].parts == s.ops[p].parts
    requires t.replies == s.replies
    requires forall q :: q in t.commits ==> q in s.commits && t.commits[q] == s.commits[q]
    requires Shaped(t)
    requires p in t.ops ==> PlanSound(t, p)
    ensures Inv(t)
  {
    OthersKept(s, t, p);
    if p in t.commits {
      assert CommitSound(s, p);
      CommitKept(s, t, p);
    }
    ReadersKept(s, t);
  }

  lemma ArriveKeeps(s: State, p: OpId, op: Op)
    requires Inv(s) && p !in s.ops && op.phase.Waiting?
    ensures Inv(s.(ops := s.ops[p := op]))
  {
    var t := s.(ops := s.ops[p := op]);
    ArriveShape(s, p, op);
    OpMoves(s, t, p);
  }

  lemma ArriveShape(s: State, p: OpId, op: Op)
    requires Shaped(s) && p !in s.ops && op.phase.Waiting?
    ensures Shaped(s.(ops := s.ops[p := op]))
  {
  }

  lemma AcquireShape(s: State, p: OpId)
    requires Shaped(s) && CanAcquire(s, p)
    ensures Shaped(Acquired(s, p))
  {
  }

  lemma AcquireKeeps(s: State, p: OpId)
    requires Inv(s) && CanAcquire(s, p)
    ensures Inv(Acquired(s, p))
  {
    AcquireShape(s, p);
    OpMoves(s, Acquired(s, p), p);
  }

  lemma TakePlanShape(s: State, p: OpId)
    requires Shaped(s) && CanTakePlan(s, p)
    ensures Shaped(PlanTaken(s, p))
  {
  }

  lemma TakePlanKeeps(s: State, p: OpId)
    requires Inv(s) && CanTakePlan(s, p)
    ensures Inv(PlanTaken(s, p))
  {
    var t := PlanTaken(s, p);
    TakePlanShape(s, p);
    assert PlanSound(s, p);
    PlanKept(s, t, p);
    OpMoves(s, t, p);
  }

  lemma LeaveShape(s: State, p: OpId)
    requires Shaped(s) && p in s.ops
    ensures Shaped(Left(s, p))
  {
  }

  lemma LeaveKeeps(s: State, p: OpId)
    requires Inv(s) && p in s.ops
    ensures Inv(Left(s, p))
  {
    LeaveShape(s, p);
    OpMoves(s, Left(s, p), p);
  }

  lemma DropShape(s: State, p: OpId)
    requires Shaped(s)
    ensures Shaped(Dropped(s, p))
  {
  }

  lemma DropKeeps(s: State, p: OpId)
    requires Inv(s)
    ensures Inv(Dropped(s, p))
  {
    var t := Dropped(s, p);
    DropShape(s, p);
    if p in s.ops {
      assert PlanSound(s, p);
      FewerTokens(s.commits, t.commits);
      PlanKept(s, t, p);
    }
    OpMoves(s, t, p);
  }

  // ----------------------------------------------------- executing the requests

  /** A prepare touches leases only: some expire, one may become a fresh one. */
  lemma PrepareEffect(s: Store, id: FileId, user: User, chunks: seq<Chunk>, now: int, mono: int, token: Token,
                      f: FileId)
    ensures var (t, answer) := Prepare(s, id, user, chunks, now, mono, token);
            && t.rows == s.rows && t.index == s.index && t.blobs == s.blobs
            && (LeaseOf(t, f) == LeaseOf(s, f) || LeaseOf(t, f).None?
                || (f == id && LeaseOf(t, f).Some? && LeaseOf(t, f).value.token == token))
            && (answer.Ok? ==>
                  && id in s.rows
                  && LeaseOf(t, id).Some? && LeaseOf(t, id).value.token == token
                  && LeaseOf(t, id).value.binding.chunks == chunks
                  && answer.value.token == token
                  && Scan(s.rows[id].size, ChunksOf(s, id), chunks).Ok?
                  && answer.value.write == Scan(s.rows[id].size, ChunksOf(s, id), chunks).value.writes)
  {
  }

  lemma PrepareTokens(s: Store, id: FileId, user: User, chunks: seq<Chunk>, now: int, mono: int, token: Token)
    ensures var t := Prepare(s, id, user, chunks, now, mono, token).0;
            forall f :: f in t.leases ==>
              (f == id && t.leases[f].token == token) || (f in s.leases && t.leases[f] == s.leases[f])
  {
  }

  /** Issuing one more token, for leases and at most one reply of its own file. */
  lemma OneMoreIssued(s: State, t: State, p: OpId, token: Token)
    requires TokensKnown(s) && p in s.ops && token !in s.issued && t.issued == s.issued[token := s.ops[p].id]
    requires t.ops == s.ops && t.commits == s.commits
    requires forall f :: f in t.store.leases ==>
               || (f == s.ops[p].id && t.store.leases[f].token == token)
               || (f in s.store.leases && t.store.leases[f] == s.store.leases[f])
    requires forall q :: q in t.replies ==>
      (q == p && t.replies[q].token == token) || (q in s.replies && t.replies[q] == s.replies[q])
    ensures TokensKnown(t)
  {
  }

  lemma RunPrepareTokens(s: State, p: OpId, token: Token)
    requires Shaped(s) && CanRunPrepare(s, p, token)
    ensures TokensKnown(PrepareRun(s, p, token))
  {
    var op := s.ops[p];
    PrepareEffect(s.store, op.id, op.user, Describe(op.parts), s.now, s.mono, token, op.id);
    PrepareTokens(s.store, op.id, op.user, Describe(op.parts), s.now, s.mono, token);
    OneMoreIssued(s, PrepareRun(s, p, token), p, token);
  }

  lemma RunPrepareShape(s: State, p: OpId, token: Token)
    requires Shaped(s) && CanRunPrepare(s, p, token)
    ensures Shaped(PrepareRun(s, p, token))
  {
    RunPrepareTokens(s, p, token);
  }

  lemma FreshPlanFits(parts: seq<Part>, plan: Plan, size: nat, existing: map<nat, Digest>,
                      lease: Lease, blob: Option<Blob>, inFlight: set<Token>)
    requires Scan(size, existing, Describe(parts)).Ok?
    requires plan.write == Scan(size, existing, Describe(parts)).value.writes
    requires lease.token == plan.token && lease.token !in inFlight
    requires lease.binding.chunks == Describe(parts)
    ensures PlanFits(parts, plan, 0, existing, Some(lease), blob, inFlight)
  {
    var chunks := Describe(parts);
    ScanMeaning(size, existing, chunks);
    forall k | 0 <= k < |parts|
      ensures 0 <= parts[k].index && |parts[k].data| <= STRIDE
      ensures parts[k].index in plan.write || parts[k].index in existing
    {
      assert Acceptable(size, existing, chunks[k]);
      assert chunks[k].index in Named(chunks);
    }
  }

  lemma NewLeaseHarmless(parts: seq<Part>, plan: Plan, progress: nat, existing: map<nat, Digest>,
                         lease: Option<Lease>, lease': Lease, blob: Option<Blob>, inFlight: set<Token>)
    requires PlanFits(parts, plan, progress, existing, lease, blob, inFlight)
    requires lease'.token != plan.token && lease'.token !in inFlight
    ensures PlanFits(parts, plan, progress, existing, Some(lease'), blob, inFlight)
  {
  }

  lemma CommitTokensIssued(s: State)
    requires Shaped(s)
    ensures s.commits.Values <= s.issued.Keys
  {
    forall v | v in s.commits.Values
      ensures v in s.issued.Keys
    {
      var q :| q in s.commits && s.commits[q] == v;
    }
  }

  /** The plan a fresh lease brings suits its own upload. */
  lemma RunPrepareOwn(s: State, p: OpId, token: Token)
    requires Shaped(s) && CanRunPrepare(s, p, token) && token !in s.commits.Values
    requires p in PrepareRun(s, p, token).replies && p !in s.replies && PlanOf(s, p).None?
    ensures PlanSound(PrepareRun(s, p, token), p)
  {
    var op := s.ops[p];
    var t := PrepareRun(s, p, token);
    PrepareEffect(s.store, op.id, op.user, Describe(op.parts), s.now, s.mono, token, op.id);
    if PlanOf(t, p).Some? {
      FreshPlanFits(op.parts, t.replies[p], s.store.rows[op.id].size, ChunksOf(s.store, op.id),
                    LeaseOf(t.store, op.id).value, BlobOf(t.store, op.id), t.commits.Values);
    }
  }

  /** A plan survives when its file keeps its lease, loses it, or gets one with a fresh token. */
  lemma PlanSurvivesLease(s: State, t: State, q: OpId, token: Token)
    requires q in s.ops && t.ops == s.ops && t.commits == s.commits && PlanSound(s, q) && PlanOf(t, q) == PlanOf(s, q)
    requires t.store.index == s.store.index && t.store.blobs == s.store.blobs
    requires token !in s.commits.Values && (PlanOf(s, q).Some? ==> PlanOf(s, q).value.token != token)
    requires var f := s.ops[q].id;
             || LeaseOf(t.store, f) == LeaseOf(s.store, f) || LeaseOf(t.store, f).None?
             || LeaseOf(t.store, f).value.token == token
    ensures PlanSound(t, q)
  {
    var other := s.ops[q];
    if PlanOf(t, q).Some? {
      if LeaseOf(t.store, other.id) == LeaseOf(s.store, other.id) || LeaseOf(t.store, other.id).None? {
        PlanKept(s, t, q);
      } else {
        NewLeaseHarmless(other.parts, PlanOf(s, q).value, Progress(other), ChunksOf(s.store, other.id),
                         LeaseOf(s.store, other.id), LeaseOf(t.store, other.id).value,
                         BlobOf(s.store, other.id), s.commits.Values);
      }
    }
  }

  lemma RunPrepareOther(s: State, p: OpId, token: Token, q: OpId)
    requires Shaped(s) && CanRunPrepare(s, p, token) && token !in s.commits.Values
    requires q in s.ops && PlanSound(s, q) && PlanOf(PrepareRun(s, p, token), q) == PlanOf(s, q)
    ensures PlanSound(PrepareRun(s, p, token), q)
  {
    var op := s.ops[p];
    PrepareEffect(s.store, op.id, op.user, Describe(op.parts), s.now, s.mono, token, s.ops[q].id);
    PlanSurvivesLease(s, PrepareRun(s, p, token), q, token);
  }

  lemma RunPreparePlan(s: State, p: OpId, token: Token, q: OpId)
    requires Shaped(s) && CanRunPrepare(s, p, token)
    requires q in s.ops && PlanSound(s, q)
    ensures PlanSound(PrepareRun(s, p, token), q)
  {
    CommitTokensIssued(s);
    if PlanOf(PrepareRun(s, p, token), q) == PlanOf(s, q) {
      RunPrepareOther(s, p, token, q);
    } else {
      RunPrepareOwn(s, p, token);
    }
  }

  /** A fresh lease invalidates every commit in flight for its file. */
  lemma RunPrepareCommit(s: State, p: OpId, token: Token, q: OpId)
    requires Shaped(s) && CanRunPrepare(s, p, token)
    requires q in s.commits && CommitSound(s, q)
    ensures CommitSound(PrepareRun(s, p, token), q)
  {
    var op := s.ops[p];
    PrepareEffect(s.store, op.id, op.user, Describe(op.parts), s.now, s.mono, token, s.ops[q].id);
  }

  lemma RunPrepareKeeps(s: State, p: OpId, token: Token)
    requires Inv(s) && CanRunPrepare(s, p, token)
    ensures Inv(PrepareRun(s, p, token))
  {
    var t := PrepareRun(s, p, token);
    var op := s.ops[p];
    RunPrepareShape(s, p, token);
    PrepareEffect(s.store, op.id, op.user, Describe(op.parts), s.now, s.mono, token, op.id);
    forall q | q in t.ops
      ensures PlanSound(t, q)
    {
      assert PlanSound(s, q);
      RunPreparePlan(s, p, token, q);
    }
    forall q | q in t.commits
      ensures CommitSound(t, q)
    {
      assert CommitSound(s, q);
      RunPrepareCommit(s, p, token, q);
    }
    ReadersKept(s, t);
    SameFilesSound(s.store, t.store);
  }

  lemma SameFilesSound(a: Store, b: Store)
    requires StoreSound(a)
    requires b.rows == a.rows && b.index == a.index && b.blobs == a.blobs
    ensures StoreSound(b)
  {
    forall id | id in b.rows
      ensures ReadyComplete(b.rows[id], ChunksOf(b, id))
    {
      assert ReadyComplete(a.rows[id], ChunksOf(a, id));
    }
  }

  // -------------------------------------------------------------------- writing

  /** While an upload has a plan, nobody else has one for the same file. */
  lemma PlannedAlone(s: State, p: OpId, q: OpId)
    requires LocksHeld(s) && p in s.ops && q in s.ops && p != q
    requires PlanOf(s, p).Some? && PlanOf(s, q).Some?
    ensures s.ops[p].id != s.ops[q].id
  {
  }

  lemma OtherSlotKept(b: Blob, index: nat, data: ByteString, i: nat, content: ByteString)
    requires i != index && |data| <= STRIDE && |content| <= STRIDE && SlotHolds(b, i, content)
    ensures SlotHolds(WriteBlob(b, index, data), i, content)
  {
    OtherSlotUntouched(b.bytes, index, data, i, |content|);
  }

  /** Writing a slot that is not indexed disturbs no indexed one. */
  lemma FileFitsAfterWrite(row: Row, chunks: map<nat, Digest>, b: Blob, index: nat, data: ByteString)
    requires FileFits(row, chunks, Some(b)) && index !in chunks && |data| <= STRIDE
    ensures FileFits(row, chunks, Some(WriteBlob(b, index, data)))
  {
    forall i | i in chunks
      ensures SlotDurable(WriteBlob(b, index, data), i, PayloadLength(row.size, i), chunks[i])
    {
      OtherSlotUntouched(b.bytes, index, data, i, PayloadLength(row.size, i));
    }
  }

  lemma StoreSoundAfterWrite(s: Store, id: FileId, index: nat, data: ByteString)
    requires StoreSound(s) && id in s.blobs && index !in ChunksOf(s, id) && |data| <= STRIDE
    ensures StoreSound(BlobWritten(s, id, index, data))
  {
    var t := BlobWritten(s, id, index, data);
    forall f | f in t.index
      ensures FileFits(t.rows[f], t.index[f], BlobOf(t, f))
    {
      if f == id {
        FileFitsAfterWrite(s.rows[id], s.index[id], s.blobs[id], index, data);
      }
    }
    forall f | f in t.rows
      ensures ReadyComplete(t.rows[f], ChunksOf(t, f))
    {
      assert ReadyComplete(s.rows[f], ChunksOf(s, f));
    }
  }

  lemma PlanFitsAfterWrite(parts: seq<Part>, plan: Plan, progress: nat, existing: map<nat, Digest>,
                           lease: Option<Lease>, b: Blob, inFlight: set<Token>)
    requires PlanFits(parts, plan, progress, existing, lease, Some(b), inFlight)
    requires progress < |parts| && parts[progress].index in plan.write
    ensures PlanFits(parts, plan, progress + 1, existing, lease,
                     Some(WriteBlob(b, parts[progress].index, parts[progress].data)), inFlight)
  {
    var part := parts[progress];
    var b' := WriteBlob(b, part.index, part.data);
    forall k | 0 <= k < progress + 1 && parts[k].index in plan.write
      ensures SlotHolds(b', parts[k].index, parts[k].data) && parts[k].index in b'.clean + b'.dirty
    {
      if k == progress {
        ReadBackSlot(b.bytes, part.index, part.data);
      } else {
        assert Describe(parts)[k].index != Describe(parts)[progress].index;
        OtherSlotKept(b, part.index, part.data, parts[k].index, parts[k].data);
      }
    }
  }

  /** A step in which upload `p` writes `data` into the slot its cursor points at. */
  ghost predicate WritesSlot(s: State, t: State, p: OpId, data: ByteString)
  {
    && CanWritePart(s, p)
    && |data| <= STRIDE
    && t.store == BlobWritten(s.store, s.ops[p].id, s.ops[p].parts[s.ops[p].phase.next].index, data)
    && t.ops.Keys == s.ops.Keys
    && (forall q :: q in s.ops && q != p ==> t.ops[q] == s.ops[q])
    && t.ops[p].id == s.ops[p].id && t.ops[p].parts == s.ops[p].parts
    && t.replies == s.replies && t.commits == s.commits && t.readers == s.readers
  }

  /** The lock protects the other plans. */
  lemma WriteKeepsPlan(s: State, t: State, p: OpId, data: ByteString, q: OpId)
    requires LocksHeld(s) && WritesSlot(s, t, p, data)
    requires q in s.ops && q != p && PlanSound(s, q)
    ensures PlanSound(t, q)
  {
    if PlanOf(s, q).Some? {
      PlannedAlone(s, p, q);
      PlanKept(s, t, q);
    }
  }

  /** The lease token protects the commits: none in flight for this file is acceptable. */
  lemma WriteKeepsCommit(s: State, t: State, p: OpId, data: ByteString, q: OpId)
    requires WritesSlot(s, t, p, data) && PlanSound(s, p)
    requires q in s.ops && q in s.commits && CommitSound(s, q) && q in t.ops
    requires t.ops[q].id == s.ops[q].id && t.ops[q].parts == s.ops[q].parts
    ensures CommitSound(t, q)
  {
    if s.ops[q].id == s.ops[p].id {
      assert s.commits[q] in s.commits.Values;
    } else {
      CommitKept(s, t, q);
    }
  }

  lemma WriteHarmless(s: State, t: State, p: OpId, data: ByteString)
    requires Inv(s) && Shaped(t)
    requires WritesSlot(s, t, p, data)
    requires PlanSound(t, p)
    ensures Inv(t)
  {
    WriteKeepsPlans(s, t, p, data);
    WriteKeepsCommits(s, t, p, data);
    WriteKeepsStore(s, t, p, data);
    ReadersKept(s, t);
  }

  lemma WriteKeepsStore(s: State, t: State, p: OpId, data: ByteString)
    requires StoreSound(s.store) && PlansSound(s) && WritesSlot(s, t, p, data)
    ensures StoreSound(t.store)
  {
    var op := s.ops[p];
    assert PlanSound(s, p);
    StoreSoundAfterWrite(s.store, op.id, op.parts[op.phase.next].index, data);
  }

  lemma WriteKeepsPlans(s: State, t: State, p: OpId, data: ByteString)
    requires LocksHeld(s) && PlansSound(s) && WritesSlot(s, t, p, data) && PlanSound(t, p)
    ensures PlansSound(t)
  {
    forall q | q in t.ops
      ensures PlanSound(t, q)
    {
      assert PlanSound(s, q);
      if q != p {
        WriteKeepsPlan(s, t, p, data, q);
      }
    }
  }

  lemma WriteKeepsCommits(s: State, t: State, p: OpId, data: ByteString)
    requires Shaped(s) && Shaped(t) && PlansSound(s) && CommitsSound(s) && WritesSlot(s, t, p, data)
    ensures CommitsSound(t)
  {
    assert PlanSound(s, p);
    forall q | q in t.commits
      ensures CommitSound(t, q)
    {
      assert CommitSound(s, q);
      WriteKeepsCommit(s, t, p, data, q);
    }
  }

  lemma AdvanceShape(s: State, p: OpId)
    requires Shaped(s) && p in s.ops && s.ops[p].phase.Writing?
    ensures Shaped(Advanced(s, p))
  {
  }

  lemma WritePartShape(s: State, p: OpId)
    requires Shaped(s) && CanWritePart(s, p)
    ensures Shaped(PartWritten(s, p))
  {
    AdvanceShape(s, p);
  }

  lemma WritePartPlan(s: State, p: OpId)
    requires CanWritePart(s, p) && PlanSound(s, p)
    ensures PlanSound(PartWritten(s, p), p)
    ensures |s.ops[p].parts[s.ops[p].phase.next].data| <= STRIDE
  {
    var op := s.ops[p];
    PlanFitsAfterWrite(op.parts, op.phase.plan, op.phase.next, ChunksOf(s.store, op.id),
                       LeaseOf(s.store, op.id), s.store.blobs[op.id], s.commits.Values);
  }

  lemma WritePartKeeps(s: State, p: OpId)
    requires Inv(s) && CanWritePart(s, p)
    ensures Inv(PartWritten(s, p))
  {
    WritePartPlan(s, p);
    WritePartShape(s, p);
    WriteHarmless(s, PartWritten(s, p), p, s.ops[p].parts[s.ops[p].phase.next].data);
  }

  lemma SkipPartPlan(s: State, p: OpId)
    requires CanSkipPart(s, p) && PlanSound(s, p)
    ensures PlanSound(Advanced(s, p), p)
  {
  }

  lemma SkipPartKeeps(s: State, p: OpId)
    requires Inv(s) && CanSkipPart(s, p)
    ensures Inv(Advanced(s, p))
  {
    SkipPartPlan(s, p);
    AdvanceShape(s, p);
    OpMoves(s, Advanced(s, p), p);
  }

  lemma TornShape(s: State, p: OpId, n: nat)
    requires Shaped(s) && CanTear(s, p, n)
    ensures Shaped(TornWritten(s, p, n))
  {
  }

  lemma WriteTornKeeps(s: State, p: OpId, n: nat)
    requires Inv(s) && CanTear(s, p, n)
    ensures Inv(TornWritten(s, p, n))
  {
    var op := s.ops[p];
    assert PlanSound(s, p);
    TornShape(s, p, n);
    WriteHarmless(s, TornWritten(s, p, n), p, op.parts[op.phase.next].data[..n]);
  }

  // ------------------------------------------------------------ sync and commit

  /** Syncing forgets nothing: bytes stay, and what was durable stays durable. */
  lemma SyncKeepsCommitFits(parts: seq<Part>, token: Token, existing: map<nat, Digest>, lease: Option<Lease>, b: Blob)
    requires CommitFits(parts, token, existing, lease, Some(b))
    ensures CommitFits(parts, token, existing, lease, Some(SyncBlob(b)))
  {
  }

  lemma SyncKeepsPlanFits(parts: seq<Part>, plan: Plan, progress: nat, existing: map<nat, Digest>,
                          lease: Option<Lease>, b: Blob, inFlight: set<Token>)
    requires PlanFits(parts, plan, progress, existing, lease, Some(b), inFlight)
    ensures PlanFits(parts, plan, progress, existing, lease, Some(SyncBlob(b)), inFlight)
  {
  }

  /** After the sync, the plan of an upload that wrote all its parts vouches for its commit. */
  lemma PlanBecomesCommit(parts: seq<Part>, plan: Plan, existing: map<nat, Digest>,
                          lease: Option<Lease>, blob: Option<Blob>, inFlight: set<Token>)
    requires PlanFits(parts, plan, |parts|, existing, lease, blob, inFlight)
    ensures CommitFits(parts, plan.token, existing, lease, if blob.Some? then Some(SyncBlob(blob.value)) else None)
    ensures plan.write == [] ==> CommitFits(parts, plan.token, existing, lease, blob)
  {
  }

  lemma StoreSoundAfterSync(s: Store, id: FileId)
    requires StoreSound(s) && id in s.blobs
    ensures StoreSound(s.(blobs := s.blobs[id := SyncBlob(s.blobs[id])]))
  {
    var t := s.(blobs := s.blobs[id := SyncBlob(s.blobs[id])]);
    forall f | f in t.rows
      ensures ReadyComplete(t.rows[f], ChunksOf(t, f))
    {
      assert ReadyComplete(s.rows[f], ChunksOf(s, f));
    }
  }

  /** A sync changes at most the durability of one blob. */
  lemma SyncEffect(s: State, p: OpId, id: FileId)
    requires CanSync(s, p)
    ensures var t := Synced(s, p);
            && t == s.(store := s.store.(blobs := t.store.blobs))
            && ChunksOf(t.store, id) == ChunksOf(s.store, id)
            && LeaseOf(t.store, id) == LeaseOf(s.store, id)
            && (BlobOf(t.store, id) == BlobOf(s.store, id)
                || (BlobOf(s.store, id).Some? && BlobOf(t.store, id) == Some(SyncBlob(BlobOf(s.store, id).value))))
  {
  }

  lemma SyncPlanSound(s: State, t: State, q: OpId)
    requires q in s.ops && PlanSound(s, q)
    requires t == s.(store := s.store.(blobs := t.store.blobs))
    requires BlobOf(s.store, s.ops[q].id).Some?
    requires BlobOf(t.store, s.ops[q].id) == Some(SyncBlob(BlobOf(s.store, s.ops[q].id).value))
    ensures PlanSound(t, q)
  {
    var other := s.ops[q];
    if PlanOf(s, q).Some? {
      SyncKeepsPlanFits(other.parts, PlanOf(s, q).value, Progress(other), ChunksOf(s.store, other.id),
                        LeaseOf(s.store, other.id), s.store.blobs[other.id], s.commits.Values);
    }
  }

  lemma SyncCommitSound(s: State, p: OpId, q: OpId)
    requires CanSync(s, p) && q in s.ops && q in s.commits && CommitSound(s, q)
    ensures CommitSound(Synced(s, p), q)
  {
    var other := s.ops[q];
    if other.id in s.store.blobs {
      SyncKeepsCommitFits(other.parts, s.commits[q], ChunksOf(s.store, other.id),
                          LeaseOf(s.store, other.id), s.store.blobs[other.id]);
    }
  }

  lemma SyncPlansSound(s: State, p: OpId)
    requires PlansSound(s) && CanSync(s, p)
    ensures PlansSound(Synced(s, p))
  {
    forall q | q in s.ops
      ensures PlanSound(Synced(s, p), q)
    {
      assert PlanSound(s, q);
      SyncEffect(s, p, s.ops[q].id);
      if BlobOf(Synced(s, p).store, s.ops[q].id) == BlobOf(s.store, s.ops[q].id) {
        PlanKept(s, Synced(s, p), q);
      } else {
        SyncPlanSound(s, Synced(s, p), q);
      }
    }
  }

  lemma SyncCommitsSound(s: State, p: OpId)
    requires Shaped(s) && CommitsSound(s) && CanSync(s, p) && Shaped(Synced(s, p))
    ensures CommitsSound(Synced(s, p))
  {
    forall q | q in s.commits
      ensures CommitSound(Synced(s, p), q)
    {
      assert CommitSound(s, q);
      SyncCommitSound(s, p, q);
    }
  }

  lemma SyncShape(s: State, p: OpId)
    requires Shaped(s) && CanSync(s, p)
    ensures Shaped(Synced(s, p))
  {
  }

  lemma SyncKeeps(s: State, p: OpId)
    requires Inv(s) && CanSync(s, p)
    ensures Inv(Synced(s, p))
  {
    SyncShape(s, p);
    SyncPlansSound(s, p);
    SyncCommitsSound(s, p);
    ReadersKept(s, Synced(s, p));
    if s.ops[p].id in s.store.blobs {
      StoreSoundAfterSync(s.store, s.ops[p].id);
    }
  }

  /** What an upload may say in its commit. */
  ghost predicate MayCommit(s: State, p: OpId)
    requires CanSync(s, p)
  {
    var op := s.ops[p];
    CommitFits(op.parts, op.phase.plan.token, ChunksOf(s.store, op.id), LeaseOf(s.store, op.id), BlobOf(s.store, op.id))
  }

  lemma SyncedMayCommit(s: State, p: OpId)
    requires CanSync(s, p) && PlanSound(s, p)
    ensures MayCommit(Synced(s, p), p)
  {
    var op := s.ops[p];
    PlanBecomesCommit(op.parts, op.phase.plan, ChunksOf(s.store, op.id),
                      LeaseOf(s.store, op.id), BlobOf(s.store, op.id), s.commits.Values);
  }

  lemma SendShape(s: State, p: OpId)
    requires Shaped(s) && CanSync(s, p)
    ensures Shaped(CommitSent(s, p))
  {
  }

  lemma OneMoreToken(a: map<OpId, Token>, p: OpId, token: Token)
    ensures a[p := token].Values <= a.Values + {token}
  {
  }

  /** Another upload's plan is for another file, whose lease has another token. */
  lemma SendPlanSound(s: State, p: OpId, q: OpId)
    requires Shaped(s) && CanSync(s, p)
    requires q in s.ops && q != p && PlanSound(s, q)
    ensures PlanSound(CommitSent(s, p), q)
  {
    var other := s.ops[q];
    var t := CommitSent(s, p);
    if PlanOf(s, q).Some? {
      PlannedAlone(s, p, q);
      OneMoreToken(s.commits, p, s.ops[p].phase.plan.token);
      assert LeaseOf(s.store, other.id).Some? ==> LeaseOf(s.store, other.id).value.token !in t.commits.Values;
      InFlightOnly(other.parts, PlanOf(s, q).value, Progress(other), ChunksOf(s.store, other.id),
                   LeaseOf(s.store, other.id), BlobOf(s.store, other.id), s.commits.Values, t.commits.Values);
    }
  }

  lemma InFlightOnly(parts: seq<Part>, plan: Plan, progress: nat, existing: map<nat, Digest>,
                     lease: Option<Lease>, blob: Option<Blob>, inFlight: set<Token>, inFlight': set<Token>)
    requires PlanFits(parts, plan, progress, existing, lease, blob, inFlight)
    requires lease.Some? ==> lease.value.token !in inFlight'
    ensures PlanFits(parts, plan, progress, existing, lease, blob, inFlight')
  {
  }

  lemma SendPlansSound(s: State, p: OpId)
    requires Shaped(s) && PlansSound(s) && CanSync(s, p)
    ensures PlansSound(CommitSent(s, p))
  {
    var t := CommitSent(s, p);
    forall q | q in t.ops
      ensures PlanSound(t, q)
    {
      if q != p {
        assert PlanSound(s, q);
        SendPlanSound(s, p, q);
      }
    }
  }

  lemma SendCommitsSound(s: State, p: OpId)
    requires Shaped(s) && CommitsSound(s) && CanSync(s, p) && MayCommit(s, p) && Shaped(CommitSent(s, p))
    ensures CommitsSound(CommitSent(s, p))
  {
    var t := CommitSent(s, p);
    forall q | q in t.commits
      ensures CommitSound(t, q)
    {
      if q != p {
        assert CommitSound(s, q);
        CommitKept(s, t, q);
      }
    }
  }

  lemma SendKeeps(s: State, p: OpId)
    requires Inv(s) && CanSync(s, p) && MayCommit(s, p)
    ensures Inv(CommitSent(s, p))
  {
    SendShape(s, p);
    SendPlansSound(s, p);
    SendCommitsSound(s, p);
    ReadersKept(s, CommitSent(s, p));
  }

  lemma SyncAndCommitKeeps(s: State, p: OpId)
    requires Inv(s) && CanSync(s, p)
    ensures Inv(CommitSent(Synced(s, p), p))
  {
    assert PlanSound(s, p);
    SyncKeeps(s, p);
    SyncedMayCommit(s, p);
    SendKeeps(Synced(s, p), p);
  }

  /** A commit changes one file's index and lease, and only when lease and list match. */
  lemma CommitEffect(s: Store, id: FileId, user: User, chunks: seq<Chunk>, token: Token, now: int, mono: int)
    ensures var (t, answer) := Commit(s, id, user, chunks, token, now, mono);
            && t.rows == s.rows && t.blobs == s.blobs
            && (answer.Err? ==> t == s)
            && (answer.Ok? ==>
                  && LeaseOf(s, id).Some? && LeaseOf(s, id).value.token == token
                  && id in s.rows && s.rows[id].state == Uploading
                  && Passes(s.rows[id].size, ChunksOf(s, id), chunks)
                  && t.index == s.index[id := Indexed(ChunksOf(s, id), chunks)]
                  && t.leases == s.leases - {id})
  {
    if Commit(s, id, user, chunks, token, now, mono).1.Ok? {
      ScanMeaning(s.rows[id].size, ChunksOf(s, id), chunks);
    }
  }

  lemma FileFitsAfterCommit(row: Row, existing: map<nat, Digest>, blob: Option<Blob>,
                            parts: seq<Part>, token: Token, lease: Lease)
    requires FileFits(row, existing, blob)
    requires CommitFits(parts, token, existing, Some(lease), blob) && lease.token == token
    requires Passes(row.size, existing, Describe(parts))
    ensures FileFits(row, Indexed(existing, Describe(parts)), blob)
  {
    var chunks := Describe(parts);
    IndexedMeaning(row.size, existing, chunks);
    var r := Indexed(existing, chunks);
    forall i | i in r
      ensures i < ChunkCount(row.size)
      ensures blob.Some? ==> SlotDurable(blob.value, i, PayloadLength(row.size, i), r[i])
    {
      if i !in existing {
        assert i in Named(chunks);
        var k :| 0 <= k < |chunks| && chunks[k].index == i;
        assert Acceptable(row.size, existing, chunks[k]);
      }
    }
  }

  lemma CommitShape(s: State, p: OpId)
    requires Shaped(s) && p in s.ops && p in s.commits
    ensures Shaped(CommitRun(s, p))
  {
    var op := s.ops[p];
    CommitEffect(s.store, op.id, op.user, Describe(op.parts), s.commits[p], s.now, s.mono);
  }

  lemma CommitStoreSound(s: State, p: OpId)
    requires StoreSound(s.store) && p in s.ops && p in s.commits && CommitSound(s, p)
    ensures StoreSound(CommitRun(s, p).store)
  {
    var op := s.ops[p];
    var t := CommitRun(s, p).store;
    CommitEffect(s.store, op.id, op.user, Describe(op.parts), s.commits[p], s.now, s.mono);
    if t != s.store {
      if op.id !in s.store.index {
        assert FileFits(s.store.rows[op.id], ChunksOf(s.store, op.id), BlobOf(s.store, op.id));
      }
      FileFitsAfterCommit(s.store.rows[op.id], ChunksOf(s.store, op.id), BlobOf(s.store, op.id),
                          op.parts, s.commits[p], LeaseOf(s.store, op.id).value);
      forall f | f in t.rows
        ensures ReadyComplete(t.rows[f], ChunksOf(t, f))
      {
        assert ReadyComplete(s.store.rows[f], ChunksOf(s.store, f));
      }
      forall f | f in t.index
        ensures f in t.rows && FileFits(t.rows[f], t.index[f], BlobOf(t, f))
      {
        assert BlobOf(t, f) == BlobOf(s.store, f);
      }
    }
  }

  /** No commit is accepted for a file that an upload is writing to. */
  lemma CommitPlanSound(s: State, p: OpId, q: OpId)
    requires p in s.ops && p in s.commits && q in s.ops && PlanSound(s, q)
    ensures PlanSound(CommitRun(s, p), q)
  {
    var op := s.ops[p];
    var t := CommitRun(s, p);
    CommitEffect(s.store, op.id, op.user, Describe(op.parts), s.commits[p], s.now, s.mono);
    FewerTokens(s.commits, t.commits);
    if PlanOf(s, q).Some? {
      assert s.commits[p] in s.commits.Values;
      PlanKept(s, t, q);
    }
  }

  lemma CommitCommitSound(s: State, p: OpId, q: OpId)
    requires p in s.ops && p in s.commits && q in s.ops && q in s.commits && q != p && CommitSound(s, q)
    ensures CommitSound(CommitRun(s, p), q)
  {
    var op := s.ops[p];
    CommitEffect(s.store, op.id, op.user, Describe(op.parts), s.commits[p], s.now, s.mono);
  }

  lemma RunCommitKeeps(s: State, p: OpId)
    requires Inv(s) && p in s.ops && p in s.commits
    ensures Inv(CommitRun(s, p))
  {
    var op := s.ops[p];
    var t := CommitRun(s, p);
    CommitShape(s, p);
    assert CommitSound(s, p);
    CommitStoreSound(s, p);
    CommitEffect(s.store, op.id, op.user, Describe(op.parts), s.commits[p], s.now, s.mono);
    forall q | q in t.ops
      ensures PlanSound(t, q)
    {
      assert PlanSound(s, q);
      CommitPlanSound(s, p, q);
    }
    forall q | q in t.commits
      ensures CommitSound(t, q)
    {
      assert CommitSound(s, q);
      CommitCommitSound(s, p, q);
    }
    ReadersKept(s, t);
  }

  // ------------------------------------------------------------- file lifecycle

  /** Two stores agree on every file but one. */
  ghost predicate AgreeExcept(a: Store, b: Store, f: FileId)
  {
    && (forall g :: g != f ==> (g in a.rows <==> g in b.rows) && (g in a.index <==> g in b.index))
    && (forall g :: g != f && g in a.rows ==> b.rows[g] == a.rows[g])
    && (forall g :: g != f && g in a.index ==> b.index[g] == a.index[g])
    && (forall g :: g != f ==> LeaseOf(b, g) == LeaseOf(a, g) && BlobOf(b, g) == BlobOf(a, g))
  }

  /** A control operation on file `f`: nobody relies on `f` through the lock. */
  ghost predicate Controls(s: State, t: State, f: FileId)
  {
    && AgreeExcept(s.store, t.store, f)
    && t == s.(store := t.store, cleaner := t.cleaner, locks := t.locks)
    && (forall p :: p in s.ops && Holds(s.ops[p]) ==> s.ops[p].id != f)
    && (forall r :: r in s.readers && HoldsShared(s.readers[r]) ==> s.readers[r].id != f)
    && (LeaseOf(t.store, f).None? || SameFile(s.store, t.store, f))
  }

  lemma AgreeSound(a: Store, b: Store, f: FileId)
    requires StoreSound(a) && AgreeExcept(a, b, f)
    requires f in b.index ==> f in b.rows && FileFits(b.rows[f], b.index[f], BlobOf(b, f))
    requires f in b.rows ==> ReadyComplete(b.rows[f], ChunksOf(b, f))
    ensures StoreSound(b)
  {
    forall g | g in b.index
      ensures g in b.rows && FileFits(b.rows[g], b.index[g], BlobOf(b, g))
    {
    }
    forall g | g in b.rows
      ensures ReadyComplete(b.rows[g], ChunksOf(b, g))
    {
      if g != f {
        assert ReadyComplete(a.rows[g], ChunksOf(a, g));
      }
    }
  }

  lemma ControlKeepsPlans(s: State, t: State, f: FileId)
    requires PlansSound(s) && Controls(s, t, f)
    ensures PlansSound(t)
  {
    forall q | q in t.ops
      ensures PlanSound(t, q)
    {
      assert PlanSound(s, q);
      if PlanOf(s, q).Some? {
        PlanKept(s, t, q);
      }
    }
  }

  lemma ControlKeepsCommits(s: State, t: State, f: FileId)
    requires Shaped(s) && Shaped(t) && CommitsSound(s) && Controls(s, t, f)
    ensures CommitsSound(t)
  {
    forall q | q in t.commits
      ensures CommitSound(t, q)
    {
      assert CommitSound(s, q);
      if s.ops[q].id != f || SameFile(s.store, t.store, f) {
        CommitKept(s, t, q);
      }
    }
  }

  lemma ControlKeeps(s: State, t: State, f: FileId)
    requires Inv(s) && Shaped(t) && Controls(s, t, f) && StoreSound(t.store)
    ensures Inv(t)
  {
    ControlKeepsPlans(s, t, f);
    ControlKeepsCommits(s, t, f);
    ReadersKept(s, t);
  }

  /** Leases only disappear, locks and phases stay. */
  lemma StoreShape(s: State, store: Store)
    requires Shaped(s)
    requires forall g :: g in store.leases ==> g in s.store.leases && store.leases[g] == s.store.leases[g]
    ensures Shaped(s.(store := store))
  {
  }

  lemma CreateEffect(s: Store, id: FileId, user: User, size: int, ttl: int, envelope: string, now: int, io: Io)
    ensures var t := Create(s, id, user, size, ttl, envelope, now, io).0;
            && AgreeExcept(s, t, id)
            && (t == s || (id !in s.rows && LeaseOf(t, id).None? && t.index == s.index
                           && (id in t.rows ==> t.rows[id].state == Uploading)))
            && (forall g :: g in t.leases ==> g in s.leases && t.leases[g] == s.leases[g])
  {
    AdmitsFresh(s.rows, id, user, size, ttl, envelope, now);
    if Admit(s.rows, id, user, size, ttl, envelope, now) == Fresh {
      var row := Row(user, size, now + ttl, now, Uploading, envelope);
      FreshFrame(s, id, row, io);
      FreshEffect(s, id, row, io);
    }
  }

  lemma AdmitsFresh(rows: map<FileId, Row>, id: FileId, user: User, size: int, ttl: int, envelope: string, now: int)
    ensures Admit(rows, id, user, size, ttl, envelope, now) == Fresh ==> id !in rows && 0 <= size
  {
  }

  lemma FreshFrame(s: Store, id: FileId, row: Row, io: Io)
    ensures AgreeExcept(s, CreateFresh(s, id, row, io).0, id)
  {
  }

  lemma FreshEffect(s: Store, id: FileId, row: Row, io: Io)
    ensures var t := CreateFresh(s, id, row, io).0;
            && LeaseOf(t, id).None? && t.index == s.index
            && (id !in s.rows && id in t.rows ==> t.rows[id] == row)
            && (forall g :: g in t.leases ==> g in s.leases && t.leases[g] == s.leases[g])
  {
  }

  lemma CreateKeeps(s: State, id: FileId, user: User, size: int, ttl: int, envelope: string, io: Io)
    requires Inv(s) && Free(s, id)
    ensures Inv(s.(store := Create(s.store, id, user, size, ttl, envelope, s.now, io).0))
  {
    var store := Create(s.store, id, user, size, ttl, envelope, s.now, io).0;
    CreateEffect(s.store, id, user, size, ttl, envelope, s.now, io);
    if store != s.store {
      assert id !in s.store.index;
      AgreeSound(s.store, store, id);
    }
    StoreShape(s, store);
    ControlKeeps(s, s.(store := store), id);
  }

  lemma FinishEffect(s: Store, id: FileId, user: User, now: int)
    ensures var t := Finish(s, id, user, now).0;
            && AgreeExcept(s, t, id) && SameFile(s, t, id)
            && t.leases == s.leases && t.index == s.index && t.blobs == s.blobs
            && (t == s || (id in s.rows && t.rows[id] == s.rows[id].(state := Ready)
                           && s.rows[id].state != Deleted
                           && |ChunksOf(s, id)| == ChunkCount(s.rows[id].size)))
  {
  }

  /** The pigeonhole step: a full count of indexed chunks leaves no index out. */
  lemma CountMakesComplete(row: Row, chunks: map<nat, Digest>, blob: Option<Blob>)
    requires FileFits(row, chunks, blob) && |chunks| == ChunkCount(row.size)
    ensures ReadyComplete(row.(state := Ready), chunks)
  {
    assert forall i :: i in chunks.Keys ==> i < ChunkCount(row.size);
    CountFillsRange(chunks.Keys, ChunkCount(row.size));
  }

  lemma FinishSound(s: Store, id: FileId, user: User, now: int)
    requires StoreSound(s)
    ensures StoreSound(Finish(s, id, user, now).0)
  {
    var t := Finish(s, id, user, now).0;
    FinishEffect(s, id, user, now);
    if t != s {
      if id in s.index {
        CountMakesComplete(s.rows[id], s.index[id], BlobOf(s, id));
      }
      AgreeSound(s, t, id);
    }
  }

  lemma FinishKeeps(s: State, id: FileId, user: User)
    requires Inv(s) && Free(s, id)
    ensures Inv(s.(store := Finish(s.store, id, user, s.now).0))
  {
    var store := Finish(s.store, id, user, s.now).0;
    FinishEffect(s.store, id, user, s.now);
    FinishSound(s.store, id, user, s.now);
    StoreShape(s, store);
    ControlKeeps(s, s.(store := store), id);
  }

  lemma DeleteEffect(s: Store, id: FileId, user: User, io: Io)
    ensures var t := Delete(s, id, user, io).0;
            && AgreeExcept(s, t, id) && (t == s || LeaseOf(t, id).None?)
            && (forall g :: g in t.leases ==> g in s.leases && t.leases[g] == s.leases[g])
            && (id in t.index ==> t.rows == s.rows && t.index == s.index)
            && (id in t.rows && t.rows[id].state == Ready ==> t.rows == s.rows && t.index == s.index)
            && (BlobOf(t, id) == BlobOf(s, id) || BlobOf(t, id).None?)
  {
    if id in s.rows {
      DeleteFrame(s, id, s.rows[id], io);
      DeleteContents(s, id, s.rows[id], io);
    }
  }

  lemma DeleteFrame(s: Store, id: FileId, row: Row, io: Io)
    ensures var t := DeleteOwned(s, id, row, io).0;
            && AgreeExcept(s, t, id) && LeaseOf(t, id).None?
            && (forall g :: g in t.leases ==> g in s.leases && t.leases[g] == s.leases[g])
  {
  }

  lemma DeleteContents(s: Store, id: FileId, row: Row, io: Io)
    ensures var t := DeleteOwned(s, id, row, io).0;
            && (id in t.index ==> t.rows == s.rows && t.index == s.index)
            && (id in t.rows && t.rows[id].state == Ready ==> t.rows == s.rows && t.index == s.index)
            && (BlobOf(t, id) == BlobOf(s, id) || BlobOf(t, id).None?)
  {
  }

  lemma DeleteSound(s: Store, id: FileId, user: User, io: Io)
    requires StoreSound(s)
    ensures StoreSound(Delete(s, id, user, io).0)
  {
    DeleteEffect(s, id, user, io);
    if id in s.rows {
      assert ReadyComplete(s.rows[id], ChunksOf(s, id));
    }
    AgreeSound(s, Delete(s, id, user, io).0, id);
  }

  lemma DeleteKeeps(s: State, id: FileId, user: User, io: Io)
    requires Inv(s) && Free(s, id)
    ensures Inv(s.(store := Delete(s.store, id, user, io).0))
  {
    var store := Delete(s.store, id, user, io).0;
    DeleteEffect(s.store, id, user, io);
    DeleteSound(s.store, id, user, io);
    StoreShape(s, store);
    ControlKeeps(s, s.(store := store), id);
  }

  lemma UnlinkSound(s: Store, id: FileId)
    requires StoreSound(s)
    ensures StoreSound(Unlink(s, id)) && AgreeExcept(s, Unlink(s, id), id) && SameFile(s, Unlink(s, id), id)
  {
    if id in s.rows {
      assert ReadyComplete(s.rows[id], ChunksOf(s, id));
    }
    AgreeSound(s, Unlink(s, id), id);
  }

  lemma RemoveOrphanKeeps(s: State, id: FileId)
    requires Inv(s) && Free(s, id)
    ensures Inv(s.(store := Unlink(s.store, id)))
  {
    UnlinkSound(s.store, id);
    StoreShape(s, Unlink(s.store, id));
    ControlKeeps(s, s.(store := Unlink(s.store, id)), id);
  }

  lemma CleanBeginShape(s: State, id: FileId, cutoff: int)
    requires Shaped(s) && CanClean(s, id, cutoff)
    ensures Shaped(CleanStarted(s, id, cutoff))
  {
  }

  lemma CleanBeginKeeps(s: State, id: FileId, cutoff: int)
    requires Inv(s) && CanClean(s, id, cutoff)
    ensures Inv(CleanStarted(s, id, cutoff))
  {
    UnlinkSound(s.store, id);
    CleanBeginShape(s, id, cutoff);
    ControlKeeps(s, CleanStarted(s, id, cutoff), id);
  }

  lemma ExpireEffect(s: Store, id: FileId, cutoff: int, io: Io)
    ensures var t := Expire(s, id, cutoff, io);
            && AgreeExcept(s, t, id) && LeaseOf(t, id).None? && t.blobs == s.blobs
            && (id in t.index ==> t.rows == s.rows && t.index == s.index)
            && (id in t.rows && t.rows[id].state == Ready ==> t.rows == s.rows && t.index == s.index)
  {
  }

  lemma ExpireSound(s: Store, id: FileId, cutoff: int, io: Io)
    requires StoreSound(s)
    ensures StoreSound(Expire(s, id, cutoff, io))
  {
    ExpireEffect(s, id, cutoff, io);
    if id in s.rows {
      assert ReadyComplete(s.rows[id], ChunksOf(s, id));
    }
    AgreeSound(s, Expire(s, id, cutoff, io), id);
  }

  lemma CleanEndShape(s: State, io: Io)
    requires Shaped(s) && s.cleaner.Cleaning?
    ensures Shaped(CleanEnded(s, io))
  {
  }

  lemma CleanEndKeeps(s: State, io: Io)
    requires Inv(s) && s.cleaner.Cleaning?
    ensures Inv(CleanEnded(s, io))
  {
    ExpireEffect(s.store, s.cleaner.id, s.cleaner.cutoff, io);
    ExpireSound(s.store, s.cleaner.id, s.cleaner.cutoff, io);
    CleanEndShape(s, io);
    ControlKeeps(s, CleanEnded(s, io), s.cleaner.id);
  }

  // ------------------------------------------------------- downloads and crashes

  lemma ReaderMoves(s: State, t: State, r: ReaderId)
    requires Inv(s) && Shaped(t)
    requires t == s.(readers := t.readers, locks := t.locks)
    requires forall x :: x in t.readers && x != r ==> x in s.readers && t.readers[x] == s.readers[x]
    requires r in t.readers ==> ReaderSound(t, r)
    ensures Inv(t)
  {
    forall x | x in t.readers
      ensures ReaderSound(t, x)
    {
      if x != r {
        assert ReaderSound(s, x);
      }
    }
    OthersSame(s, t);
  }

  lemma OthersSame(s: State, t: State)
    requires Shaped(s) && Shaped(t) && PlansSound(s) && CommitsSound(s)
    requires t == s.(readers := t.readers, locks := t.locks, now := t.now, mono := t.mono)
    ensures PlansSound(t) && CommitsSound(t)
  {
    forall q | q in t.ops
      ensures PlanSound(t, q)
    {
      assert PlanSound(s, q);
    }
    forall q | q in t.commits
      ensures CommitSound(t, q)
    {
      assert CommitSound(s, q);
    }
  }

  lemma ReadArriveKeeps(s: State, r: ReaderId, reader: Reader)
    requires Inv(s) && r !in s.readers && reader.phase.ReadWaiting?
    ensures Inv(s.(readers := s.readers[r := reader]))
  {
    ReaderMoves(s, s.(readers := s.readers[r := reader]), r);
  }

  lemma ReadAcquireShape(s: State, r: ReaderId)
    requires Shaped(s) && CanReadAcquire(s, r)
    ensures Shaped(ReadAcquired(s, r))
  {
  }

  lemma ReadAcquireKeeps(s: State, r: ReaderId)
    requires Inv(s) && CanReadAcquire(s, r)
    ensures Inv(ReadAcquired(s, r))
  {
    ReadAcquireShape(s, r);
    ReaderMoves(s, ReadAcquired(s, r), r);
  }

  lemma RunReadKeeps(s: State, r: ReaderId)
    requires Inv(s) && CanRunRead(s, r)
    ensures Inv(ReadRun(s, r))
  {
    ReaderMoves(s, ReadRun(s, r), r);
  }

  lemma ReadEndShape(s: State, r: ReaderId, phase: ReadPhase)
    requires Shaped(s) && r in s.readers && (phase.Done? || phase.ReadGone?)
    ensures Shaped(ReadEnded(s, r, phase))
  {
  }

  lemma ReadEndKeeps(s: State, r: ReaderId, phase: ReadPhase)
    requires Inv(s) && r in s.readers && (phase.Done? || phase.ReadGone?)
    ensures Inv(ReadEnded(s, r, phase))
  {
    ReadEndShape(s, r, phase);
    ReaderMoves(s, ReadEnded(s, r, phase), r);
  }

  lemma TickKeeps(s: State, now: int, mono: int)
    requires Inv(s)
    ensures Inv(s.(now := now, mono := mono))
  {
    var t := s.(now := now, mono := mono);
    OthersSame(s, t);
    ReadersKept(s, t);
  }

  /** Unsynced bytes may be lost; indexed chunks were synced. */
  lemma FileFitsAfterLoss(row: Row, chunks: map<nat, Digest>, b: Blob, bytes: ByteString)
    requires FileFits(row, chunks, Some(b)) && Survives(b, bytes)
    ensures FileFits(row, chunks, Some(Blob(bytes, b.clean, {})))
  {
    forall i | i in chunks
      ensures SlotDurable(Blob(bytes, b.clean, {}), i, PayloadLength(row.size, i), chunks[i])
    {
      assert SlotDurable(b, i, PayloadLength(row.size, i), chunks[i]);
    }
  }

  lemma RestartStoreSound(s: State, survivors: map<FileId, ByteString>)
    requires StoreSound(s.store) && CanRestart(s, survivors)
    ensures StoreSound(Restarted(s, survivors).store)
  {
    var t := Restarted(s, survivors).store;
    forall id | id in t.index
      ensures FileFits(t.rows[id], t.index[id], BlobOf(t, id))
    {
      if id in s.store.blobs {
        FileFitsAfterLoss(s.store.rows[id], s.store.index[id], s.store.blobs[id], survivors[id]);
      }
    }
    forall id | id in t.rows
      ensures ReadyComplete(t.rows[id], ChunksOf(t, id))
    {
      assert ReadyComplete(s.store.rows[id], ChunksOf(s.store, id));
    }
  }

  lemma RestartKeeps(s: State, survivors: map<FileId, ByteString>)
    requires Inv(s) && CanRestart(s, survivors)
    ensures Inv(Restarted(s, survivors))
  {
    RestartStoreSound(s, survivors);
  }

  // ------------------------------------------------------------------ whole runs

  lemma InitialInv()
    ensures Inv(INITIAL)
  {
  }

  lemma UploadKeeps(s: State, e: UploadStep)
    requires Inv(s) && UploadEnabled(s, e)
    ensures Inv(UploadApply(s, e))
  {
    match e
    case Arrive(p, id, user, parts) => ArriveKeeps(s, p, Op(id, user, parts, Waiting));
    case Acquire(p) => AcquireKeeps(s, p);
    case RunPrepare(p, token) => RunPrepareKeeps(s, p, token);
    case TakePlan(p) => TakePlanKeeps(s, p);
    case WritePart(p) => WritePartKeeps(s, p);
    case SkipPart(p) => SkipPartKeeps(s, p);
    case WriteTorn(p, n) => WriteTornKeeps(s, p, n);
    case SyncAndCommit(p) => SyncAndCommitKeeps(s, p);
    case RunCommit(p) => RunCommitKeeps(s, p);
    case Leave(p) => LeaveKeeps(s, p);
    case DropRequests(p) => DropKeeps(s, p);
  }

  lemma FileStepKeeps(s: State, e: FileStep)
    requires Inv(s) && FileEnabled(s, e)
    ensures Inv(FileApply(s, e))
  {
    match e
    case CreateFile(id, user, size, ttl, envelope, io) => CreateKeeps(s, id, user, size, ttl, envelope, io);
    case FinishFile(id, user) => FinishKeeps(s, id, user);
    case DeleteFile(id, user, io) => DeleteKeeps(s, id, user, io);
    case CleanBegin(id, cutoff) => CleanBeginKeeps(s, id, cutoff);
    case CleanEnd(id, io) => CleanEndKeeps(s, io);
    case RemoveOrphan(id) => RemoveOrphanKeeps(s, id);
  }

  lemma ReadKeeps(s: State, e: ReadStep)
    requires Inv(s) && ReadEnabled(s, e)
    ensures Inv(ReadApply(s, e))
  {
    match e
    case ReadArrive(r, id, indices) => ReadArriveKeeps(s, r, Reader(id, indices, ReadWaiting));
    case ReadAcquire(r) => ReadAcquireKeeps(s, r);
    case RunRead(r) => RunReadKeeps(s, r);
    case ReadBlob(r) => ReadEndKeeps(s, r, Done(BlobRead(s, r)));
    case ReadLeave(r) => ReadEndKeeps(s, r, ReadGone);
  }

  lemma StepKeeps(s: State, e: Event)
    requires Inv(s) && Enabled(s, e)
    ensures Inv(Apply(s, e))
  {
    match e
    case Uploads(u) => UploadKeeps(s, u);
    case Files(f) => FileStepKeeps(s, f);
    case Reads(r) => ReadKeeps(s, r);
    case Tick(now, mono) => TickKeeps(s, now, mono);
    case Restart(survivors) => RestartKeeps(s, survivors);
  }

  lemma {:induction false} RunKeeps(s: State, run: seq<Event>)
    requires Inv(s) && IsRun(s, run)
    ensures Inv(After(s, run))
    decreases |run|
  {
    if run != [] {
      StepKeeps(s, run[0]);
      RunKeeps(Apply(s, run[0]), run[1..]);
    }
  }

  /**
   * The safety of uploads: after any run whatsoever, every indexed digest of a file
   * whose blob exists is the digest of durable bytes in exactly that slot.
   */
  lemma IndexMatchesDurableBytes(run: seq<Event>, id: FileId, i: nat)
    requires IsRun(INITIAL, run)
    ensures var s := After(INITIAL, run).store;
            i in ChunksOf(s, id) && id in s.blobs ==>
              && id in s.rows && i < ChunkCount(s.rows[id].size)
              && SlotDurable(s.blobs[id], i, PayloadLength(s.rows[id].size, i), ChunksOf(s, id)[i])
  {
    InitialInv();
    RunKeeps(INITIAL, run);
  }

  /** A finished file is complete: each of its chunks is indexed, and they cover its size. */
  lemma ReadyMeansComplete(run: seq<Event>, id: FileId)
    requires IsRun(INITIAL, run)
    ensures var s := After(INITIAL, run).store;
            id in s.rows && s.rows[id].state == Ready ==>
              && (forall i: nat :: i < ChunkCount(s.rows[id].size) <==> i in ChunksOf(s, id))
              && ContentUpTo(s.rows[id].size, |ChunksOf(s, id)|) == s.rows[id].size
  {
    InitialInv();
    RunKeeps(INITIAL, run);
    var s := After(INITIAL, run).store;
    if id in s.rows && s.rows[id].state == Ready {
      assert ReadyComplete(s.rows[id], ChunksOf(s, id));
      var count := ChunkCount(s.rows[id].size);
      assert 0 in ChunksOf(s, id);
      assert ChunksOf(s, id).Keys == Below(count);
      BelowSize(count);
      PayloadsCoverFile(s.rows[id].size);
    }
  }

  function DigestAt(s: Store, id: FileId, i: int): Option<Digest>
  {
    if i >= 0 && i in ChunksOf(s, id) then Some(ChunksOf(s, id)[i]) else None
  }

  /** Whatever a download returns has the digests of the index. */
  lemma DownloadMatchesIndex(s: State, r: ReaderId)
    requires Inv(s) && CanReadBlob(s, r)
    ensures var reader, data := s.readers[r], BlobRead(s, r);
            && |data| == |reader.indices|
            && forall k :: 0 <= k < |data| ==>
                 DigestAt(s.store, reader.id, reader.indices[k]) == Some(Sha256(data[k]))
  {
    assert ReaderSound(s, r);
    var reader := s.readers[r];
    assert ReadyComplete(s.store.rows[reader.id], ChunksOf(s.store, reader.id));
  }

  /** The steps that really end a file's current contents: a delete that succeeds, a clean-up that commits. */
  predicate Discards(s: State, e: Event, id: FileId)
  {
    e.Files? && e.file.id == id &&
    match e.file
    case DeleteFile(_, user, io) => Delete(s.store, id, user, io).1.Ok?
    case CleanEnd(_, io) => io == Completes
    case _ => false
  }

  /** The run does not discard the file; requests that are refused or fail are no matter. */
  ghost predicate Keeps(s: State, run: seq<Event>, id: FileId)
    requires IsRun(s, run)
    decreases |run|
  {
    run == [] || (!Discards(s, run[0], id) && Keeps(Apply(s, run[0]), run[1..], id))
  }

  ghost predicate Extends(a: map<nat, Digest>, b: map<nat, Digest>)
  {
    forall i :: i in a ==> i in b && b[i] == a[i]
  }

  lemma UploadExtends(s: State, e: UploadStep, id: FileId)
    requires UploadEnabled(s, e)
    ensures Extends(ChunksOf(s.store, id), ChunksOf(UploadApply(s, e).store, id))
  {
    match e
    case RunPrepare(p, token) =>
      var op := s.ops[p];
      PrepareEffect(s.store, op.id, op.user, Describe(op.parts), s.now, s.mono, token, op.id);
    case RunCommit(p) =>
      var op := s.ops[p];
      CommitEffect(s.store, op.id, op.user, Describe(op.parts), s.commits[p], s.now, s.mono);
      if op.id == id && CommitRun(s, p).store != s.store {
        IndexedMeaning(s.store.rows[id].size, ChunksOf(s.store, id), Describe(op.parts));
      }
    case _ =>
  }

  lemma FileStepExtends(s: State, e: FileStep, id: FileId)
    requires FileEnabled(s, e) && !Discards(s, Files(e), id)
    ensures Extends(ChunksOf(s.store, id), ChunksOf(FileApply(s, e).store, id))
  {
    match e
    case CreateFile(f, user, size, ttl, envelope, io) => CreateEffect(s.store, f, user, size, ttl, envelope, s.now, io);
    case FinishFile(f, user) => FinishEffect(s.store, f, user, s.now);
    case DeleteFile(f, user, io) =>
      DeleteEffect(s.store, f, user, io);
      DeleteRefused(s.store, f, user, io);
    case CleanEnd(f, io) =>
      ExpireEffect(s.store, f, s.cleaner.cutoff, io);
      ExpireFailed(s.store, f, s.cleaner.cutoff, io);
    case _ =>
  }

  lemma DeleteRefused(s: Store, id: FileId, user: User, io: Io)
    ensures Delete(s, id, user, io).1.Err? ==> Delete(s, id, user, io).0.index == s.index
    ensures Delete(s, id, user, io).1.Ok? ==> ChunksOf(Delete(s, id, user, io).0, id) == map[]
  {
  }

  lemma ExpireFailed(s: Store, id: FileId, cutoff: int, io: Io)
    ensures io != Completes ==> Expire(s, id, cutoff, io).index == s.index
    ensures io == Completes ==> ChunksOf(Expire(s, id, cutoff, io), id) == map[]
  {
  }

  lemma ReadStepStore(s: State, e: ReadStep)
    requires Enabled(s, Reads(e))
    ensures Apply(s, Reads(e)).store == s.store
  {
  }

  lemma RestartIndex(s: State, survivors: map<FileId, ByteString>)
    requires Enabled(s, Restart(survivors))
    ensures Apply(s, Restart(survivors)).store.index == s.store.index
  {
  }

  /** A step that discards a file leaves nothing of it in the index. */
  lemma DiscardEmpties(s: State, e: Event, id: FileId)
    requires Enabled(s, e) && Discards(s, e, id)
    ensures ChunksOf(Apply(s, e).store, id) == map[]
  {
    match e.file
    case DeleteFile(_, user, io) => DeleteRefused(s.store, id, user, io);
    case CleanEnd(_, io) => ExpireFailed(s.store, id, s.cleaner.cutoff, io);
  }

  /** What is indexed stays indexed, unchanged, until the file itself is discarded. */
  lemma IndexPersists(s: State, e: Event, id: FileId)
    requires Enabled(s, e) && !Discards(s, e, id)
    ensures Extends(ChunksOf(s.store, id), ChunksOf(Apply(s, e).store, id))
  {
    match e
    case Uploads(u) => UploadExtends(s, u, id);
    case Files(f) => FileStepExtends(s, f, id);
    case Reads(r) => ReadStepStore(s, r);
    case Tick(_, _) =>
    case Restart(survivors) => RestartIndex(s, survivors);
  }

  lemma {:induction false} IndexPersistsRun(s: State, run: seq<Event>, id: FileId)
    requires IsRun(s, run) && Keeps(s, run, id)
    ensures Extends(ChunksOf(s.store, id), ChunksOf(After(s, run).store, id))
    decreases |run|
  {
    if run != [] {
      IndexPersists(s, run[0], id);
      IndexPersistsRun(Apply(s, run[0]), run[1..], id);
    }
  }

  predicate Accepts(s: State, p: OpId)
    requires p in s.ops && p in s.commits
  {
    var op := s.ops[p];
    Commit(s.store, op.id, op.user, Describe(op.parts), s.commits[p], s.now, s.mono).1.Ok?
  }

  /** Only the owner of a file that is still open has a commit accepted, and then every part of it is indexed. */
  lemma AcceptedIsIndexed(s: State, p: OpId, k: nat)
    requires p in s.ops && p in s.commits && Accepts(s, p) && k < |s.ops[p].parts|
    ensures var op := s.ops[p];
            && OpenTo(s.store.rows, op.id, op.user, s.now)
            && DigestAt(CommitRun(s, p).store, op.id, op.parts[k].index) == Some(Sha256(op.parts[k].data))
  {
    var op := s.ops[p];
    CommittedExactly(s.store, op.id, op.user, Describe(op.parts), s.commits[p], s.now, s.mono);
    CommitEffect(s.store, op.id, op.user, Describe(op.parts), s.commits[p], s.now, s.mono);
    IndexedMeaning(s.store.rows[op.id].size, ChunksOf(s.store, op.id), Describe(op.parts));
    assert Describe(op.parts)[k] == Chunk(op.parts[k].index, |op.parts[k].data|, Sha256(op.parts[k].data));
  }

  /**
   * End to end: once a commit was accepted, however the upload before and the
   * steps after it interleave, every download that succeeds before the file is
   * discarded returns exactly the accepted bytes.
   */
  lemma DownloadReturnsUpload(before: seq<Event>, p: OpId, between: seq<Event>, r: ReaderId, k: nat, m: nat)
    requires IsRun(INITIAL, before)
    requires var s := After(INITIAL, before);
             && p in s.ops && p in s.commits && Accepts(s, p) && k < |s.ops[p].parts|
             && IsRun(CommitRun(s, p), between) && Keeps(CommitRun(s, p), between, s.ops[p].id)
             && var t := After(CommitRun(s, p), between);
                && CanReadBlob(t, r) && t.readers[r].id == s.ops[p].id
                && m < |t.readers[r].indices| && t.readers[r].indices[m] == s.ops[p].parts[k].index
    ensures var s := After(INITIAL, before);
            var t := After(CommitRun(s, p), between);
            m < |BlobRead(t, r)| && BlobRead(t, r)[m] == s.ops[p].parts[k].data
  {
    var s := After(INITIAL, before);
    var t := After(CommitRun(s, p), between);
    InitialInv();
    RunKeeps(INITIAL, before);
    RunCommitKeeps(s, p);
    RunKeeps(CommitRun(s, p), between);
    AcceptedIsIndexed(s, p, k);
    IndexPersistsRun(CommitRun(s, p), between, s.ops[p].id);
    DownloadMatchesIndex(t, r);
  }
}
