/** The positive half of the upload protocol: an upload that nothing disturbs is indexed. */
module UploadCompletes {
  import opened Outcomes
  import opened Slots
  import opened Storage
  import opened UploadProtocol
  import opened FileAnswers
  import opened UploadSafety

  lemma {:induction false} RunThen(s: State, a: seq<Event>, b: seq<Event>)
    requires IsRun(s, a) && IsRun(After(s, a), b)
    ensures IsRun(s, a + b) && After(s, a + b) == After(After(s, a), b)
    decreases |a|
  {
    if a == [] {
      assert a + b == b;
    } else {
      RunThen(Apply(s, a[0]), a[1..], b);
      assert (a + b)[0] == a[0] && (a + b)[1..] == a[1..] + b;
    }
  }

  lemma OneStep(s: State, e: Event)
    requires Enabled(s, e)
    ensures IsRun(s, [e]) && After(s, [e]) == Apply(s, e)
  {
    assert [e][1..] == [];
    assert IsRun(Apply(s, e), []);
  }

  // ------------------------------------------------------------------ the parts

  function PartStep(p: OpId, part: Part, plan: Plan): Event
  {
    Uploads(if part.index >= 0 && part.index in plan.write then WritePart(p) else SkipPart(p))
  }

  /** The parts from `n` on are written or skipped as the plan says. */
  function PartSteps(p: OpId, parts: seq<Part>, plan: Plan, n: nat): seq<Event>
    requires n <= |parts|
    decreases |parts| - n
  {
    if n == |parts| then [] else [PartStep(p, parts[n], plan)] + PartSteps(p, parts, plan, n + 1)
  }

  /** Nothing has changed but blobs, and this upload has got to part `n`. */
  predicate At(s: State, t: State, p: OpId, plan: Plan, n: nat)
    requires p in s.ops
  {
    && t.store == s.store.(blobs := t.store.blobs) && s.ops[p].id in t.store.blobs
    && t == s.(store := t.store, ops := s.ops[p := s.ops[p].(phase := Writing(plan, n))])
  }

  lemma PartStepAt(s: State, t: State, p: OpId, plan: Plan, n: nat)
    requires p in s.ops && At(s, t, p, plan, n) && n < |s.ops[p].parts|
    ensures
      var e := PartStep(p, s.ops[p].parts[n], plan);
      Enabled(t, e) && At(s, Apply(t, e), p, plan, n + 1)
  {
    var part := s.ops[p].parts[n];
    if part.index >= 0 && part.index in plan.write {
      assert PartWanted(t.ops[p]);
    } else {
      assert !PartWanted(t.ops[p]);
    }
  }

  lemma {:induction false} PartsAt(s: State, t: State, p: OpId, plan: Plan, n: nat)
    requires p in s.ops && n <= |s.ops[p].parts| && At(s, t, p, plan, n)
    ensures
      var parts := s.ops[p].parts;
      IsRun(t, PartSteps(p, parts, plan, n)) && At(s, After(t, PartSteps(p, parts, plan, n)), p, plan, |parts|)
    decreases |s.ops[p].parts| - n
  {
    var parts := s.ops[p].parts;
    if n < |parts| {
      var e := PartStep(p, parts[n], plan);
      PartStepAt(s, t, p, plan, n);
      PartsAt(s, Apply(t, e), p, plan, n + 1);
      assert PartSteps(p, parts, plan, n)[1..] == PartSteps(p, parts, plan, n + 1);
    }
  }

  // ----------------------------------------------------------------- the upload

  /** The owner's upload waits with the lock free, acceptable parts and a lease to be had, and the blob is there. */
  ghost predicate CanStart(s: State, p: OpId, token: Token)
  {
    && Inv(s) && CanAcquire(s, p) && token !in s.issued
    && var op := s.ops[p];
       && op.id in s.store.blobs && MayUpload(s.store, op.id, op.user, Describe(op.parts), s.now)
       && LeaseToBeHad(s.store.leases, op.id, s.mono)
  }

  lemma StartIsGranted(s: State, p: OpId, token: Token)
    requires CanStart(s, p, token)
    ensures Grant(s, p, token).1.Ok?
  {
    var op := s.ops[p];
    PreparedExactly(s.store, op.id, op.user, Describe(op.parts), s.now, s.mono, token);
  }

  function Planning(p: OpId, token: Token): seq<Event>
  {
    [Uploads(Acquire(p))] + ([Uploads(RunPrepare(p, token))] + [Uploads(TakePlan(p))])
  }

  function Grant(s: State, p: OpId, token: Token): (Store, Result<Plan, FileError>)
    requires p in s.ops
  {
    var op := s.ops[p];
    Prepare(s.store, op.id, op.user, Describe(op.parts), s.now, s.mono, token)
  }

  /** What the state is like when the plan has been taken. */
  predicate Planned(s: State, t: State, p: OpId, token: Token)
    requires p in s.ops && Grant(s, p, token).1.Ok?
  {
    && t.store == Grant(s, p, token).0 && t.now == s.now && t.mono == s.mono
    && p in t.ops && t.ops[p] == s.ops[p].(phase := Writing(Grant(s, p, token).1.value, 0))
  }

  lemma PlanningPlans(s: State, p: OpId, token: Token)
    requires CanStart(s, p, token) && Grant(s, p, token).1.Ok?
    ensures IsRun(s, Planning(p, token)) && Planned(s, After(s, Planning(p, token)), p, token)
  {
    var op := s.ops[p];
    var s1 := Apply(s, Uploads(Acquire(p)));
    PrepareEffect(s1.store, op.id, op.user, Describe(op.parts), s.now, s.mono, token, op.id);
    var s2 := Apply(s1, Uploads(RunPrepare(p, token)));
    OneStep(s, Uploads(Acquire(p)));
    OneStep(s1, Uploads(RunPrepare(p, token)));
    OneStep(s2, Uploads(TakePlan(p)));
    RunThen(s1, [Uploads(RunPrepare(p, token))], [Uploads(TakePlan(p))]);
    RunThen(s, [Uploads(Acquire(p))], [Uploads(RunPrepare(p, token))] + [Uploads(TakePlan(p))]);
  }

  /** All steps of one upload up to its commit, with nothing in between. */
  function Uploading(s: State, p: OpId, token: Token): seq<Event>
    requires p in s.ops && Grant(s, p, token).1.Ok?
  {
    Planning(p, token)
    + (PartSteps(p, s.ops[p].parts, Grant(s, p, token).1.value, 0) + [Uploads(SyncAndCommit(p))])
  }

  /** The commit is on its way with its token, and the store is as the prepare left it, up to the blobs. */
  predicate Sent(s: State, t: State, p: OpId, token: Token)
    requires p in s.ops
  {
    && t.store == s.store.(blobs := t.store.blobs) && t.now == s.now && t.mono == s.mono
    && p in t.ops && p in t.commits && t.commits[p] == token
    && t.ops[p].id == s.ops[p].id && t.ops[p].user == s.ops[p].user && t.ops[p].parts == s.ops[p].parts
  }

  lemma SyncSends(s: State, t: State, p: OpId, plan: Plan)
    requires p in s.ops && At(s, t, p, plan, |s.ops[p].parts|)
    ensures
      var e := Uploads(SyncAndCommit(p));
      Enabled(t, e) && IsRun(t, [e]) && Sent(s, After(t, [e]), p, plan.token)
  {
    OneStep(t, Uploads(SyncAndCommit(p)));
  }

  /** From the plan to the commit. */
  lemma WritingSends(s: State, p: OpId, plan: Plan)
    requires p in s.ops && At(s, s, p, plan, 0)
    ensures
      var steps := PartSteps(p, s.ops[p].parts, plan, 0) + [Uploads(SyncAndCommit(p))];
      IsRun(s, steps) && Sent(s, After(s, steps), p, plan.token)
  {
    var steps := PartSteps(p, s.ops[p].parts, plan, 0);
    PartsAt(s, s, p, plan, 0);
    SyncSends(s, After(s, steps), p, plan);
    RunThen(s, steps, [Uploads(SyncAndCommit(p))]);
  }

  lemma PlannedAt(s: State, t: State, p: OpId, token: Token)
    requires CanStart(s, p, token) && Grant(s, p, token).1.Ok? && Planned(s, t, p, token)
    ensures At(t, t, p, Grant(s, p, token).1.value, 0) && Grant(s, p, token).1.value.token == token
  {
    var op := s.ops[p];
    PrepareEffect(s.store, op.id, op.user, Describe(op.parts), s.now, s.mono, token, op.id);
    assert t.ops == t.ops[p := t.ops[p].(phase := Writing(Grant(s, p, token).1.value, 0))];
  }

  /** The whole upload runs, and ends with its commit on its way. */
  lemma UploadingSends(s: State, p: OpId, token: Token) returns (planned: State)
    requires CanStart(s, p, token) && Grant(s, p, token).1.Ok?
    ensures IsRun(s, Uploading(s, p, token)) && Planned(s, planned, p, token)
    ensures Sent(planned, After(s, Uploading(s, p, token)), p, token)
  {
    var plan := Grant(s, p, token).1.value;
    PlanningPlans(s, p, token);
    planned := After(s, Planning(p, token));
    PlannedAt(s, planned, p, token);
    WritingSends(planned, p, plan);
    RunThen(s, Planning(p, token), PartSteps(p, s.ops[p].parts, plan, 0) + [Uploads(SyncAndCommit(p))]);
  }

  /**
   * An upload by the owner of an open file, with a lock and a lease to be had and its blob there, whose
   * steps nothing comes between, has its commit accepted, and every part of it is in the index then.
   */
  lemma UndisturbedUploadIsIndexed(s: State, p: OpId, token: Token, k: nat)
    requires CanStart(s, p, token) && k < |s.ops[p].parts|
    ensures Grant(s, p, token).1.Ok? && IsRun(s, Uploading(s, p, token))
    ensures
      var t, op := After(s, Uploading(s, p, token)), s.ops[p];
      && p in t.ops && p in t.commits && Accepts(t, p)
      && DigestAt(CommitRun(t, p).store, op.id, op.parts[k].index) == Some(Sha256(op.parts[k].data))
  {
    StartIsGranted(s, p, token);
    var planned := UploadingSends(s, p, token);
    CommitFollows(s, planned, After(s, Uploading(s, p, token)), p, token);
    AcceptedIsIndexed(After(s, Uploading(s, p, token)), p, k);
  }

  lemma CommitFollows(s: State, planned: State, t: State, p: OpId, token: Token)
    requires p in s.ops && Grant(s, p, token).1.Ok? && Planned(s, planned, p, token) && Sent(planned, t, p, token)
    ensures Accepts(t, p)
  {
    var op := s.ops[p];
    var chunks := Describe(op.parts);
    PreparedExactly(s.store, op.id, op.user, chunks, s.now, s.mono, token);
    PrepareMeans(s.store, op.id, op.user, chunks, s.now, s.mono, token);
    PrepareEffect(s.store, op.id, op.user, chunks, s.now, s.mono, token, op.id);
    CommittedExactly(t.store, op.id, op.user, chunks, token, t.now, t.mono);
    assert ChunksOf(t.store, op.id) == ChunksOf(s.store, op.id);
  }
}
