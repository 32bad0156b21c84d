/**
 * Who settles a queued write. The first call that finds no queue for its file leads: it
 * sleeps briefly, takes the whole queue and flushes it. The flush judges the calls one by
 * one and refuses some, writes, and acknowledges the accepted ones; when it raises, the
 * leader settles whatever is not done. Nothing but that last loop looks whether a call is
 * done already.
 */
module WriteQueue {
  import opened Collections
  import opened Outcomes

  type FileId = string
  type Call = nat

  /** Where a call was last put. */
  datatype Place = Queued | Taken(leader: Call)

  /** `completions` counts how often the call's future was given a result or an error. */
  datatype Info = Info(file: FileId, place: Place, completions: nat)

  /** How far a leader is with its batch. */
  datatype Flush =
    | Judging(batch: seq<Call>, accepted: seq<Call>, next: nat)
    | Writing(batch: seq<Call>, accepted: seq<Call>)
    | Acknowledging(batch: seq<Call>, accepted: seq<Call>, next: nat)
    | Failing(batch: seq<Call>, next: nat)

  datatype State = State(
    calls: map<Call, Info>,
    pending: map<FileId, seq<Call>>,
    leaders: map<FileId, Call>,
    flushes: map<Call, Flush>)

  const INITIAL := State(map[], map[], map[], map[])

  datatype FlushStep = Refuse | Accept | Decide | Write | Acknowledge | Raise | Sweep | Return

  datatype Step =
    | Submit(call: Call, file: FileId)
    | Take(file: FileId)
    | Flushes(leader: Call, step: FlushStep)

  predicate FlushEnabled(f: Flush, e: FlushStep)
  {
    match e
    case Refuse => f.Judging? && f.next < |f.batch|
    case Accept => f.Judging? && f.next < |f.batch|
    case Decide => f.Judging? && f.next == |f.batch|
    case Write => f.Writing?
    case Acknowledge => f.Acknowledging? && f.next < |f.accepted|
    case Raise => f.Judging? || f.Writing?
    case Sweep => f.Failing? && f.next < |f.batch|
    case Return => (f.Acknowledging? && f.next == |f.accepted|) || (f.Failing? && f.next == |f.batch|)
  }

  predicate Enabled(s: State, e: Step)
  {
    match e
    case Submit(c, _) => c !in s.calls
    case Take(file) => file in s.leaders && file in s.pending
    case Flushes(l, step) => l in s.flushes && FlushEnabled(s.flushes[l], step)
  }

  function Submitted(s: State, c: Call, file: FileId): State
  {
    var leads := file !in s.pending;
    s.(calls := s.calls[c := Info(file, Queued, 0)],
       pending := s.pending[file := if leads then [c] else s.pending[file] + [c]],
       leaders := if leads then s.leaders[file := c] else s.leaders)
  }

  function BatchTaken(s: State, file: FileId): State
    requires file in s.leaders && file in s.pending
  {
    var l := s.leaders[file];
    s.(pending := s.pending - {file}, leaders := s.leaders - {file},
       flushes := s.flushes[l := Judging(s.pending[file], [], 0)],
       calls := map c | c in s.calls ::
         if c in s.pending[file] then s.calls[c].(place := Taken(l)) else s.calls[c])
  }

  function Completed(calls: map<Call, Info>, c: Call): map<Call, Info>
  {
    if c in calls then calls[c := calls[c].(completions := calls[c].completions + 1)] else calls
  }

  function Completions(calls: map<Call, Info>, c: Call): nat
  {
    if c in calls then calls[c].completions else 0
  }

  /** The call whose future the step settles, if any; only the sweep asks whether it is done. */
  function Settles(calls: map<Call, Info>, f: Flush, e: FlushStep): Option<Call>
    requires FlushEnabled(f, e)
  {
    match e
    case Refuse => Some(f.batch[f.next])
    case Acknowledge => Some(f.accepted[f.next])
    case Sweep => if Completions(calls, f.batch[f.next]) == 0 then Some(f.batch[f.next]) else None
    case _ => None
  }

  function Advanced(f: Flush, e: FlushStep): Flush
    requires FlushEnabled(f, e) && !e.Return?
  {
    match e
    case Refuse => Judging(f.batch, f.accepted, f.next + 1)
    case Accept => Judging(f.batch, f.accepted + [f.batch[f.next]], f.next + 1)
    case Decide => Writing(f.batch, f.accepted)
    case Write => Acknowledging(f.batch, f.accepted, 0)
    case Acknowledge => Acknowledging(f.batch, f.accepted, f.next + 1)
    case Raise => Failing(f.batch, 0)
    case Sweep => Failing(f.batch, f.next + 1)
  }

  function SettledBy(calls: map<Call, Info>, settles: Option<Call>): map<Call, Info>
  {
    if settles.Some? then Completed(calls, settles.value) else calls
  }

  /** Returning changes no call. */
  function FlushApply(s: State, l: Call, e: FlushStep): State
    requires l in s.flushes && FlushEnabled(s.flushes[l], e)
  {
    if e.Return? then s.(flushes := s.flushes - {l})
    else
      s.(flushes := s.flushes[l := Advanced(s.flushes[l], e)],
         calls := SettledBy(s.calls, Settles(s.calls, s.flushes[l], e)))
  }

  function Apply(s: State, e: Step): State
    requires Enabled(s, e)
  {
    match e
    case Submit(c, file) => Submitted(s, c, file)
    case Take(file) => BatchTaken(s, file)
    case Flushes(l, step) => FlushApply(s, l, step)
  }

  predicate IsRun(s: State, run: seq<Step>)
    decreases |run|
  {
    run == [] || (Enabled(s, run[0]) && IsRun(Apply(s, run[0]), run[1..]))
  }

  function After(s: State, run: seq<Step>): State
    requires IsRun(s, run)
    decreases |run|
  {
    if run == [] then s else After(Apply(s, run[0]), run[1..])
  }

  // ------------------------------------------------------------------ invariant

  predicate InQueue(s: State, c: Call, f: FileId)
  {
    f in s.pending && c in s.pending[f]
  }

  predicate InBatch(s: State, c: Call, l: Call)
  {
    l in s.flushes && c in s.flushes[l].batch
  }

  /** A call waits in the queue of its file exactly while it is queued, and the queue has a leader. */
  ghost predicate QueuesSound(s: State)
  {
    && (forall f :: f in s.pending <==> f in s.leaders)
    && (forall f :: f in s.leaders ==> InQueue(s, s.leaders[f], f))
    && (forall f :: f in s.pending ==> Distinct(s.pending[f]))
    && (forall f, c :: InQueue(s, c, f) ==> c in s.calls && s.calls[c] == Info(f, Queued, 0))
    && (forall c :: c in s.calls && s.calls[c].place == Queued ==> InQueue(s, c, s.calls[c].file))
  }

  /** A call is in the batch of its leader until that leader returns, and the leader is in it too. */
  ghost predicate BatchesSound(s: State)
  {
    && (forall l :: l in s.flushes ==> InBatch(s, l, l))
    && (forall l, c :: InBatch(s, c, l) ==> c in s.calls && s.calls[c].place == Taken(l))
    && (forall c :: c in s.calls && s.calls[c].place.Taken? ==>
          InBatch(s, c, s.calls[c].place.leader) || s.calls[c].completions == 1)
  }

  /** Which calls of a batch are done at each point of the flush. */
  predicate Fits(calls: map<Call, Info>, f: Flush)
  {
    && Distinct(f.batch)
    && match f
       case Judging(batch, accepted, next) =>
         && next <= |batch| && Distinct(accepted) && (forall c :: c in accepted ==> c in batch[..next])
         && (forall c :: c in batch[..next] ==> Completions(calls, c) == if c in accepted then 0 else 1)
         && (forall c :: c in batch[next..] ==> Completions(calls, c) == 0)
       case Writing(batch, accepted) =>
         && Distinct(accepted) && (forall c :: c in accepted ==> c in batch)
         && (forall c :: c in batch ==> Completions(calls, c) == if c in accepted then 0 else 1)
       case Acknowledging(batch, accepted, next) =>
         && next <= |accepted| && Distinct(accepted) && (forall c :: c in accepted ==> c in batch)
         && (forall c :: c in batch ==> Completions(calls, c) == if c in accepted[next..] then 0 else 1)
       case Failing(batch, next) =>
         && next <= |batch|
         && (forall c :: c in batch ==> Completions(calls, c) <= 1)
         && (forall c :: c in batch[..next] ==> Completions(calls, c) == 1)
  }

  ghost predicate FlushesSound(s: State)
  {
    forall l :: l in s.flushes ==> Fits(s.calls, s.flushes[l])
  }

  ghost predicate Inv(s: State)
  {
    QueuesSound(s) && BatchesSound(s) && FlushesSound(s)
  }

  // ------------------------------------------------------------- one flush alone

  lemma CutAt<T>(s: seq<T>, k: nat)
    requires k < |s|
    ensures s[..k + 1] == s[..k] + [s[k]] && s[k..] == [s[k]] + s[k + 1..]
  {
  }

  lemma NotYetThere<T>(s: seq<T>, k: nat)
    requires Distinct(s) && k < |s|
    ensures s[k] !in s[..k] && s[k] !in s[k + 1..]
  {
  }

  /** The future that a refusal or an acknowledgement settles was not done before. */
  lemma SettlesUndone(calls: map<Call, Info>, f: Flush, e: FlushStep, c: Call)
    requires Fits(calls, f) && FlushEnabled(f, e) && Settles(calls, f, e) == Some(c)
    ensures c in f.batch && Completions(calls, c) == 0
  {
    match e
    case Refuse => CutAt(f.batch, f.next);
    case Acknowledge => CutAt(f.accepted, f.next);
    case Sweep =>
  }

  lemma CompletedCount(calls: map<Call, Info>, c: Call, d: Call)
    requires c in calls
    ensures Completions(Completed(calls, c), d) == Completions(calls, d) + if d == c then 1 else 0
  {
  }

  lemma RefuseFits(calls: map<Call, Info>, f: Flush)
    requires Fits(calls, f) && FlushEnabled(f, Refuse) && f.batch[f.next] in calls
    ensures Fits(Completed(calls, f.batch[f.next]), Advanced(f, Refuse))
  {
    var c := f.batch[f.next];
    CutAt(f.batch, f.next);
    NotYetThere(f.batch, f.next);
    forall d | d in f.batch[..f.next] ensures Completions(Completed(calls, c), d) == Completions(calls, d) {
      CompletedCount(calls, c, d);
    }
    forall d | d in f.batch[f.next + 1..] ensures Completions(Completed(calls, c), d) == Completions(calls, d) {
      CompletedCount(calls, c, d);
    }
    CompletedCount(calls, c, c);
  }

  lemma AcceptFits(calls: map<Call, Info>, f: Flush)
    requires Fits(calls, f) && FlushEnabled(f, Accept)
    ensures Fits(calls, Advanced(f, Accept))
  {
    CutAt(f.batch, f.next);
    NotYetThere(f.batch, f.next);
    DistinctSnoc(f.accepted, f.batch[f.next]);
  }

  lemma DecideFits(calls: map<Call, Info>, f: Flush)
    requires Fits(calls, f) && FlushEnabled(f, Decide)
    ensures Fits(calls, Advanced(f, Decide))
  {
    assert f.batch[..f.next] == f.batch;
  }

  lemma WriteFits(calls: map<Call, Info>, f: Flush)
    requires Fits(calls, f) && FlushEnabled(f, Write)
    ensures Fits(calls, Advanced(f, Write))
  {
    assert f.accepted[0..] == f.accepted;
  }

  lemma AcknowledgeFits(calls: map<Call, Info>, f: Flush)
    requires Fits(calls, f) && FlushEnabled(f, Acknowledge) && f.accepted[f.next] in calls
    ensures Fits(Completed(calls, f.accepted[f.next]), Advanced(f, Acknowledge))
  {
    CutAt(f.accepted, f.next);
    NotYetThere(f.accepted, f.next);
  }

  lemma RaiseFits(calls: map<Call, Info>, f: Flush)
    requires Fits(calls, f) && FlushEnabled(f, Raise)
    ensures Fits(calls, Advanced(f, Raise))
  {
    if f.Judging? {
      assert f.batch == f.batch[..f.next] + f.batch[f.next..];
    }
  }

  lemma SweepFits(calls: map<Call, Info>, f: Flush)
    requires Fits(calls, f) && FlushEnabled(f, Sweep) && f.batch[f.next] in calls
    ensures Completions(calls, f.batch[f.next]) == 0 ==> Fits(Completed(calls, f.batch[f.next]), Advanced(f, Sweep))
    ensures Completions(calls, f.batch[f.next]) != 0 ==> Fits(calls, Advanced(f, Sweep))
  {
    CutAt(f.batch, f.next);
    NotYetThere(f.batch, f.next);
  }

  /** A leader that returns, normally or after an exception, leaves nothing undone. */
  lemma ReturnFindsAllDone(calls: map<Call, Info>, f: Flush, c: Call)
    requires Fits(calls, f) && FlushEnabled(f, Return) && c in f.batch
    ensures Completions(calls, c) == 1
  {
    if f.Acknowledging? {
      assert f.accepted[f.next..] == [];
    } else {
      assert f.batch[..f.next] == f.batch;
    }
  }

  // ----------------------------------------------------------------------- steps

  lemma SubmitKeeps(s: State, c: Call, file: FileId)
    requires Inv(s) && c !in s.calls
    ensures Inv(Submitted(s, c, file))
  {
    SubmitQueues(s, c, file);
    SubmitBatches(s, c, file);
    forall l | l in s.flushes ensures Fits(Submitted(s, c, file).calls, s.flushes[l]) {
      SubmitFits(s, c, file, l);
    }
  }

  lemma SubmitQueues(s: State, c: Call, file: FileId)
    requires QueuesSound(s) && c !in s.calls
    ensures QueuesSound(Submitted(s, c, file))
  {
    var t := Submitted(s, c, file);
    assert forall f :: !InQueue(s, c, f);
    if file in s.pending {
      assert !InQueue(s, c, file);
      DistinctSnoc(s.pending[file], c);
    }
    forall f, x | InQueue(t, x, f) ensures x in t.calls && t.calls[x] == Info(f, Queued, 0) {
      if x != c {
        assert InQueue(s, x, f);
      }
    }
    forall x | x in t.calls && t.calls[x].place == Queued ensures InQueue(t, x, t.calls[x].file) {
      if x != c {
        assert InQueue(s, x, s.calls[x].file);
      }
    }
  }

  lemma SubmitBatches(s: State, c: Call, file: FileId)
    requires BatchesSound(s) && c !in s.calls
    ensures BatchesSound(Submitted(s, c, file))
  {
    var t := Submitted(s, c, file);
    forall l, x | InBatch(t, x, l) ensures x in t.calls && t.calls[x].place == Taken(l) {
      assert InBatch(s, x, l);
    }
  }

  lemma SubmitFits(s: State, c: Call, file: FileId, l: Call)
    requires Inv(s) && c !in s.calls && l in s.flushes
    ensures Fits(Submitted(s, c, file).calls, s.flushes[l])
  {
    assert Fits(s.calls, s.flushes[l]);
    SameCountsFit(s.calls, Submitted(s, c, file).calls, s.flushes[l]);
  }

  /** Only the counts of the calls in the batch matter. */
  lemma SameCountsFit(a: map<Call, Info>, b: map<Call, Info>, f: Flush)
    requires Fits(a, f) && forall c :: c in f.batch ==> Completions(b, c) == Completions(a, c)
    ensures Fits(b, f)
  {
  }

  lemma TakeQueues(s: State, file: FileId)
    requires QueuesSound(s) && file in s.leaders && file in s.pending
    ensures QueuesSound(BatchTaken(s, file))
  {
    var t := BatchTaken(s, file);
    forall f, x | InQueue(t, x, f) ensures x in t.calls && t.calls[x] == Info(f, Queued, 0) {
      assert InQueue(s, x, f) && f != file;
      assert !InQueue(s, x, file);
    }
    forall x | x in t.calls && t.calls[x].place == Queued ensures InQueue(t, x, t.calls[x].file) {
      assert InQueue(s, x, s.calls[x].file);
    }
    forall f | f in t.leaders ensures InQueue(t, t.leaders[f], f) {
      assert InQueue(s, s.leaders[f], f);
    }
  }

  /** The new batch has nothing in common with the others: its calls were queued until now. */
  lemma TakeBatches(s: State, file: FileId)
    requires QueuesSound(s) && BatchesSound(s) && file in s.leaders && file in s.pending
    ensures BatchesSound(BatchTaken(s, file))
  {
    var t := BatchTaken(s, file);
    var leader := s.leaders[file];
    assert InQueue(s, leader, file);
    assert !InBatch(s, leader, leader);
    forall l, x | InBatch(t, x, l) ensures x in t.calls && t.calls[x].place == Taken(l) {
      if l == leader {
        assert InQueue(s, x, file);
      } else {
        assert InBatch(s, x, l);
        assert !InQueue(s, x, file);
      }
    }
    forall x | x in t.calls && t.calls[x].place.Taken?
      ensures InBatch(t, x, t.calls[x].place.leader) || t.calls[x].completions == 1
    {
      if x !in s.pending[file] && s.calls[x].completions != 1 {
        assert InBatch(s, x, s.calls[x].place.leader);
      }
    }
  }

  lemma TakeFits(s: State, file: FileId, l: Call)
    requires Inv(s) && file in s.leaders && file in s.pending && l in BatchTaken(s, file).flushes
    ensures Fits(BatchTaken(s, file).calls, BatchTaken(s, file).flushes[l])
  {
    var t := BatchTaken(s, file);
    assert forall c :: Completions(t.calls, c) == Completions(s.calls, c);
    if l == s.leaders[file] {
      forall c | c in s.pending[file] ensures Completions(t.calls, c) == 0 {
        assert InQueue(s, c, file);
      }
    } else {
      SameCountsFit(s.calls, t.calls, s.flushes[l]);
    }
  }

  lemma TakeKeeps(s: State, file: FileId)
    requires Inv(s) && file in s.leaders && file in s.pending
    ensures Inv(BatchTaken(s, file))
  {
    TakeQueues(s, file);
    TakeBatches(s, file);
    var t := BatchTaken(s, file);
    forall l | l in t.flushes ensures Fits(t.calls, t.flushes[l]) {
      TakeFits(s, file, l);
    }
  }

  lemma OwnFits(calls: map<Call, Info>, f: Flush, e: FlushStep)
    requires Fits(calls, f) && FlushEnabled(f, e) && !e.Return? && forall c :: c in f.batch ==> c in calls
    ensures Fits(SettledBy(calls, Settles(calls, f, e)), Advanced(f, e)) && Advanced(f, e).batch == f.batch
  {
    match e
    case Refuse => RefuseFits(calls, f);
    case Accept => AcceptFits(calls, f);
    case Decide => DecideFits(calls, f);
    case Write => WriteFits(calls, f);
    case Acknowledge => AcknowledgeFits(calls, f);
    case Raise => RaiseFits(calls, f);
    case Sweep => SweepFits(calls, f);
  }

  /** Settling one call of a batch moves no call and touches no other. */
  lemma SettledFrame(calls: map<Call, Info>, settles: Option<Call>, batch: seq<Call>)
    requires settles.Some? ==> settles.value in batch
    ensures
      var t := SettledBy(calls, settles);
      && t.Keys == calls.Keys
      && (forall c :: c in calls ==> t[c] == calls[c].(completions := t[c].completions))
      && (forall c :: c in calls && c !in batch ==> t[c] == calls[c])
  {
  }

  lemma FlushQueues(s: State, t: State, l: Call)
    requires QueuesSound(s) && BatchesSound(s) && l in s.flushes && t.pending == s.pending && t.leaders == s.leaders
    requires t.calls.Keys == s.calls.Keys
    requires forall c :: c in s.calls ==> t.calls[c] == s.calls[c].(completions := t.calls[c].completions)
    requires forall c :: c in s.calls && c !in s.flushes[l].batch ==> t.calls[c] == s.calls[c]
    ensures QueuesSound(t)
  {
    forall f, x | InQueue(t, x, f) ensures x in t.calls && t.calls[x] == Info(f, Queued, 0) {
      assert InQueue(s, x, f);
      assert !InBatch(s, x, l);
    }
    forall x | x in t.calls && t.calls[x].place == Queued ensures InQueue(t, x, t.calls[x].file) {
      assert InQueue(s, x, s.calls[x].file);
    }
    forall f | f in t.leaders ensures InQueue(t, t.leaders[f], f) {
      assert InQueue(s, s.leaders[f], f);
    }
  }

  lemma AdvanceKeeps(s: State, l: Call, e: FlushStep)
    requires Inv(s) && l in s.flushes && FlushEnabled(s.flushes[l], e) && !e.Return?
    ensures Inv(FlushApply(s, l, e))
  {
    var f := s.flushes[l];
    var settles := Settles(s.calls, f, e);
    assert Fits(s.calls, f);
    assert forall c :: c in f.batch ==> InBatch(s, c, l);
    if settles.Some? {
      SettlesUndone(s.calls, f, e, settles.value);
    }
    SettledFrame(s.calls, settles, f.batch);
    OwnFits(s.calls, f, e);
    AdvancedTo(s, l, Advanced(f, e), SettledBy(s.calls, settles));
  }

  /** One flush moves on and settles calls of its own batch only. */
  lemma AdvancedTo(s: State, l: Call, f: Flush, calls: map<Call, Info>)
    requires Inv(s) && l in s.flushes && f.batch == s.flushes[l].batch && Fits(calls, f) && calls.Keys == s.calls.Keys
    requires forall c :: c in s.calls ==> calls[c] == s.calls[c].(completions := calls[c].completions)
    requires forall c :: c in s.calls && c !in s.flushes[l].batch ==> calls[c] == s.calls[c]
    ensures Inv(s.(flushes := s.flushes[l := f], calls := calls))
  {
    var t := s.(flushes := s.flushes[l := f], calls := calls);
    FlushQueues(s, t, l);
    AdvanceBatches(s, t, l);
    AdvanceFlushes(s, t, l);
  }

  lemma AdvanceFlushes(s: State, t: State, l: Call)
    requires BatchesSound(s) && FlushesSound(s) && l in s.flushes && l in t.flushes && t.calls.Keys == s.calls.Keys
    requires t.flushes == s.flushes[l := t.flushes[l]] && Fits(t.calls, t.flushes[l])
    requires forall c :: c in s.calls && c !in s.flushes[l].batch ==> t.calls[c] == s.calls[c]
    ensures FlushesSound(t)
  {
    forall m | m in t.flushes ensures Fits(t.calls, t.flushes[m]) {
      if m != l {
        OtherFits(s, t, l, m);
      }
    }
  }

  lemma AdvanceBatches(s: State, t: State, l: Call)
    requires BatchesSound(s) && l in s.flushes && t.flushes.Keys == s.flushes.Keys && t.calls.Keys == s.calls.Keys
    requires forall m :: m in s.flushes ==> t.flushes[m].batch == s.flushes[m].batch
    requires forall c :: c in s.calls ==> t.calls[c] == s.calls[c].(completions := t.calls[c].completions)
    requires forall c :: c in s.calls && c !in s.flushes[l].batch ==> t.calls[c] == s.calls[c]
    ensures BatchesSound(t)
  {
    forall m, x | InBatch(t, x, m) ensures x in t.calls && t.calls[x].place == Taken(m) {
      assert InBatch(s, x, m);
    }
    forall x | x in t.calls && t.calls[x].place.Taken?
      ensures InBatch(t, x, t.calls[x].place.leader) || t.calls[x].completions == 1
    {
      if x in s.flushes[l].batch {
        assert InBatch(s, x, l);
      } else if s.calls[x].completions != 1 {
        assert InBatch(s, x, s.calls[x].place.leader);
      }
    }
    forall m | m in t.flushes ensures InBatch(t, m, m) {
      assert InBatch(s, m, m);
    }
  }

  lemma OtherFits(s: State, t: State, l: Call, m: Call)
    requires BatchesSound(s) && FlushesSound(s) && l in s.flushes && m in s.flushes && m != l
    requires t.calls.Keys == s.calls.Keys
    requires forall c :: c in s.calls && c !in s.flushes[l].batch ==> t.calls[c] == s.calls[c]
    ensures Fits(t.calls, s.flushes[m])
  {
    forall c | c in s.flushes[m].batch ensures Completions(t.calls, c) == Completions(s.calls, c) {
      assert InBatch(s, c, m);
      assert !InBatch(s, c, l);
    }
    SameCountsFit(s.calls, t.calls, s.flushes[m]);
  }

  lemma ReturnKeeps(s: State, l: Call)
    requires Inv(s) && l in s.flushes && FlushEnabled(s.flushes[l], Return)
    ensures Inv(FlushApply(s, l, Return))
  {
    var t := FlushApply(s, l, Return);
    FlushQueues(s, t, l);
    forall m, x | InBatch(t, x, m) ensures x in t.calls && t.calls[x].place == Taken(m) {
      assert InBatch(s, x, m);
    }
    forall x | x in t.calls && t.calls[x].place.Taken?
      ensures InBatch(t, x, t.calls[x].place.leader) || t.calls[x].completions == 1
    {
      if InBatch(s, x, l) {
        ReturnFindsAllDone(s.calls, s.flushes[l], x);
      } else if s.calls[x].completions != 1 {
        assert InBatch(s, x, s.calls[x].place.leader);
      }
    }
    forall m | m in t.flushes ensures InBatch(t, m, m) {
      assert InBatch(s, m, m);
    }
  }

  lemma StepKeeps(s: State, e: Step)
    requires Inv(s) && Enabled(s, e)
    ensures Inv(Apply(s, e))
  {
    match e
    case Submit(c, file) => SubmitKeeps(s, c, file);
    case Take(file) => TakeKeeps(s, file);
    case Flushes(l, step) =>
      if step.Return? {
        ReturnKeeps(s, l);
      } else {
        AdvanceKeeps(s, l, step);
      }
  }

  lemma {:induction false} RunKeeps(s: State, run: seq<Step>)
    requires Inv(s) && IsRun(s, run)
    ensures Inv(After(s, run))
    decreases |run|
  {
    if run != [] {
      StepKeeps(s, run[0]);
      RunKeeps(Apply(s, run[0]), run[1..]);
    }
  }

  // ------------------------------------------------------------------- theorems

  /**
   * In every run, a call that is not done is in one queue or in one batch, never both, and
   * that queue or batch has a live leader; no future is settled twice; and once no leader is
   * left every call is done exactly once.
   */
  lemma EveryCallCompletesOnce(run: seq<Step>, c: Call)
    requires IsRun(INITIAL, run) && c in After(INITIAL, run).calls
    ensures var s := After(INITIAL, run);
            && s.calls[c].completions <= 1
            && (s.calls[c].completions == 0 ==>
                  || (InQueue(s, c, s.calls[c].file) && s.calls[c].file in s.leaders && forall l :: !InBatch(s, c, l))
                  || ((exists l :: InBatch(s, c, l) && InBatch(s, l, l)) && forall f :: !InQueue(s, c, f)))
            && (forall l, m :: InBatch(s, c, l) && InBatch(s, c, m) ==> l == m)
            && (forall f :: InQueue(s, c, f) ==> f == s.calls[c].file)
            && (s.leaders == map[] && s.flushes == map[] ==> s.calls[c].completions == 1)
  {
    RunKeeps(INITIAL, run);
    var s := After(INITIAL, run);
    if s.calls[c].place == Queued {
      assert InQueue(s, c, s.calls[c].file);
    } else if s.calls[c].completions != 1 {
      var l := s.calls[c].place.leader;
      assert InBatch(s, c, l) && InBatch(s, l, l);
      AtMostOnce(s.calls, s.flushes[l], c);
    }
  }

  lemma AtMostOnce(calls: map<Call, Info>, f: Flush, c: Call)
    requires Fits(calls, f) && c in f.batch
    ensures Completions(calls, c) <= 1
  {
    if f.Judging? {
      assert f.batch == f.batch[..f.next] + f.batch[f.next..];
    }
  }

  /** In every run, no refusal and no acknowledgement meets a future that is already settled. */
  lemma NeverSettledTwice(run: seq<Step>, l: Call, e: FlushStep, c: Call)
    requires IsRun(INITIAL, run)
    requires
      var s := After(INITIAL, run);
      l in s.flushes && FlushEnabled(s.flushes[l], e) && Settles(s.calls, s.flushes[l], e) == Some(c)
    ensures Completions(After(INITIAL, run).calls, c) == 0
  {
    RunKeeps(INITIAL, run);
    var s := After(INITIAL, run);
    SettlesUndone(s.calls, s.flushes[l], e, c);
  }

  /** In every run, a leader that returns leaves every call of its batch done. */
  lemma ReturnLeavesNothing(run: seq<Step>, l: Call, c: Call)
    requires IsRun(INITIAL, run)
    requires
      var s := After(INITIAL, run);
      l in s.flushes && FlushEnabled(s.flushes[l], Return) && c in s.flushes[l].batch
    ensures Completions(After(INITIAL, run).calls, c) == 1
  {
    RunKeeps(INITIAL, run);
    var s := After(INITIAL, run);
    ReturnFindsAllDone(s.calls, s.flushes[l], c);
  }
}
