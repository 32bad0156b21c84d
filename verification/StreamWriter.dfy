/**
 * The cancellable writer of one raw stream. Callers take a gate in turn and hand their
 * frame to a pool worker; a caller may give up while its worker is still inside a write.
 */
module StreamWriter {
  import opened Outcomes
  import opened Bytes

  type CallId = nat

  datatype Phase =
    | Waiting            // for the gate
    | Entered            // has the gate
    | Cleared            // has passed the first check
    | Polling            // has submitted its job
    | Observed           // has seen the job done
    | Passed             // has passed the last check
    | Failing            // about to cancel the stream
    | Releasing(ok: bool)
    | Left(returned: bool)

  datatype Job =
    | Unsubmitted
    | Queued
    | Looping            // between two writes
    | Writing            // has passed a check and is inside a write
    | Reporting(ok: bool)
    | Finished(success: bool)

  datatype Call = Call(data: ByteString, deadline: int, phase: Phase, job: Job, offset: nat, slot: nat)

  datatype State = State(
    calls: map<CallId, Call>,
    gate: Option<CallId>,
    cancelled: bool,
    now: int,
    order: seq<CallId>,        // submitted calls
    log: seq<ByteString>,      // their frames
    stream: ByteString)        // what the raw stream has taken

  const INITIAL := State(map[], None, false, 0, [], [], [])

  const TIMEOUT_MILLIS := 10_000

  datatype CallerStep =
    | Acquire | GateTimeout | FirstCheck | Submit | QueueFull | Poll | SeeDone | LastCheck | Judge | Fail | Release

  datatype WorkerStep = Start | LoopCheck | Emit(count: nat) | WriteReturns | WriteFails | Report

  datatype Event =
    | Begin(id: CallId, data: ByteString)
    | Calls(id: CallId, step: CallerStep)
    | Works(id: CallId, work: WorkerStep)
    | Cancel
    | Tick(now: int)

  predicate CheckPasses(s: State, call: Call)
  {
    !s.cancelled && s.now < call.deadline
  }

  predicate InGate(phase: Phase)
  {
    !phase.Waiting? && !phase.Left?
  }

  // -------------------------------------------------------------------- callers

  predicate CallerEnabled(s: State, i: CallId, e: CallerStep)
  {
    i in s.calls &&
    var call := s.calls[i];
    match e
    case Acquire => call.phase.Waiting? && s.gate.None?
    case GateTimeout => call.phase.Waiting? && s.now >= call.deadline
    case FirstCheck => call.phase.Entered?
    case Submit => call.phase.Cleared?
    case QueueFull => call.phase.Cleared?
    case Poll => call.phase.Polling?
    case SeeDone => call.phase.Polling? && call.job.Finished?
    case LastCheck => call.phase.Observed?
    case Judge => call.phase.Passed? && call.job.Finished?
    case Fail => call.phase.Failing?
    case Release => call.phase.Releasing?
  }

  function At(s: State, i: CallId, phase: Phase): State
    requires i in s.calls
  {
    s.(calls := s.calls[i := s.calls[i].(phase := phase)])
  }

  function Checked(s: State, i: CallId, next: Phase): State
    requires i in s.calls
  {
    At(s, i, if CheckPasses(s, s.calls[i]) then next else Failing)
  }

  function Caller(s: State, i: CallId, e: CallerStep): State
    requires CallerEnabled(s, i, e)
  {
    var call := s.calls[i];
    match e
    case Acquire => At(s, i, Entered).(gate := Some(i))
    case GateTimeout => At(s, i, Left(false)).(cancelled := true)
    case FirstCheck => Checked(s, i, Cleared)
    case Submit =>
      s.(calls := s.calls[i := call.(phase := Polling, job := Queued, offset := 0, slot := |s.order|)],
         order := s.order + [i], log := s.log + [call.data])
    case QueueFull => At(s, i, Failing)
    case Poll => Checked(s, i, Polling)
    case SeeDone => At(s, i, Observed)
    case LastCheck => Checked(s, i, Passed)
    case Judge => At(s, i, if call.job.success then Releasing(true) else Failing)
    case Fail => At(s, i, Releasing(false)).(cancelled := true)
    case Release => At(s, i, Left(call.phase.ok)).(gate := None)
  }

  // -------------------------------------------------------------------- workers

  predicate WorkEnabled(s: State, i: CallId, e: WorkerStep)
  {
    i in s.calls &&
    var call := s.calls[i];
    match e
    case Start => call.job.Queued?
    case LoopCheck => call.job.Looping?
    case Emit(k) => call.job.Writing? && call.offset + k <= |call.data|
    case WriteReturns => call.job.Writing?
    case WriteFails => call.job.Writing?
    case Report => call.job.Reporting?
  }

  function WorkOn(s: State, i: CallId, job: Job): State
    requires i in s.calls
  {
    s.(calls := s.calls[i := s.calls[i].(job := job)])
  }

  function Work(s: State, i: CallId, e: WorkerStep): State
    requires WorkEnabled(s, i, e)
  {
    var call := s.calls[i];
    match e
    case Start => WorkOn(s, i, Looping)
    case LoopCheck =>
      WorkOn(s, i, if !CheckPasses(s, call) then Reporting(false)
                   else if call.offset < |call.data| then Writing else Reporting(true))
    case Emit(k) =>
      s.(calls := s.calls[i := call.(offset := call.offset + k)],
         stream := s.stream + call.data[call.offset..call.offset + k])
    case WriteReturns => WorkOn(s, i, Looping)
    case WriteFails => WorkOn(s, i, Reporting(false))
    case Report => WorkOn(s, i, Finished(call.job.ok))
  }

  // ----------------------------------------------------------------------- runs

  predicate Enabled(s: State, e: Event)
  {
    match e
    case Begin(i, _) => i !in s.calls
    case Calls(i, step) => CallerEnabled(s, i, step)
    case Works(i, work) => WorkEnabled(s, i, work)
    case Cancel => true
    case Tick(now) => s.now <= now
  }

  function Apply(s: State, e: Event): State
    requires Enabled(s, e)
  {
    match e
    case Begin(i, data) => s.(calls := s.calls[i := Call(data, s.now + TIMEOUT_MILLIS, Waiting, Unsubmitted, 0, 0)])
    case Calls(i, step) => Caller(s, i, step)
    case Works(i, work) => Work(s, i, work)
    case Cancel => s.(cancelled := true)
    case Tick(now) => s.(now := now)
  }

  predicate IsRun(s: State, run: seq<Event>)
    decreases |run|
  {
    run == [] || (Enabled(s, run[0]) && IsRun(Apply(s, run[0]), run[1..]))
  }

  function After(s: State, run: seq<Event>): State
    requires IsRun(s, run)
    decreases |run|
  {
    if run == [] then s else After(Apply(s, run[0]), run[1..])
  }

  // ------------------------------------------------------------------ invariant

  function Concat(frames: seq<ByteString>): ByteString
  {
    if frames == [] then [] else Concat(frames[..|frames| - 1]) + frames[|frames| - 1]
  }

  predicate Complete(call: Call)
  {
    call.job == Finished(true) && call.offset == |call.data|
  }

  /** Where a call that has submitted nothing can be. */
  predicate NotSubmitted(phase: Phase)
  {
    || phase.Waiting? || phase.Entered? || phase.Cleared? || phase.Failing?
    || phase == Releasing(false) || phase == Left(false)
  }

  /** What holds of one call by itself. */
  predicate CallSound(call: Call)
  {
    && call.offset <= |call.data|
    && (call.job.Unsubmitted? ==> NotSubmitted(call.phase))
    && (call.phase.Waiting? || call.phase.Entered? || call.phase.Cleared? ==> call.job.Unsubmitted?)
    && (call.phase.Observed? || call.phase.Passed? ==> call.job.Finished?)
    && (call.job == Reporting(true) || call.job == Finished(true) ==> call.offset == |call.data|)
    && (call.phase == Releasing(true) || call.phase == Left(true) ==> Complete(call))
  }

  /** What ties one call to the gate and to the order of submissions. */
  predicate Placed(s: State, i: CallId)
    requires i in s.calls && |s.log| == |s.order|
  {
    var call := s.calls[i];
    && (call.phase == Releasing(false) ==> s.cancelled)
    && (InGate(call.phase) <==> s.gate == Some(i))
    && (!call.job.Unsubmitted? ==> call.slot < |s.order| && s.order[call.slot] == i && s.log[call.slot] == call.data)
    && (!call.job.Unsubmitted? && call.slot < |s.order| - 1 ==> Complete(call))
  }

  predicate CallsSound(s: State)
  {
    && |s.log| == |s.order|
    && (forall i :: i in s.calls ==> CallSound(s.calls[i]) && Placed(s, i))
  }

  predicate OrderSound(s: State)
  {
    forall k {:trigger s.order[k]} :: 0 <= k < |s.order| ==>
      s.order[k] in s.calls && s.calls[s.order[k]].slot == k && !s.calls[s.order[k]].job.Unsubmitted?
  }

  function LastCall(s: State): CallId
    requires s.order != []
  {
    s.order[|s.order| - 1]
  }

  predicate Shape(s: State)
  {
    && |s.log| == |s.order|
    && (s.gate.Some? ==> s.gate.value in s.calls)
    && (s.order == [] ==> s.stream == [])
    && (s.order != [] ==>
          && LastCall(s) in s.calls
          && !s.calls[LastCall(s)].job.Unsubmitted?
          && s.calls[LastCall(s)].slot == |s.order| - 1
          && s.calls[LastCall(s)].offset <= |s.log[|s.log| - 1]|
          && s.stream == Concat(s.log[..|s.log| - 1]) + s.log[|s.log| - 1][..s.calls[LastCall(s)].offset])
  }

  /** The last submitted call may be incomplete only while it holds the gate or once the stream is cancelled. */
  predicate Guarded(s: State)
  {
    s.order != [] && LastCall(s) in s.calls && !Complete(s.calls[LastCall(s)]) ==>
      || s.gate == Some(LastCall(s))
      || (s.cancelled && (s.gate.Some? && s.gate.value in s.calls ==> !s.calls[s.gate.value].phase.Cleared?))
  }

  predicate Inv(s: State)
  {
    CallsSound(s) && OrderSound(s) && Shape(s) && Guarded(s)
  }

  /** A call may only be submitted behind complete ones. */
  lemma ClearedMeansComplete(s: State, i: CallId)
    requires Inv(s) && i in s.calls && s.calls[i].phase.Cleared? && s.order != []
    ensures Complete(s.calls[LastCall(s)])
  {
    assert Placed(s, i) && CallSound(s.calls[i]);
  }

  lemma SubmitKeepsCall(s: State, i: CallId, j: CallId)
    requires Inv(s) && CallerEnabled(s, i, Submit) && j in s.calls
    ensures CallSound(Caller(s, i, Submit).calls[j]) && Placed(Caller(s, i, Submit), j)
  {
    assert CallSound(s.calls[j]) && Placed(s, j);
    if s.order != [] {
      ClearedMeansComplete(s, i);
    }
  }

  /** A step other than submitting moves one caller's phase and touches nothing of its frame. */
  lemma MoveEffect(s: State, i: CallId, e: CallerStep)
    requires CallerEnabled(s, i, e) && !e.Submit?
    ensures
      var t := Caller(s, i, e);
      && t.calls == s.calls[i := s.calls[i].(phase := t.calls[i].phase)]
      && t.order == s.order && t.log == s.log && t.stream == s.stream && (s.cancelled ==> t.cancelled)
  {
    match e
    case Acquire =>
    case GateTimeout =>
    case FirstCheck =>
    case QueueFull =>
    case Poll =>
    case SeeDone =>
    case LastCheck =>
    case Judge =>
    case Fail =>
    case Release =>
  }

  lemma MoveKeepsOwnCall(s: State, i: CallId, e: CallerStep)
    requires CallerEnabled(s, i, e) && !e.Submit? && CallSound(s.calls[i])
    ensures CallSound(Caller(s, i, e).calls[i])
  {
    match e
    case Acquire =>
    case GateTimeout =>
    case FirstCheck =>
    case QueueFull =>
    case Poll =>
    case SeeDone =>
    case LastCheck =>
    case Judge =>
    case Fail =>
    case Release =>
  }

  lemma MoveKeepsOwnPlace(s: State, i: CallId, e: CallerStep)
    requires CallerEnabled(s, i, e) && !e.Submit? && |s.log| == |s.order| && CallSound(s.calls[i]) && Placed(s, i)
    ensures |Caller(s, i, e).log| == |Caller(s, i, e).order| && Placed(Caller(s, i, e), i)
  {
    match e
    case Acquire =>
    case GateTimeout =>
    case FirstCheck =>
    case QueueFull =>
    case Poll =>
    case SeeDone =>
    case LastCheck =>
    case Judge =>
    case Fail =>
    case Release =>
  }

  lemma MoveKeepsOther(s: State, i: CallId, e: CallerStep, j: CallId)
    requires Inv(s) && CallerEnabled(s, i, e) && !e.Submit? && j in s.calls && j != i
    ensures CallSound(Caller(s, i, e).calls[j]) && Placed(Caller(s, i, e), j)
  {
    assert CallSound(s.calls[j]) && Placed(s, j);
    assert Placed(s, i);
  }

  lemma CallerKeepsCalls(s: State, i: CallId, e: CallerStep)
    requires Inv(s) && CallerEnabled(s, i, e)
    ensures CallsSound(Caller(s, i, e))
  {
    var t := Caller(s, i, e);
    forall j | j in t.calls ensures CallSound(t.calls[j]) && Placed(t, j) {
      if e.Submit? {
        SubmitKeepsCall(s, i, j);
      } else if j == i {
        MoveKeepsOwnCall(s, i, e);
        MoveKeepsOwnPlace(s, i, e);
      } else {
        MoveKeepsOther(s, i, e, j);
      }
    }
  }

  lemma MoveKeepsOrder(s: State, i: CallId, e: CallerStep)
    requires OrderSound(s) && CallerEnabled(s, i, e) && !e.Submit?
    ensures OrderSound(Caller(s, i, e))
  {
  }

  lemma SubmitKeepsOrder(s: State, i: CallId)
    requires Inv(s) && CallerEnabled(s, i, Submit)
    ensures OrderSound(Caller(s, i, Submit))
  {
    assert CallSound(s.calls[i]);
  }

  lemma WorkKeepsOrder(s: State, i: CallId, e: WorkerStep)
    requires Inv(s) && WorkEnabled(s, i, e)
    ensures OrderSound(Work(s, i, e))
  {
  }

  /** When a call may be submitted, the stream ends with a whole frame. */
  lemma StreamIsWhole(s: State, i: CallId)
    requires Inv(s) && CallerEnabled(s, i, Submit)
    ensures s.stream == Concat(s.log)
  {
    if s.order != [] {
      ClearedMeansComplete(s, i);
      assert Placed(s, LastCall(s));
      assert s.log[|s.log| - 1][..|s.log[|s.log| - 1]|] == s.log[|s.log| - 1];
    }
  }

  lemma SubmitKeepsShape(s: State, i: CallId)
    requires Inv(s) && CallerEnabled(s, i, Submit)
    ensures Shape(Caller(s, i, Submit))
  {
    StreamIsWhole(s, i);
    SubmittedShape(s, i);
  }

  /** A frame is put behind whole ones, and nothing of it is in the stream yet. */
  lemma SubmittedShape(s: State, i: CallId)
    requires CallerEnabled(s, i, Submit) && |s.log| == |s.order| && s.stream == Concat(s.log)
    requires s.gate.Some? ==> s.gate.value in s.calls
    ensures Shape(Caller(s, i, Submit))
  {
    var t := Caller(s, i, Submit);
    assert t.log[..|t.log| - 1] == s.log && LastCall(t) == i;
    assert t.log[|t.log| - 1][..0] == [];
    assert s.stream + [] == s.stream;
  }

  /** The shape of the stream does not depend on the callers' phases. */
  lemma ShapeOfPhases(s: State, t: State, i: CallId)
    requires Shape(s) && i in s.calls && i in t.calls && t.calls == s.calls[i := s.calls[i].(phase := t.calls[i].phase)]
    requires t.order == s.order && t.log == s.log && t.stream == s.stream && (t.gate.Some? ==> t.gate.value in t.calls)
    ensures Shape(t)
  {
  }

  lemma MoveKeepsShape(s: State, i: CallId, e: CallerStep)
    requires Inv(s) && CallerEnabled(s, i, e) && !e.Submit?
    ensures Shape(Caller(s, i, e))
  {
    MoveEffect(s, i, e);
    ShapeOfPhases(s, Caller(s, i, e), i);
  }

  lemma CallerKeepsGuarded(s: State, i: CallId, e: CallerStep)
    requires Inv(s) && CallerEnabled(s, i, e)
    ensures Guarded(Caller(s, i, e))
  {
    assert CallSound(s.calls[i]) && Placed(s, i);
  }

  /** A worker changes nothing but its own call's job and offset, and the stream. */
  lemma WorkKeepsPlace(s: State, i: CallId, e: WorkerStep)
    requires Inv(s) && WorkEnabled(s, i, e)
    ensures
      var t := Work(s, i, e);
      && t == s.(calls := t.calls, stream := t.stream)
      && i in t.calls && t.calls == s.calls[i := t.calls[i]]
      && CallSound(t.calls[i]) && Placed(t, i)
  {
    assert CallSound(s.calls[i]) && Placed(s, i);
  }

  lemma WorkKeepsCalls(s: State, i: CallId, e: WorkerStep)
    requires Inv(s) && WorkEnabled(s, i, e)
    ensures CallsSound(Work(s, i, e))
  {
    var t := Work(s, i, e);
    WorkKeepsPlace(s, i, e);
    forall j | j in t.calls ensures CallSound(t.calls[j]) && Placed(t, j) {
      if j != i {
        assert CallSound(s.calls[j]) && Placed(s, j);
      }
    }
  }

  lemma WorkKeepsShape(s: State, i: CallId, e: WorkerStep)
    requires Inv(s) && WorkEnabled(s, i, e)
    ensures Shape(Work(s, i, e))
  {
    if e.Emit? {
      EmitKeepsShape(s, i, e.count);
    }
  }

  lemma EmitKeepsShape(s: State, i: CallId, k: nat)
    requires Inv(s) && WorkEnabled(s, i, Emit(k))
    ensures Shape(Work(s, i, Emit(k)))
  {
    var call := s.calls[i];
    assert CallSound(call) && Placed(s, i);
    assert i == LastCall(s) && s.log[|s.log| - 1] == call.data;
    assert call.data[..call.offset] + call.data[call.offset..call.offset + k] == call.data[..call.offset + k];
  }

  lemma WorkKeepsGuarded(s: State, i: CallId, e: WorkerStep)
    requires Inv(s) && WorkEnabled(s, i, e)
    ensures Guarded(Work(s, i, e))
  {
  }

  lemma StepKeeps(s: State, e: Event)
    requires Inv(s) && Enabled(s, e)
    ensures Inv(Apply(s, e))
  {
    match e
    case Calls(i, step) =>
      CallerKeepsCalls(s, i, step);
      CallerKeepsGuarded(s, i, step);
      if step.Submit? {
        SubmitKeepsOrder(s, i);
        SubmitKeepsShape(s, i);
      } else {
        MoveKeepsOrder(s, i, step);
        MoveKeepsShape(s, i, step);
      }
    case Works(i, work) =>
      WorkKeepsCalls(s, i, work);
      WorkKeepsOrder(s, i, work);
      WorkKeepsShape(s, i, work);
      WorkKeepsGuarded(s, i, work);
    case Begin(i, data) =>
      BeginKeeps(s, i, data);
    case Cancel =>
      CancelKeeps(s);
    case Tick(now) =>
      TickKeeps(s, now);
  }

  lemma BeginKeeps(s: State, i: CallId, data: ByteString)
    requires Inv(s) && i !in s.calls
    ensures Inv(Apply(s, Begin(i, data)))
  {
    var t := Apply(s, Begin(i, data));
    forall j | j in t.calls ensures CallSound(t.calls[j]) && Placed(t, j) {
      if j != i {
        assert CallSound(s.calls[j]) && Placed(s, j);
      }
    }
  }

  lemma CancelKeeps(s: State)
    requires Inv(s)
    ensures Inv(s.(cancelled := true))
  {
    var t := s.(cancelled := true);
    forall j | j in t.calls ensures CallSound(t.calls[j]) && Placed(t, j) {
      assert CallSound(s.calls[j]) && Placed(s, j);
    }
  }

  lemma TickKeeps(s: State, now: int)
    requires Inv(s)
    ensures Inv(s.(now := now))
  {
    var t := s.(now := now);
    forall j | j in t.calls ensures CallSound(t.calls[j]) && Placed(t, j) {
      assert CallSound(s.calls[j]) && Placed(s, j);
    }
  }

  lemma {:induction false} RunKeeps(s: State, run: seq<Event>)
    requires Inv(s) && IsRun(s, run)
    ensures Inv(After(s, run))
    decreases |run|
  {
    if run != [] {
      StepKeeps(s, run[0]);
      RunKeeps(Apply(s, run[0]), run[1..]);
    }
  }

  // ------------------------------------------------------------------- theorems

  /**
   * At every moment the raw stream is the whole frames of all submitted calls but the
   * last, in the order of submission, followed by a prefix of the last frame.
   */
  lemma WholeFramesThenPrefix(run: seq<Event>)
    requires IsRun(INITIAL, run)
    ensures
      var s := After(INITIAL, run);
      && |s.log| == |s.order|
      && (s.order == [] ==> s.stream == [])
      && (s.order != [] ==>
            && LastCall(s) in s.calls && s.calls[LastCall(s)].offset <= |s.log[|s.log| - 1]|
            && s.stream == Concat(s.log[..|s.log| - 1]) + s.log[|s.log| - 1][..s.calls[LastCall(s)].offset])
  {
    RunKeeps(INITIAL, run);
  }

  /** The worker of the last submitted frame has ended without writing and confirming all of it. */
  predicate Broken(s: State)
  {
    s.order != [] && LastCall(s) in s.calls && s.calls[LastCall(s)].job == Finished(false)
  }

  lemma BrokenIsStill(s: State, i: CallId)
    requires Inv(s) && Broken(s) && i in s.calls
    ensures !s.calls[i].phase.Cleared? && (s.calls[i].job.Unsubmitted? || s.calls[i].job.Finished?)
  {
    assert Placed(s, i) && CallSound(s.calls[i]);
    assert s.calls[i].phase.Cleared? ==> s.gate == Some(i);
  }

  lemma BrokenStep(s: State, e: Event)
    requires Inv(s) && Enabled(s, e) && Broken(s)
    ensures Apply(s, e).stream == s.stream && Apply(s, e).order == s.order && Broken(Apply(s, e))
  {
    match e
    case Calls(i, step) =>
      BrokenIsStill(s, i);
    case Works(i, work) =>
      BrokenIsStill(s, i);
    case Begin(_, _) =>
    case Cancel =>
    case Tick(_) =>
  }

  lemma {:induction false} BrokenRun(s: State, run: seq<Event>)
    requires Inv(s) && Broken(s) && IsRun(s, run)
    ensures After(s, run).stream == s.stream && After(s, run).order == s.order
    decreases |run|
  {
    if run != [] {
      BrokenStep(s, run[0]);
      StepKeeps(s, run[0]);
      BrokenRun(Apply(s, run[0]), run[1..]);
    }
  }

  /** Once the write of the last frame has failed, nothing is ever submitted or written again. */
  lemma NothingAfterFailure(before: seq<Event>, later: seq<Event>)
    requires IsRun(INITIAL, before) && Broken(After(INITIAL, before)) && IsRun(After(INITIAL, before), later)
    ensures After(After(INITIAL, before), later).stream == After(INITIAL, before).stream
    ensures After(After(INITIAL, before), later).order == After(INITIAL, before).order
  {
    RunKeeps(INITIAL, before);
    BrokenRun(After(INITIAL, before), later);
  }

  /**
   * A call that returned normally was submitted once, and the stream holds its whole frame at its
   * place in the order.
   */
  lemma ReturnMeansWritten(run: seq<Event>, i: CallId)
    requires IsRun(INITIAL, run)
    requires i in After(INITIAL, run).calls && After(INITIAL, run).calls[i].phase == Left(true)
    ensures
      var s := After(INITIAL, run);
      var k := s.calls[i].slot;
      && |s.log| == |s.order| && k < |s.order| && s.log[k] == s.calls[i].data
      && (forall j :: 0 <= j < |s.order| ==> (s.order[j] == i <==> j == k))
      && Concat(s.log[..k]) + s.calls[i].data <= s.stream
  {
    RunKeeps(INITIAL, run);
    var s := After(INITIAL, run);
    var k := s.calls[i].slot;
    assert CallSound(s.calls[i]) && Placed(s, i);
    if k == |s.log| - 1 {
      assert s.log[k][..|s.log[k]|] == s.log[k];
    } else {
      ConcatGrows(s.log[..|s.log| - 1], k);
      assert s.log[..|s.log| - 1][..k] == s.log[..k];
    }
  }

  /** The frames up to a position, then the frame there, start the whole. */
  lemma {:induction false} ConcatGrows(frames: seq<ByteString>, k: nat)
    requires k < |frames|
    ensures Concat(frames[..k]) + frames[k] <= Concat(frames)
    decreases |frames|
  {
    var short := frames[..|frames| - 1];
    if k < |short| {
      ConcatGrows(short, k);
      assert short[..k] == frames[..k];
    } else {
      assert frames[..k] == short;
    }
  }

  // ------------------------------------------------------------ why a call fails

  /** Not a cancellation, a full pool, a failed write or a timeout, and no check after the deadline of its call. */
  predicate Undisturbed(s: State, e: Event)
  {
    match e
    case Begin(_, _) => true
    case Calls(i, step) =>
      !step.QueueFull? && !step.GateTimeout? && (i in s.calls ==> s.now < s.calls[i].deadline)
    case Works(i, work) => !work.WriteFails? && (i in s.calls ==> s.now < s.calls[i].deadline)
    case Cancel => false
    case Tick(_) => true
  }

  predicate RunUndisturbed(s: State, run: seq<Event>)
    requires IsRun(s, run)
    decreases |run|
  {
    run == [] || (Undisturbed(s, run[0]) && RunUndisturbed(Apply(s, run[0]), run[1..]))
  }

  predicate Healthy(call: Call)
  {
    && !call.phase.Failing? && call.phase != Releasing(false) && call.phase != Left(false)
    && call.job != Reporting(false) && call.job != Finished(false)
  }

  predicate AllHealthy(s: State)
  {
    !s.cancelled && forall i :: i in s.calls ==> Healthy(s.calls[i])
  }

  lemma StepStaysHealthy(s: State, e: Event)
    requires Enabled(s, e) && Undisturbed(s, e) && AllHealthy(s)
    ensures AllHealthy(Apply(s, e))
  {
    match e
    case Begin(_, _) =>
    case Calls(i, step) => assert Healthy(s.calls[i]);
    case Works(i, work) => assert Healthy(s.calls[i]);
    case Tick(_) =>
  }

  lemma {:induction false} RunStaysHealthy(s: State, run: seq<Event>)
    requires IsRun(s, run) && RunUndisturbed(s, run) && AllHealthy(s)
    ensures AllHealthy(After(s, run))
    decreases |run|
  {
    if run != [] {
      StepStaysHealthy(s, run[0]);
      RunStaysHealthy(Apply(s, run[0]), run[1..]);
    }
  }

  /** No call fails and the stream is not cancelled, unless something has disturbed the run. */
  lemma FailureHasCause(run: seq<Event>, i: CallId)
    requires IsRun(INITIAL, run) && RunUndisturbed(INITIAL, run) && i in After(INITIAL, run).calls
    ensures !After(INITIAL, run).cancelled && After(INITIAL, run).calls[i].phase != Left(false)
  {
    RunStaysHealthy(INITIAL, run);
    assert Healthy(After(INITIAL, run).calls[i]);
  }

  /** Steps by which a call or its job gets on; polling again does not count. */
  predicate Advances(e: Event, i: CallId)
  {
    (e.Calls? && e.id == i && !e.step.Poll?) || (e.Works? && e.id == i)
  }

  /** A call that has the gate can always get on; no run stops with the gate taken. */
  lemma HolderCanAdvance(run: seq<Event>, i: CallId) returns (e: Event)
    requires IsRun(INITIAL, run) && After(INITIAL, run).gate == Some(i)
    ensures Enabled(After(INITIAL, run), e) && Advances(e, i)
  {
    var s := After(INITIAL, run);
    RunKeeps(INITIAL, run);
    assert i in s.calls && CallSound(s.calls[i]) && Placed(s, i);
    match s.calls[i].phase
    case Entered => e := Calls(i, FirstCheck);
    case Cleared => e := Calls(i, Submit);
    case Polling =>
      match s.calls[i].job {
        case Queued => e := Works(i, Start);
        case Looping => e := Works(i, LoopCheck);
        case Writing => e := Works(i, WriteReturns);
        case Reporting(_) => e := Works(i, Report);
        case Finished(_) => e := Calls(i, SeeDone);
      }
    case Observed => e := Calls(i, LastCheck);
    case Passed => e := Calls(i, Judge);
    case Failing => e := Calls(i, Fail);
    case Releasing(_) => e := Calls(i, Release);
  }
}
