/**
 * Attachment of native connections: a reader thread takes attach and detach
 * messages in order, a pool of workers runs the attachments, and both work on the
 * tables of attaching and registered connections. One step below is one critical
 * section, or one part of the worker's long section under the lock.
 */
module AttachRace {
  import opened Outcomes
  import opened Collections

  type Conn = nat
  type Session = nat

  const MAX_CONNECTIONS: nat := 256

  /** Where the worker of one attach request is. */
  datatype Phase =
    | Queued
    | Holding      // holds the lock, has checked the tables
    | Bound        // holds the lock, the session refers to the transport
    | Authorizing  // the connection is registered
    | Failing      // about to remove the connection
    | Unlinking    // has removed it, about to clear the session
    | Closing      // about to forget the pending marker
    | Done

  datatype Reader =
    | Idle
    | Admitting(conn: Conn)
    | Removing(conn: Conn, rest: Option<set<Conn>>)
    | Clearing(conn: Conn, rest: Option<set<Conn>>)
    | Ending
    | Sweeping(left: set<Conn>)
    | Exited

  datatype State = State(
    attaching: map<Conn, bool>,     // pending markers; true once a detach was seen
    connections: set<Conn>,
    claims: map<Conn, Session>,     // the session written into each transport
    sessions: map<Session, Conn>,   // the transport each session refers to
    workers: map<Conn, Phase>,
    reader: Reader,
    lock: Option<Conn>,             // the worker inside the long section
    stopping: bool,
    seen: set<Conn>,                // connections some message has named
    closed: set<Conn>)              // connections whose detach the reader has begun to carry out

  const INITIAL := State(map[], {}, map[], map[], map[], Idle, None, false, {}, {})

  datatype ReaderStep =
    | TakeAttach(conn: Conn)
    | Submit
    | Refuse
    | RefuseOther(conn: Conn)
    | TakeDetach(conn: Conn)
    | Remove
    | Clear
    | Finish
    | Snapshot
    | Next(conn: Conn)
    | Exit

  datatype WorkerStep =
    | Check | FailEarly | Crash | Attach(session: Session) | Rejected | Register
    | Authorized | Denied | Drop | Unlink | Forget

  datatype Event =
    | Reads(step: ReaderStep)
    | Works(conn: Conn, work: WorkerStep)
    | Invalidate(session: Session)
    | Stop

  // ------------------------------------------------------------- shared sections

  function Mark(s: State, c: Conn): State
  {
    if c in s.attaching then s.(attaching := s.attaching[c := true]) else s
  }

  function ForgetPending(s: State, c: Conn): State
  {
    s.(attaching := s.attaching - {c})
  }

  /** The session forgets the transport only if it still refers to this very one. */
  function ClearSession(s: State, c: Conn): State
  {
    if c in s.claims && s.claims[c] in s.sessions && s.sessions[s.claims[c]] == c then
      s.(sessions := s.sessions - {s.claims[c]})
    else s
  }

  // --------------------------------------------------------------------- reader

  predicate ReaderEnabled(s: State, e: ReaderStep)
  {
    match e
    case TakeAttach(c) => s.reader.Idle? && s.lock.None? && c !in s.seen
    case Submit => s.reader.Admitting?
    case Refuse => s.reader.Admitting? && s.lock.None?
    case RefuseOther(c) => s.reader.Idle? && s.lock.None?
    case TakeDetach(c) => s.reader.Idle?
    case Remove => s.reader.Removing? && s.lock.None?
    case Clear => s.reader.Clearing?
    case Finish => s.reader.Idle? || s.reader.Admitting?
    case Snapshot => s.reader.Ending? && s.lock.None?
    case Next(c) => s.reader.Sweeping? && c in s.reader.left
    case Exit => s.reader.Sweeping? && s.reader.left == {}
  }

  function Resume(rest: Option<set<Conn>>): Reader
  {
    match rest
    case None => Idle
    case Some(left) => Sweeping(left)
  }

  function RemoveByReader(s: State, c: Conn, rest: Option<set<Conn>>): State
  {
    Mark(s, c).(connections := s.connections - {c},
                closed := s.closed + {c},
                reader := if c in s.connections then Clearing(c, rest) else Resume(rest))
  }

  function Read(s: State, e: ReaderStep): State
    requires ReaderEnabled(s, e)
  {
    match e
    case TakeAttach(c) => s.(attaching := s.attaching[c := false], seen := s.seen + {c}, reader := Admitting(c))
    case Submit => s.(workers := s.workers[s.reader.conn := Queued], reader := Idle)
    case Refuse => ForgetPending(s, s.reader.conn).(reader := Idle)
    case RefuseOther(c) => ForgetPending(s, c)
    case TakeDetach(c) => s.(reader := Removing(c, None), seen := s.seen + {c})
    case Remove => RemoveByReader(s, s.reader.conn, s.reader.rest)
    case Clear => ClearSession(s, s.reader.conn).(reader := Resume(s.reader.rest))
    case Finish => s.(reader := Ending, stopping := true)
    case Snapshot => s.(reader := Sweeping(s.connections))
    case Next(c) => s.(reader := Removing(c, Some(s.reader.left - {c})))
    case Exit => s.(reader := Exited)
  }

  // -------------------------------------------------------------------- workers

  predicate At(s: State, c: Conn, phase: Phase)
  {
    c in s.workers && s.workers[c] == phase
  }

  predicate Admissible(s: State, c: Conn)
  {
    c in s.attaching && !s.attaching[c] && c !in s.connections && |s.connections| < MAX_CONNECTIONS && !s.stopping
  }

  predicate WorkEnabled(s: State, c: Conn, e: WorkerStep)
  {
    match e
    case Check => At(s, c, Queued) && s.lock.None?
    case FailEarly => At(s, c, Queued)
    case Crash => At(s, c, Queued) || At(s, c, Holding)
    case Attach(sid) => At(s, c, Holding) && sid !in s.sessions
    case Rejected => At(s, c, Holding)
    case Register => At(s, c, Bound)
    case Authorized => At(s, c, Authorizing)
    case Denied => At(s, c, Authorizing)
    case Drop => At(s, c, Failing) && s.lock.None?
    case Unlink => At(s, c, Unlinking)
    case Forget => At(s, c, Closing) && s.lock.None?
  }

  function Moved(s: State, c: Conn, phase: Phase): State
  {
    s.(workers := s.workers[c := phase])
  }

  function Unlocked(s: State, c: Conn): State
  {
    if s.lock == Some(c) then s.(lock := None) else s
  }

  function Work(s: State, c: Conn, e: WorkerStep): State
    requires WorkEnabled(s, c, e)
  {
    match e
    case Check => if Admissible(s, c) then Moved(s, c, Holding).(lock := Some(c)) else Moved(s, c, Failing)
    case FailEarly => Moved(s, c, Failing)
    case Crash => Moved(Unlocked(s, c), c, Closing)
    case Attach(sid) => Moved(s, c, Bound).(sessions := s.sessions[sid := c], claims := s.claims[c := sid])
    case Rejected => Moved(Unlocked(s, c), c, Failing)
    case Register => Moved(Unlocked(s, c), c, Authorizing).(connections := s.connections + {c})
    case Authorized => Moved(s, c, Closing)
    case Denied => Moved(s, c, Failing)
    case Drop =>
      var next := if c in s.connections then Unlinking else Closing;
      Moved(Mark(s, c), c, next).(connections := s.connections - {c})
    case Unlink => Moved(ClearSession(s, c), c, Closing)
    case Forget => Moved(ForgetPending(s, c), c, Done)
  }

  // ----------------------------------------------------------------------- runs

  predicate Enabled(s: State, e: Event)
  {
    match e
    case Reads(step) => ReaderEnabled(s, step)
    case Works(c, work) => WorkEnabled(s, c, work)
    case Invalidate(_) => true
    case Stop => true
  }

  function Apply(s: State, e: Event): State
    requires Enabled(s, e)
  {
    match e
    case Reads(step) => Read(s, step)
    case Works(c, work) => Work(s, c, work)
    case Invalidate(sid) => s.(sessions := s.sessions - {sid})
    case Stop => s.(stopping := true)
  }

  predicate IsRun(s: State, run: seq<Event>)
    decreases |run|
  {
    run == [] || (Enabled(s, run[0]) && IsRun(Apply(s, run[0]), run[1..]))
  }

  function After(s: State, run: seq<Event>): State
    requires IsRun(s, run)
    decreases |run|
  {
    if run == [] then s else After(Apply(s, run[0]), run[1..])
  }

  // ------------------------------------------------------------------ invariant

  predicate InLock(s: State, c: Conn)
  {
    At(s, c, Holding) || At(s, c, Bound)
  }

  /** Somebody still answers for the link from the session to this transport. */
  predicate Answered(s: State, c: Conn)
  {
    || At(s, c, Bound) || c in s.connections || At(s, c, Unlinking)
    || (s.reader.Clearing? && s.reader.conn == c)
  }

  predicate LinkSound(s: State, sid: Session)
    requires sid in s.sessions
  {
    var c := s.sessions[sid];
    c in s.claims && s.claims[c] == sid && Answered(s, c)
  }

  predicate LinksSound(s: State)
  {
    forall sid :: sid in s.sessions ==> LinkSound(s, sid)
  }

  predicate LockSound(s: State)
  {
    && (forall c :: c in s.workers && InLock(s, c) ==> s.lock == Some(c))
    && (s.lock.Some? ==> InLock(s, s.lock.value) && s.lock.value !in s.connections)
  }

  predicate CountSound(s: State)
  {
    |s.connections| <= MAX_CONNECTIONS && (s.lock.Some? ==> |s.connections| < MAX_CONNECTIONS)
  }

  /** A transport that is registered or about to be has its session written in it. */
  predicate ClaimsSound(s: State)
  {
    && (forall c :: c in s.connections ==> c in s.claims && c in s.workers && !s.workers[c].Queued?)
    && (forall c :: c in s.workers && (s.workers[c].Bound? || s.workers[c].Unlinking?) ==> c in s.claims)
    && (s.reader.Clearing? ==> s.reader.conn in s.claims)
  }

  predicate Shut(s: State, c: Conn)
  {
    c in s.attaching ==> s.attaching[c]
  }

  /** What a begun detach guarantees: not registered, not in the lock, and not admissible. */
  predicate ClosedFor(s: State, c: Conn)
  {
    c !in s.connections && !InLock(s, c) && Shut(s, c)
  }

  predicate ClosedSound(s: State)
  {
    forall c :: c in s.closed ==> ClosedFor(s, c)
  }

  predicate SeenSound(s: State)
  {
    && s.closed <= s.seen && s.workers.Keys <= s.seen && s.connections <= s.seen
    && (s.reader.Admitting? ==> s.reader.conn in s.seen && s.reader.conn !in s.closed && s.reader.conn !in s.workers)
    && (s.reader.Removing? ==> s.reader.conn in s.seen)
    && (s.reader.Clearing? ==> s.reader.conn in s.closed)
  }

  function Remaining(r: Reader): Option<set<Conn>>
  {
    match r
    case Removing(c, Some(left)) => Some(left + {c})
    case Clearing(_, Some(left)) => Some(left)
    case Sweeping(left) => Some(left)
    case Exited => Some({})
    case _ => None
  }

  /** During the final sweep only listed connections are left, and none can be added. */
  predicate SweepSound(s: State)
  {
    && (s.reader.Ending? ==> s.stopping)
    && (Remaining(s.reader).Some? ==> s.stopping && s.lock.None? && s.connections <= Remaining(s.reader).value)
    && (Remaining(s.reader).Some? ==> Remaining(s.reader).value <= s.seen)
  }

  predicate Inv(s: State)
  {
    LinksSound(s) && LockSound(s) && CountSound(s) && ClaimsSound(s) && ClosedSound(s) && SeenSound(s) && SweepSound(s)
  }

  lemma ReadKeepsLinks(s: State, e: ReaderStep)
    requires Inv(s) && ReaderEnabled(s, e)
    ensures LinksSound(Read(s, e))
  {
    assert forall sid :: sid in Read(s, e).sessions ==> sid in s.sessions;
    forall sid | sid in Read(s, e).sessions ensures LinkSound(Read(s, e), sid) {
      ReadKeepsLink(s, e, sid);
    }
  }

  lemma ReadKeepsLink(s: State, e: ReaderStep, sid: Session)
    requires ReaderEnabled(s, e) && sid in s.sessions && LinkSound(s, sid) && sid in Read(s, e).sessions
    requires s.reader.Admitting? ==> s.reader.conn !in s.workers && s.reader.conn !in s.connections
    ensures LinkSound(Read(s, e), sid)
  {
    match e
    case TakeAttach(_) =>
    case Submit =>
    case Refuse =>
    case RefuseOther(_) =>
    case TakeDetach(_) =>
    case Remove =>
    case Clear =>
    case Finish =>
    case Snapshot =>
    case Next(_) =>
    case Exit =>
  }

  /** A connection that is only now being bound was not linked to any session before. */
  lemma HoldingIsUnlinked(s: State, c: Conn, sid: Session)
    requires LinksSound(s) && LockSound(s) && ClosedSound(s) && SeenSound(s) && At(s, c, Holding) && sid in s.sessions
    ensures s.sessions[sid] != c
  {
    assert InLock(s, c);
    assert LinkSound(s, sid);
  }

  lemma EntryKeepsLink(s: State, c: Conn, e: WorkerStep, sid: Session)
    requires LinksSound(s) && LockSound(s) && ClosedSound(s) && SeenSound(s) && WorkEnabled(s, c, e)
    requires e.Check? || e.FailEarly? || e.Crash? || e.Attach? || e.Rejected?
    requires sid in Work(s, c, e).sessions
    ensures LinkSound(Work(s, c, e), sid)
  {
    if sid in s.sessions {
      assert LinkSound(s, sid);
      if At(s, c, Holding) {
        HoldingIsUnlinked(s, c, sid);
      }
    }
  }

  lemma ExitKeepsLink(s: State, c: Conn, e: WorkerStep, sid: Session)
    requires LinksSound(s) && WorkEnabled(s, c, e)
    requires e.Register? || e.Authorized? || e.Denied? || e.Drop? || e.Forget?
    requires sid in s.sessions
    ensures LinkSound(Work(s, c, e), sid)
  {
    assert LinkSound(s, sid);
    var d := s.sessions[sid];
    assert d != c ==>
      At(Work(s, c, e), d, Bound) == At(s, d, Bound) && At(Work(s, c, e), d, Unlinking) == At(s, d, Unlinking);
  }

  lemma UnlinkKeepsLink(s: State, c: Conn, sid: Session)
    requires LinksSound(s) && WorkEnabled(s, c, Unlink)
    requires sid in Work(s, c, Unlink).sessions
    ensures LinkSound(Work(s, c, Unlink), sid)
  {
    assert LinkSound(s, sid);
    assert s.sessions[sid] != c;
  }

  lemma WorkKeepsLinks(s: State, c: Conn, e: WorkerStep)
    requires Inv(s) && WorkEnabled(s, c, e)
    ensures LinksSound(Work(s, c, e))
  {
    var t := Work(s, c, e);
    forall sid | sid in t.sessions ensures LinkSound(t, sid) {
      if e.Check? || e.FailEarly? || e.Crash? || e.Attach? || e.Rejected? {
        EntryKeepsLink(s, c, e, sid);
      } else if e.Unlink? {
        UnlinkKeepsLink(s, c, sid);
      } else {
        ExitKeepsLink(s, c, e, sid);
      }
    }
  }

  lemma ReadKeepsLock(s: State, e: ReaderStep)
    requires Inv(s) && ReaderEnabled(s, e)
    ensures LockSound(Read(s, e))
  {
  }

  lemma WorkKeepsHolders(s: State, c: Conn, e: WorkerStep, d: Conn)
    requires LockSound(s) && WorkEnabled(s, c, e) && InLock(Work(s, c, e), d)
    ensures Work(s, c, e).lock == Some(d)
  {
    assert InLock(s, c) ==> s.lock == Some(c);
    assert InLock(s, d) ==> s.lock == Some(d);
  }

  lemma WorkKeepsHolder(s: State, c: Conn, e: WorkerStep)
    requires LockSound(s) && WorkEnabled(s, c, e) && Work(s, c, e).lock.Some?
    ensures var t := Work(s, c, e); InLock(t, t.lock.value) && t.lock.value !in t.connections
  {
    assert InLock(s, c) ==> s.lock == Some(c);
  }

  lemma WorkKeepsLock(s: State, c: Conn, e: WorkerStep)
    requires LockSound(s) && WorkEnabled(s, c, e)
    ensures LockSound(Work(s, c, e))
  {
    var t := Work(s, c, e);
    forall d | d in t.workers && InLock(t, d) ensures t.lock == Some(d) {
      WorkKeepsHolders(s, c, e, d);
    }
    if t.lock.Some? {
      WorkKeepsHolder(s, c, e);
    }
  }

  lemma ReadKeepsCount(s: State, e: ReaderStep)
    requires CountSound(s) && ReaderEnabled(s, e)
    ensures CountSound(Read(s, e))
  {
    assert Read(s, e).connections <= s.connections;
    SubsetSize(Read(s, e).connections, s.connections);
  }

  lemma WorkKeepsCount(s: State, c: Conn, e: WorkerStep)
    requires LockSound(s) && CountSound(s) && WorkEnabled(s, c, e)
    ensures CountSound(Work(s, c, e))
  {
    if e.Register? {
      assert InLock(s, c);
    } else {
      assert Work(s, c, e).connections <= s.connections;
      SubsetSize(Work(s, c, e).connections, s.connections);
    }
  }

  lemma ReadKeepsClaims(s: State, e: ReaderStep)
    requires Inv(s) && ReaderEnabled(s, e)
    ensures ClaimsSound(Read(s, e))
  {
  }

  lemma WorkKeepsClaims(s: State, c: Conn, e: WorkerStep)
    requires ClaimsSound(s) && WorkEnabled(s, c, e)
    ensures ClaimsSound(Work(s, c, e))
  {
  }

  lemma ReadKeepsClosed(s: State, e: ReaderStep)
    requires Inv(s) && ReaderEnabled(s, e)
    ensures ClosedSound(Read(s, e))
  {
  }

  lemma WorkKeepsClosedFor(s: State, c: Conn, e: WorkerStep, d: Conn)
    requires LockSound(s) && WorkEnabled(s, c, e) && ClosedFor(s, d)
    ensures ClosedFor(Work(s, c, e), d)
  {
  }

  lemma WorkLeavesClosed(s: State, c: Conn, e: WorkerStep)
    requires WorkEnabled(s, c, e)
    ensures Work(s, c, e).closed == s.closed
  {
  }

  lemma ClosedEverywhere(s: State, t: State)
    requires t.closed == s.closed && forall d :: d in s.closed ==> ClosedFor(t, d)
    ensures ClosedSound(t)
  {
  }

  lemma WorkKeepsClosed(s: State, c: Conn, e: WorkerStep)
    requires Inv(s) && WorkEnabled(s, c, e)
    ensures ClosedSound(Work(s, c, e))
  {
    WorkLeavesClosed(s, c, e);
    forall d | d in s.closed ensures ClosedFor(Work(s, c, e), d) {
      WorkKeepsClosedFor(s, c, e, d);
    }
    ClosedEverywhere(s, Work(s, c, e));
  }

  lemma ReadKeepsSeen(s: State, e: ReaderStep)
    requires Inv(s) && ReaderEnabled(s, e)
    ensures SeenSound(Read(s, e))
  {
  }

  lemma WorkKeepsSeen(s: State, c: Conn, e: WorkerStep)
    requires Inv(s) && WorkEnabled(s, c, e)
    ensures SeenSound(Work(s, c, e))
  {
  }

  lemma ReadKeepsSweep(s: State, e: ReaderStep)
    requires Inv(s) && ReaderEnabled(s, e)
    ensures SweepSound(Read(s, e))
  {
  }

  lemma WorkKeepsSweep(s: State, c: Conn, e: WorkerStep)
    requires Inv(s) && WorkEnabled(s, c, e)
    ensures SweepSound(Work(s, c, e))
  {
  }

  lemma StepKeeps(s: State, e: Event)
    requires Inv(s) && Enabled(s, e)
    ensures Inv(Apply(s, e))
  {
    match e
    case Reads(step) =>
      ReadKeepsLinks(s, step);
      ReadKeepsLock(s, step);
      ReadKeepsCount(s, step);
      ReadKeepsClaims(s, step);
      ReadKeepsClosed(s, step);
      ReadKeepsSeen(s, step);
      ReadKeepsSweep(s, step);
    case Works(c, work) =>
      WorkKeepsLinks(s, c, work);
      WorkKeepsLock(s, c, work);
      WorkKeepsCount(s, c, work);
      WorkKeepsClaims(s, c, work);
      WorkKeepsClosed(s, c, work);
      WorkKeepsSeen(s, c, work);
      WorkKeepsSweep(s, c, work);
    case Invalidate(_) =>
    case Stop =>
  }

  lemma {:induction false} RunKeeps(s: State, run: seq<Event>)
    requires Inv(s) && IsRun(s, run)
    ensures Inv(After(s, run))
    decreases |run|
  {
    if run != [] {
      StepKeeps(s, run[0]);
      RunKeeps(Apply(s, run[0]), run[1..]);
    }
  }

  // ------------------------------------------------------------------- theorems

  /** The reader has carried out the detach of the connection and its worker, if any, is done. */
  predicate Settled(s: State, c: Conn)
  {
    && c in s.closed
    && !(s.reader.Clearing? && s.reader.conn == c)
    && (c in s.workers ==> s.workers[c].Done?)
  }

  lemma SettledHasNoLink(s: State, c: Conn, sid: Session)
    requires Inv(s) && Settled(s, c) && sid in s.sessions
    ensures s.sessions[sid] != c
  {
    assert LinkSound(s, sid);
    assert ClosedFor(s, c);
  }

  lemma ReadStaysSettled(s: State, e: ReaderStep, c: Conn)
    requires ClosedFor(s, c) && SeenSound(s) && ReaderEnabled(s, e) && Settled(s, c)
    ensures Settled(Read(s, e), c)
  {
  }

  lemma WorkStaysSettled(s: State, d: Conn, e: WorkerStep, c: Conn)
    requires WorkEnabled(s, d, e) && Settled(s, c)
    ensures Settled(Work(s, d, e), c)
  {
  }

  lemma StepStaysSettled(s: State, e: Event, c: Conn)
    requires Inv(s) && Enabled(s, e) && Settled(s, c)
    ensures Settled(Apply(s, e), c)
  {
    match e
    case Reads(step) => ReadStaysSettled(s, step, c);
    case Works(d, work) => WorkStaysSettled(s, d, work, c);
    case Invalidate(_) =>
    case Stop =>
  }

  lemma {:induction false} RunStaysSettled(s: State, run: seq<Event>, c: Conn)
    requires Inv(s) && IsRun(s, run) && Settled(s, c)
    ensures Settled(After(s, run), c)
    decreases |run|
  {
    if run != [] {
      StepKeeps(s, run[0]);
      StepStaysSettled(s, run[0], c);
      RunStaysSettled(Apply(s, run[0]), run[1..], c);
    }
  }

  /**
   * The race is closed: from the moment a connection's detach is carried out and its
   * attach worker is done, at every later point it is unregistered and no session refers
   * to its transport.
   */
  lemma DetachIsFinal(before: seq<Event>, later: seq<Event>, c: Conn)
    requires IsRun(INITIAL, before) && Settled(After(INITIAL, before), c)
    requires IsRun(After(INITIAL, before), later)
    ensures
      var s := After(After(INITIAL, before), later);
      c !in s.connections && forall sid :: sid in s.sessions ==> s.sessions[sid] != c
  {
    var s := After(INITIAL, before);
    RunKeeps(INITIAL, before);
    RunKeeps(s, later);
    RunStaysSettled(s, later, c);
    var t := After(s, later);
    assert ClosedFor(t, c);
    forall sid | sid in t.sessions ensures t.sessions[sid] != c {
      SettledHasNoLink(t, c, sid);
    }
  }

  /** No transport serves two sessions. */
  lemma OneSessionPerTransport(run: seq<Event>, first: Session, second: Session)
    requires IsRun(INITIAL, run)
    requires first in After(INITIAL, run).sessions && second in After(INITIAL, run).sessions
    requires After(INITIAL, run).sessions[first] == After(INITIAL, run).sessions[second]
    ensures first == second
  {
    RunKeeps(INITIAL, run);
    var s := After(INITIAL, run);
    assert LinkSound(s, first) && LinkSound(s, second);
  }

  lemma ReadClearsOwn(s: State, e: ReaderStep, sid: Session)
    requires ReaderEnabled(s, e) && sid in s.sessions
    ensures sid in Read(s, e).sessions ==> Read(s, e).sessions[sid] == s.sessions[sid]
    ensures sid !in Read(s, e).sessions ==> e == Clear && s.reader.conn == s.sessions[sid]
  {
  }

  lemma WorkClearsOwn(s: State, c: Conn, e: WorkerStep, sid: Session)
    requires WorkEnabled(s, c, e) && sid in s.sessions
    ensures sid in Work(s, c, e).sessions ==> Work(s, c, e).sessions[sid] == s.sessions[sid]
    ensures sid !in Work(s, c, e).sessions ==> e == Unlink && c == s.sessions[sid]
  {
  }

  /**
   * A link is never replaced, and only an invalidation or the clearing of that very
   * connection takes it away: a late detach leaves a newer transport alone.
   */
  lemma OnlyOwnLinkCleared(s: State, e: Event, sid: Session)
    requires Enabled(s, e) && sid in s.sessions
    ensures sid in Apply(s, e).sessions ==> Apply(s, e).sessions[sid] == s.sessions[sid]
    ensures sid !in Apply(s, e).sessions ==>
      || e == Invalidate(sid)
      || e == Works(s.sessions[sid], Unlink)
      || (e == Reads(Clear) && s.reader.conn == s.sessions[sid])
  {
    match e
    case Reads(step) => ReadClearsOwn(s, step, sid);
    case Works(c, work) => WorkClearsOwn(s, c, work, sid);
    case Invalidate(_) =>
    case Stop =>
  }

  lemma SweptLinkIsBusy(s: State, sid: Session)
    requires Inv(s) && s.reader.Exited? && sid in s.sessions
    ensures s.sessions[sid] in s.workers && !s.workers[s.sessions[sid]].Done?
  {
    assert LinkSound(s, sid);
  }

  /** After the reader's final sweep nothing is registered, and once the workers are done no session is linked. */
  lemma ShutdownDetachesAll(run: seq<Event>)
    requires IsRun(INITIAL, run) && After(INITIAL, run).reader.Exited?
    ensures After(INITIAL, run).connections == {}
    ensures (forall c :: c in After(INITIAL, run).workers ==> After(INITIAL, run).workers[c].Done?) ==>
      After(INITIAL, run).sessions == map[]
  {
    RunKeeps(INITIAL, run);
    var s := After(INITIAL, run);
    if s.sessions != map[] {
      var sid :| sid in s.sessions;
      SweptLinkIsBusy(s, sid);
    }
  }

  /** The table of registered connections never outgrows its bound. */
  lemma RegisteredBounded(run: seq<Event>)
    requires IsRun(INITIAL, run)
    ensures |After(INITIAL, run).connections| <= MAX_CONNECTIONS
  {
    RunKeeps(INITIAL, run);
  }

  // ------------------------------------------------------------- who is admitted

  /**
   * A worker goes on to attach exactly when no detach of its connection was seen, the connection is
   * not registered, fewer than 256 are, and the server is not stopping.
   */
  lemma AdmittedExactly(s: State, c: Conn)
    requires WorkEnabled(s, c, Check)
    ensures
      var t := Work(s, c, Check);
      && (At(t, c, Holding) <==>
            c in s.attaching && !s.attaching[c] && c !in s.connections && |s.connections| < 256 && !s.stopping)
      && (At(t, c, Holding) ==> t.lock == Some(c))
      && (!At(t, c, Holding) ==> At(t, c, Failing) && t.lock == s.lock)
  {
  }

  /** In every run a worker that is admitted and not rejected registers its connection and links its session. */
  lemma AdmittedIsRegistered(run: seq<Event>, c: Conn, sid: Session)
    requires IsRun(INITIAL, run)
    requires
      var s := After(INITIAL, run);
      && WorkEnabled(s, c, Check) && At(Work(s, c, Check), c, Holding) && sid !in s.sessions
    ensures
      var s := After(INITIAL, run);
      var attach := [Works(c, Check), Works(c, Attach(sid)), Works(c, Register)];
      && IsRun(s, attach)
      && var t := After(s, attach);
         c in t.connections && sid in t.sessions && t.sessions[sid] == c && t.lock.None?
  {
    var s := After(INITIAL, run);
    var attach := [Works(c, Check), Works(c, Attach(sid)), Works(c, Register)];
    var a := Apply(s, attach[0]);
    var b := Apply(a, attach[1]);
    var t := Apply(b, attach[2]);
    assert attach[1..][0] == attach[1] && attach[1..][1..] == attach[2..];
    assert attach[2..][0] == attach[2] && attach[2..][1..] == [];
    assert IsRun(t, []) && IsRun(b, attach[2..]) && IsRun(a, attach[1..]);
    assert After(s, attach) == After(a, attach[1..]) == After(b, attach[2..]) == After(t, []) == t;
  }
}
