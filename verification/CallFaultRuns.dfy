/**
 * Runs of the call service in which any session may fail to be saved. The room invariant
 * does not survive these faults, but a weaker one does: rooms stay well formed, members stay
 * bound to their rooms, and a policy file never says more than the room does.
 */
module CallFaultRuns {
  import opened Collections
  import opened CallRooms
  import opened CallSafety
  import opened CallHistory
  import opened CallOutcomes
  import opened CallFaults

  /**
   * Where saving a session interrupts a handler. A leave or a disconnection that is
   * interrupted has already done everything, so it needs no fault of its own.
   */
  datatype Fault =
    | CreateUnsaved(sid: SessionId, room: RoomId, inviteHash: string, agreementKey: string, signingKey: string)
    | JoinUnsaved(sid: SessionId, room: RoomId, inviteHash: string, agreementKey: string, signingKey: string)
    | RemoveUnsaved(sid: SessionId, room: RoomId, target: Participant)
    | EndUnsaved(room: RoomId, left: set<Participant>)

  datatype Step = Done(event: Event) | Faulty(fault: Fault)

  predicate FaultEnabled(s: State, f: Fault)
  {
    match f
    case CreateUnsaved(sid, r, hash, a, k) => Create(s, sid, r, hash, a, k, true).1 == Accepted
    case JoinUnsaved(sid, r, hash, a, k) => Join(s, sid, r, hash, a, k, true).1 == Accepted
    case RemoveUnsaved(sid, r, target) =>
      && IsActiveHost(s, sid, r) && target != s.users[sid] && target in s.rooms[r].members
      && s.rooms[r].members[target].session in s.users && |s.rooms[r].blocked| < MAX_BLOCKED
    case EndUnsaved(r, left) => r in s.rooms && left < s.rooms[r].members.Keys
  }

  function FaultApply(s: State, f: Fault): State
    requires FaultEnabled(s, f)
  {
    match f
    case CreateUnsaved(sid, r, hash, a, k) => UnsavedCreate(s, sid, r, hash, a, k)
    case JoinUnsaved(sid, r, hash, a, k) => UnsavedJoin(s, sid, r, a, k)
    case RemoveUnsaved(_, r, target) => UnsavedRemoval(s, r, target)
    case EndUnsaved(r, left) => UnsavedEnd(s, r, left)
  }

  predicate StepEnabled(s: State, e: Step)
  {
    match e
    case Done(event) => Enabled(s, event)
    case Faulty(f) => FaultEnabled(s, f)
  }

  function StepApply(s: State, e: Step): State
    requires StepEnabled(s, e)
  {
    match e
    case Done(event) => Apply(s, event)
    case Faulty(f) => FaultApply(s, f)
  }

  predicate IsFaultyRun(s: State, run: seq<Step>)
    decreases |run|
  {
    run == [] || (StepEnabled(s, run[0]) && IsFaultyRun(StepApply(s, run[0]), run[1..]))
  }

  function AfterFaults(s: State, run: seq<Step>): State
    requires IsFaultyRun(s, run)
    decreases |run|
  {
    if run == [] then s else AfterFaults(StepApply(s, run[0]), run[1..])
  }

  // ------------------------------------------------------------------ invariant

  /** The file says of some members of the room exactly what the room says of them. */
  predicate Truthful(r: RoomId, file: Policy, room: Room)
  {
    && file.roomId == r && file.expiresAt == room.expiresAt && file.members.Keys <= room.members.Keys
    && (forall p :: p in file.members && p in room.members ==> room.members[p].session == file.members[p])
    && file.muted == room.muted * file.members.Keys
  }

  ghost predicate FilesTrue(s: State)
  {
    forall r :: r in s.policies ==> r in s.rooms && Truthful(r, s.policies[r], s.rooms[r])
  }

  ghost predicate FaultInv(s: State)
  {
    MembersBound(s) && FilesTrue(s) && RoomsSound(s)
  }

  // ------------------------------------------------------ steps, one piece each

  lemma BoundSame(s: State, t: State)
    requires MembersBound(s) && t.users == s.users && t.sessionRooms == s.sessionRooms
    requires forall r, p, sid :: In(t, r, p, sid) <==> In(s, r, p, sid)
    ensures MembersBound(t)
  {
  }

  lemma BoundAdd(s: State, t: State, r: RoomId, p: Participant, sid: SessionId)
    requires MembersBound(s)
    requires sid in s.users && s.users[sid] == p && (sid in s.sessionRooms ==> s.sessionRooms[sid] == r)
    requires t.users == s.users && t.sessionRooms == s.sessionRooms[sid := r]
    requires forall x, q, y :: In(t, x, q, y) <==> In(s, x, q, y) || (x == r && q == p && y == sid)
    ensures MembersBound(t)
  {
  }

  lemma BoundRemove(s: State, t: State, r: RoomId, p: Participant, sid: SessionId)
    requires MembersBound(s) && In(s, r, p, sid)
    requires t.users == s.users && t.sessionRooms == s.sessionRooms - {sid}
    requires forall x, q, y :: In(t, x, q, y) <==> In(s, x, q, y) && !(x == r && q == p)
    ensures MembersBound(t)
  {
  }

  /** Freeing any sessions of an ended room unbinds no member of another. */
  lemma BoundEnd(s: State, t: State, r: RoomId, freed: set<SessionId>)
    requires MembersBound(s) && r in s.rooms && freed <= SessionsOf(s.rooms[r])
    requires t.rooms == s.rooms - {r} && t.users == s.users && t.sessionRooms == s.sessionRooms - freed
    ensures MembersBound(t)
  {
    forall x, q, y | In(t, x, q, y)
      ensures y in t.users && t.users[y] == q && y in t.sessionRooms && t.sessionRooms[y] == x
    {
      assert In(s, x, q, y);
      if p :| p in s.rooms[r].members && s.rooms[r].members[p].session == y {
        assert In(s, r, p, y);
      }
    }
  }

  lemma FilesWritten(s: State, t: State, r: RoomId, writes: bool)
    requires FilesTrue(s) && r in t.rooms && t.policies == s.policies
    requires forall x :: x in s.rooms && x != r ==> x in t.rooms && t.rooms[x] == s.rooms[x]
    ensures FilesTrue(WritePolicy(t, r, writes))
  {
  }

  lemma FilesStand(s: State, t: State, r: RoomId)
    requires FilesTrue(s) && r in t.rooms && t.policies == s.policies
    requires forall x :: x in s.rooms && x != r ==> x in t.rooms && t.rooms[x] == s.rooms[x]
    requires r in s.policies ==> Truthful(r, s.policies[r], t.rooms[r])
    ensures FilesTrue(t)
  {
  }

  lemma FilesFewer(s: State, t: State, r: RoomId)
    requires FilesTrue(s) && t.policies == s.policies - {r}
    requires forall x :: x in s.rooms && x != r ==> x in t.rooms && t.rooms[x] == s.rooms[x]
    ensures FilesTrue(t)
  {
  }

  /** A room whose membership stays the same, with a write or with nothing that a file mentions changed. */
  lemma EditKept(s: State, r: RoomId, room: Room, writes: bool)
    requires FaultInv(s) && r in s.rooms && RoomOk(room, s.nextSerial) && room.members == s.rooms[r].members
    ensures FaultInv(WritePolicy(s.(rooms := s.rooms[r := room]), r, writes))
    ensures room.muted == s.rooms[r].muted && room.expiresAt == s.rooms[r].expiresAt ==>
              FaultInv(s.(rooms := s.rooms[r := room]))
  {
    var t := s.(rooms := s.rooms[r := room]);
    EditBound(s, r, room, writes);
    FilesWritten(s, t, r, writes);
    RoomsChanged(s, r, room);
    if room.muted == s.rooms[r].muted && room.expiresAt == s.rooms[r].expiresAt {
      FilesStand(s, t, r);
    }
  }

  lemma EditBound(s: State, r: RoomId, room: Room, writes: bool)
    requires MembersBound(s) && r in s.rooms && room.members == s.rooms[r].members
    ensures MembersBound(s.(rooms := s.rooms[r := room]))
    ensures MembersBound(WritePolicy(s.(rooms := s.rooms[r := room]), r, writes))
  {
    BoundSame(s, s.(rooms := s.rooms[r := room]));
    BoundSame(s, WritePolicy(s.(rooms := s.rooms[r := room]), r, writes));
  }

  lemma EndKept(s: State, t: State, r: RoomId, freed: set<SessionId>)
    requires FaultInv(s) && r in s.rooms && freed <= SessionsOf(s.rooms[r])
    requires t == s.(rooms := s.rooms - {r}, policies := s.policies - {r}, sessionRooms := s.sessionRooms - freed)
    ensures FaultInv(t)
  {
    BoundEnd(s, t, r, freed);
    FilesFewer(s, t, r);
    SubsetSize(t.rooms.Keys, s.rooms.Keys);
  }

  lemma RemoveKept(s: State, sid: SessionId, r: RoomId, writes: bool)
    requires FaultInv(s) && sid in s.users && r in s.rooms && s.users[sid] != s.rooms[r].initiator
    ensures FaultInv(RemoveMember(s, sid, r, writes).0)
  {
    var p := s.users[sid];
    if In(s, r, p, sid) {
      var room := WithoutMember(s.rooms[r], p);
      var t := s.(rooms := s.rooms[r := room], sessionRooms := s.sessionRooms - {sid});
      WithoutOk(s.rooms[r], p, s.nextSerial);
      BoundRemove(s, WritePolicy(t, r, writes), r, p, sid);
      FilesWritten(s, t, r, writes);
      RoomsChanged(s, r, room);
    }
  }

  // ------------------------------------------------------------------- handlers

  lemma CreateBound(s: State, sid: SessionId, r: RoomId, hash: string, a: string, k: string, writes: bool)
    requires MembersBound(s) && RoomsSound(s) && Create(s, sid, r, hash, a, k, writes).1 == Accepted
    ensures MembersBound(Create(s, sid, r, hash, a, k, writes).0) && RoomsSound(Create(s, sid, r, hash, a, k, writes).0)
  {
    var t := Create(s, sid, r, hash, a, k, writes).0;
    NewRoomOk(s, sid, hash, a, k);
    InAfterCreate(s, t, r, NewRoom(s, sid, hash, a, k), s.users[sid], Member(a, k, sid));
    BoundAdd(s, t, r, s.users[sid], sid);
    RoomsAdded(s, t, r);
  }

  lemma CreateFiles(s: State, sid: SessionId, r: RoomId, hash: string, a: string, k: string, writes: bool)
    requires FilesTrue(s)
    ensures FilesTrue(Create(s, sid, r, hash, a, k, writes).0)
  {
  }

  lemma RefusedKept(s: State, t: State)
    requires MembersBound(s) && RoomsSound(s) && t == s.(policies := t.policies)
    ensures MembersBound(t) && RoomsSound(t)
  {
    BoundSame(s, t);
  }

  lemma CreateKept(s: State, sid: SessionId, r: RoomId, hash: string, a: string, k: string, writes: bool)
    requires FaultInv(s)
    ensures FaultInv(Create(s, sid, r, hash, a, k, writes).0)
  {
    CreateFiles(s, sid, r, hash, a, k, writes);
    if Create(s, sid, r, hash, a, k, writes).1 == Accepted {
      CreateBound(s, sid, r, hash, a, k, writes);
    } else {
      CreateRefused(s, sid, r, hash, a, k, writes);
      RefusedKept(s, Create(s, sid, r, hash, a, k, writes).0);
    }
  }

  lemma JoinedKept(s: State, sid: SessionId, r: RoomId, member: Member, writes: bool)
    requires FaultInv(s) && MayEnter(s, sid, r) && member.session == sid
    ensures
      var t := s.(rooms := s.rooms[r := Joined(s.rooms[r], s.users[sid], member)],
                  sessionRooms := s.sessionRooms[sid := r]);
      FaultInv(WritePolicy(t, r, writes))
  {
    var p := s.users[sid];
    var room := Joined(s.rooms[r], p, member);
    var t := s.(rooms := s.rooms[r := room], sessionRooms := s.sessionRooms[sid := r]);
    JoinedOk(s.rooms[r], p, member, s.nextSerial);
    InAfterJoin(s, WritePolicy(t, r, writes), r, p, member);
    BoundAdd(s, WritePolicy(t, r, writes), r, p, sid);
    FilesWritten(s, t, r, writes);
    RoomsChanged(s, r, room);
  }

  lemma JoinKept(s: State, sid: SessionId, r: RoomId, hash: string, a: string, k: string, writes: bool)
    requires FaultInv(s)
    ensures FaultInv(Join(s, sid, r, hash, a, k, writes).0)
  {
    if Join(s, sid, r, hash, a, k, true).1 == Accepted {
      JoinMayEnter(s, sid, r, hash, a, k);
      JoinedKept(s, sid, r, Member(a, k, sid), writes);
    }
  }

  lemma LeaveKept(s: State, sid: SessionId, r: RoomId, writes: bool)
    requires FaultInv(s)
    ensures FaultInv(Leave(s, sid, r, writes).0)
  {
    if sid in s.users && sid in s.sessionRooms && s.sessionRooms[sid] == r && r in s.rooms {
      if s.users[sid] == s.rooms[r].initiator {
        EndKept(s, EndRoom(s, r), r, SessionsOf(s.rooms[r]));
      } else {
        RemoveKept(s, sid, r, writes);
      }
    }
  }

  lemma DisconnectKept(s: State, sid: SessionId, writes: bool)
    requires FaultInv(s)
    ensures FaultInv(Disconnect(s, sid, writes).0)
  {
    if sid in s.users && sid in s.sessionRooms {
      LeaveKept(s, sid, s.sessionRooms[sid], writes);
    }
  }

  lemma UnmuteKept(s: State, r: RoomId, target: Participant, writes: bool)
    requires FaultInv(s) && r in s.rooms
    ensures FaultInv(Unmuted(s, r, target, writes).0)
  {
    var room := s.rooms[r];
    SubsetSize(room.muted - {target}, room.muted);
    EditKept(s, r, room.(muted := room.muted - {target}, revision := room.revision + 1), writes);
  }

  lemma BlockKept(s: State, r: RoomId, target: Participant)
    requires FaultInv(s) && r in s.rooms && target !in s.rooms[r].members
    requires |s.rooms[r].blocked + {target}| <= MAX_BLOCKED
    ensures FaultInv(s.(rooms := s.rooms[r := s.rooms[r].(blocked := s.rooms[r].blocked + {target})]))
  {
    EditKept(s, r, s.rooms[r].(blocked := s.rooms[r].blocked + {target}), true);
  }

  /** Blocking a member and taking it out, up to the first write. */
  lemma TakenOutKept(s: State, r: RoomId, target: Participant, writes: bool)
    requires FaultInv(s) && r in s.rooms && target in s.rooms[r].members && target != s.rooms[r].initiator
    requires |s.rooms[r].blocked + {target}| <= MAX_BLOCKED
    ensures s.rooms[r].members[target].session in s.users
    ensures
      var room := s.rooms[r];
      var blocked := s.(rooms := s.rooms[r := room.(blocked := room.blocked + {target})]);
      var t := RemoveMember(blocked, room.members[target].session, r, writes).0;
      FaultInv(t) && r in t.rooms
  {
    var sid := s.rooms[r].members[target].session;
    assert In(s, r, target, sid);
    RemoveKept(s, sid, r, writes);
    RemoveThenBlock(s, r, target, sid, writes);
    BlockKept(RemoveMember(s, sid, r, writes).0, r, target);
  }

  lemma RemoveTargetKept(s: State, r: RoomId, target: Participant, first: bool, writes: bool)
    requires FaultInv(s) && r in s.rooms && target != s.rooms[r].initiator
    ensures FaultInv(RemoveTarget(s, r, target, first, writes).0)
  {
    var room := s.rooms[r];
    if |room.blocked| < MAX_BLOCKED || target in room.blocked {
      assert target in room.blocked ==> room.blocked + {target} == room.blocked;
      var blocked := s.(rooms := s.rooms[r := room.(blocked := room.blocked + {target})]);
      if target in room.members {
        TakenOutKept(s, r, target, first);
        UnmuteKept(RemoveMember(blocked, room.members[target].session, r, first).0, r, target, writes);
      } else {
        BlockKept(s, r, target);
        UnmuteKept(blocked, r, target, writes);
      }
    }
  }

  lemma ReadmitKept(s: State, r: RoomId, target: Participant, writes: bool)
    requires FaultInv(s) && r in s.rooms
    ensures FaultInv(Readmitted(s, r, target, writes).0)
  {
    var room := s.rooms[r];
    SubsetSize(room.blocked - {target}, room.blocked);
    EditKept(s, r, room.(blocked := room.blocked - {target}, revision := room.revision + 1), writes);
  }

  lemma MuteKept(s: State, r: RoomId, target: Participant, writes: bool)
    requires FaultInv(s) && r in s.rooms
    ensures FaultInv(Muted(s, r, target, writes).0)
  {
    var room := s.rooms[r];
    if |room.muted| < MAX_MUTED || target in room.muted {
      assert target in room.muted ==> room.muted + {target} == room.muted;
      EditKept(s, r, room.(muted := room.muted + {target}, revision := room.revision + 1), writes);
    }
  }

  lemma ModerateKept(s: State, sid: SessionId, r: RoomId, target: Participant, op: Moderation,
                     first: bool, writes: bool)
    requires FaultInv(s)
    ensures FaultInv(Moderate(s, sid, r, target, op, first, writes).0)
  {
    if IsActiveHost(s, sid, r) && target != s.users[sid] {
      match op
      case Readmit => ReadmitKept(s, r, target, writes);
      case Remove => RemoveTargetKept(s, r, target, first, writes);
      case AllowMic => UnmuteKept(s, r, target, writes);
      case Mute => MuteKept(s, r, target, writes);
    }
  }

  lemma ScreenKept(s: State, sid: SessionId, r: RoomId, request: ScreenRequest, share: string)
    requires FaultInv(s)
    ensures FaultInv(ScreenControl(s, sid, r, request, share).0)
  {
    if !ScreenControl(s, sid, r, request, share).1.Refused? {
      ScreenNextOk(s.rooms[r], s.users[sid], request, share, s.mono, s.nextSerial);
      EditKept(s, r, ScreenNext(s.rooms[r], s.users[sid], request, share, s.mono).0, true);
    }
  }

  lemma ExpireScreenKept(s: State, r: RoomId, share: string)
    requires FaultInv(s)
    ensures FaultInv(ExpireScreen(s, r, share))
  {
    if r in s.rooms {
      EditKept(s, r, ClearScreen(s.rooms[r]), true);
    }
  }

  lemma AuthenticateKept(s: State, sid: SessionId, user: Participant)
    requires FaultInv(s) && sid !in s.users
    ensures FaultInv(s.(users := s.users[sid := user]))
  {
    var t := s.(users := s.users[sid := user]);
    forall r, p, x | In(t, r, p, x)
      ensures x in t.users && t.users[x] == p && x in t.sessionRooms && t.sessionRooms[x] == r
    {
      assert In(s, r, p, x);
    }
  }

  lemma ComeKept(s: State, e: Coming)
    requires FaultInv(s)
    ensures FaultInv(Come(s, e))
  {
    match e
    case DoCreate(sid, r, hash, a, k, writes) => CreateKept(s, sid, r, hash, a, k, writes);
    case DoJoin(sid, r, hash, a, k, writes) => JoinKept(s, sid, r, hash, a, k, writes);
  }

  lemma GoKept(s: State, e: Going)
    requires FaultInv(s)
    ensures FaultInv(Go(s, e))
  {
    match e
    case DoLeave(sid, r, writes) => LeaveKept(s, sid, r, writes);
    case DoDisconnect(sid, writes) => DisconnectKept(s, sid, writes);
    case DoExpireRoom(r) => if r in s.rooms { EndKept(s, EndRoom(s, r), r, SessionsOf(s.rooms[r])); }
  }

  lemma EventKept(s: State, e: Event)
    requires FaultInv(s) && Enabled(s, e)
    ensures FaultInv(Apply(s, e))
  {
    match e
    case Comes(c) => ComeKept(s, c);
    case Goes(g) => GoKept(s, g);
    case DoModerate(sid, r, target, op, first, writes) => ModerateKept(s, sid, r, target, op, first, writes);
    case DoScreen(sid, r, request, share) => ScreenKept(s, sid, r, request, share);
    case DoExpireScreen(r, share) => ExpireScreenKept(s, r, share);
    case Authenticate(sid, user) => AuthenticateKept(s, sid, user);
    case Tick(now, mono) => BoundSame(s, s.(now := now, mono := mono));
  }

  // --------------------------------------------------------------------- faults

  lemma CreateUnsavedKept(s: State, sid: SessionId, r: RoomId, hash: string, a: string, k: string)
    requires FaultInv(s) && Create(s, sid, r, hash, a, k, true).1 == Accepted
    ensures FaultInv(UnsavedCreate(s, sid, r, hash, a, k))
  {
    CreateBound(s, sid, r, hash, a, k, true);
    CreatedRooms(s, sid, r, hash, a, k);
    RefusedKept(Create(s, sid, r, hash, a, k, true).0, UnsavedCreate(s, sid, r, hash, a, k));
    FilesStand(s, UnsavedCreate(s, sid, r, hash, a, k), r);
  }

  lemma JoinUnsavedKept(s: State, sid: SessionId, r: RoomId, hash: string, a: string, k: string)
    requires FaultInv(s) && Join(s, sid, r, hash, a, k, true).1 == Accepted
    ensures FaultInv(UnsavedJoin(s, sid, r, a, k))
  {
    JoinMayEnter(s, sid, r, hash, a, k);
    var t := UnsavedJoin(s, sid, r, a, k);
    var p := s.users[sid];
    EnteredOk(s.rooms[r], p, Member(a, k, sid), s.nextSerial);
    EnteredIn(s, t, r, p, Member(a, k, sid));
    BoundAdd(s, t, r, p, sid);
    FilesStand(s, t, r);
    RoomsChanged(s, r, t.rooms[r]);
  }

  lemma FaultKept(s: State, f: Fault)
    requires FaultInv(s) && FaultEnabled(s, f)
    ensures FaultInv(FaultApply(s, f))
  {
    match f
    case CreateUnsaved(sid, r, hash, a, k) => CreateUnsavedKept(s, sid, r, hash, a, k);
    case JoinUnsaved(sid, r, hash, a, k) => JoinUnsavedKept(s, sid, r, hash, a, k);
    case RemoveUnsaved(_, r, target) => TakenOutKept(s, r, target, true);
    case EndUnsaved(r, left) =>
      var room := s.rooms[r];
      EndKept(s, UnsavedEnd(s, r, left), r, set p | p in room.members && p !in left :: room.members[p].session);
  }

  lemma StepKept(s: State, e: Step)
    requires FaultInv(s) && StepEnabled(s, e)
    ensures FaultInv(StepApply(s, e))
  {
    match e
    case Done(event) => EventKept(s, event);
    case Faulty(f) => FaultKept(s, f);
  }

  lemma {:induction false} FaultyRunKeeps(s: State, run: seq<Step>)
    requires FaultInv(s) && IsFaultyRun(s, run)
    ensures FaultInv(AfterFaults(s, run))
    decreases |run|
  {
    if run != [] {
      StepKept(s, run[0]);
      FaultyRunKeeps(StepApply(s, run[0]), run[1..]);
    }
  }

  // ------------------------------------------------------------------- theorems

  /** In every run, whichever sessions fail to be saved, a session that a policy file lists is in the room. */
  lemma ListedIsMember(run: seq<Step>, r: RoomId, p: Participant, sid: SessionId)
    requires IsFaultyRun(INITIAL, run) && Listed(AfterFaults(INITIAL, run), r, p, sid)
    ensures In(AfterFaults(INITIAL, run), r, p, sid)
  {
    FaultyRunKeeps(INITIAL, run);
  }

  lemma FirstStep(s: State, e: Step, rest: seq<Step>)
    requires StepEnabled(s, e) && IsFaultyRun(StepApply(s, e), rest)
    ensures IsFaultyRun(s, [e] + rest) && AfterFaults(s, [e] + rest) == AfterFaults(StepApply(s, e), rest)
  {
    assert ([e] + rest)[0] == e && ([e] + rest)[1..] == rest;
  }

  /** One account creates a room and another's join is interrupted. */
  function InterruptedJoin(host: SessionId, guest: SessionId, r: RoomId): seq<Step>
  {
    [Done(Comes(DoCreate(host, r, "", "", "", true)))] + ([Faulty(JoinUnsaved(guest, r, "", "", ""))] + [])
  }

  /** The same after the two accounts have signed in. */
  function InterruptedCall(host: (SessionId, Participant), guest: (SessionId, Participant), r: RoomId): seq<Step>
  {
    [Done(Authenticate(host.0, host.1))]
    + ([Done(Authenticate(guest.0, guest.1))] + InterruptedJoin(host.0, guest.0, r))
  }

  /** This run ends in a state in which the full room invariant does not hold, for any two accounts. */
  lemma FaultBreaksInv(host: (SessionId, Participant), guest: (SessionId, Participant), r: RoomId)
    requires host.0 != guest.0 && host.1 != guest.1 && SafeId(host.1) && SafeId(guest.1)
    ensures IsFaultyRun(INITIAL, InterruptedCall(host, guest, r))
    ensures !Inv(AfterFaults(INITIAL, InterruptedCall(host, guest, r)))
  {
    var s, rest := INITIAL.(users := map[host.0 := host.1]), InterruptedJoin(host.0, guest.0, r);
    GuestInterrupted(s.(users := s.users[guest.0 := guest.1]), host, guest, r);
    SignIn(s, guest.0, guest.1, rest);
    SignIn(INITIAL, host.0, host.1, [Done(Authenticate(guest.0, guest.1))] + rest);
  }

  lemma SignIn(s: State, sid: SessionId, p: Participant, rest: seq<Step>)
    requires sid !in s.users && IsFaultyRun(s.(users := s.users[sid := p]), rest)
    ensures
      var run := [Done(Authenticate(sid, p))] + rest;
      IsFaultyRun(s, run) && AfterFaults(s, run) == AfterFaults(s.(users := s.users[sid := p]), rest)
  {
    FirstStep(s, Done(Authenticate(sid, p)), rest);
  }

  lemma GuestInterrupted(t: State, host: (SessionId, Participant), guest: (SessionId, Participant), r: RoomId)
    requires t == INITIAL.(users := map[host.0 := host.1][guest.0 := guest.1])
    requires host.0 != guest.0 && host.1 != guest.1 && SafeId(host.1) && SafeId(guest.1)
    ensures IsFaultyRun(t, InterruptedJoin(host.0, guest.0, r))
    ensures !Inv(AfterFaults(t, InterruptedJoin(host.0, guest.0, r)))
  {
    var create := Done(Comes(DoCreate(host.0, r, "", "", "", true)));
    var join := Faulty(JoinUnsaved(guest.0, r, "", "", ""));
    BrokenByJoin(t, host, guest, r);
    FirstStep(StepApply(t, create), join, []);
    FirstStep(t, create, [join] + []);
  }

  lemma BrokenByJoin(t: State, host: (SessionId, Participant), guest: (SessionId, Participant), r: RoomId)
    requires t == INITIAL.(users := map[host.0 := host.1][guest.0 := guest.1])
    requires host.0 != guest.0 && host.1 != guest.1 && SafeId(host.1) && SafeId(guest.1)
    ensures
      var u := StepApply(t, Done(Comes(DoCreate(host.0, r, "", "", "", true))));
      var join := Faulty(JoinUnsaved(guest.0, r, "", "", ""));
      StepEnabled(u, join) && !Inv(StepApply(u, join))
  {
    SignedInSound(t);
    CreateKeeps(t, host.0, r, "", "", "", true);
    GuestMayJoin(t, host, guest, r);
    InterruptedJoinExactly(Create(t, host.0, r, "", "", "", true).0, guest.0, r, "", "", "");
  }

  lemma SignedInSound(s: State)
    requires s == INITIAL.(users := s.users)
    ensures Inv(s)
  {
  }

  lemma GuestMayJoin(s: State, host: (SessionId, Participant), guest: (SessionId, Participant), r: RoomId)
    requires s == INITIAL.(users := map[host.0 := host.1][guest.0 := guest.1])
    requires host.0 != guest.0 && host.1 != guest.1 && SafeId(host.1) && SafeId(guest.1)
    ensures
      var t := Create(s, host.0, r, "", "", "", true).0;
      && Join(t, guest.0, r, "", "", "", true).1 == Accepted
      && guest.1 !in t.rooms[r].members && r in t.policies
  {
    var t := Create(s, host.0, r, "", "", "", true).0;
    assert t.rooms[r].members.Keys == {host.1};
  }

  /** The host's event by which a block or a mute of `x` in `r` may be lifted. */
  predicate StepLifts(s: State, e: Step, r: RoomId, x: Participant, ops: set<Moderation>)
  {
    e.Done? && Lifts(s, e.event, r, x, ops)
  }

  lemma FaultLiftsNothing(s: State, f: Fault, r: RoomId)
    requires MembersBound(s) && FaultEnabled(s, f) && r in s.rooms && r in FaultApply(s, f).rooms
    ensures s.rooms[r].blocked <= FaultApply(s, f).rooms[r].blocked
    ensures s.rooms[r].muted <= FaultApply(s, f).rooms[r].muted
  {
    match f
    case CreateUnsaved(sid, x, hash, a, k) => CreatedRooms(s, sid, x, hash, a, k);
    case JoinUnsaved(_, _, _, _, _) =>
    case RemoveUnsaved(_, x, target) =>
      assert In(s, x, target, s.rooms[x].members[target].session);
    case EndUnsaved(_, _) =>
  }

  /** A block outlasts every step, faulty ones included, but the host's readmission, and keeps the account out. */
  lemma BlockStays(s: State, e: Step, r: RoomId, x: Participant)
    requires FaultInv(s) && StepEnabled(s, e) && r in s.rooms && x in s.rooms[r].blocked
    requires r in StepApply(s, e).rooms && !StepLifts(s, e, r, x, {Readmit})
    ensures x in StepApply(s, e).rooms[r].blocked && x !in StepApply(s, e).rooms[r].members
  {
    match e {
      case Done(event) => StepEvolves(s, event, r);
      case Faulty(f) => FaultLiftsNothing(s, f, r);
    }
    StepKept(s, e);
    assert RoomOk(StepApply(s, e).rooms[r], StepApply(s, e).nextSerial);
  }

  lemma MuteStays(s: State, e: Step, r: RoomId, x: Participant)
    requires FaultInv(s) && StepEnabled(s, e) && r in s.rooms && x in s.rooms[r].muted
    requires r in StepApply(s, e).rooms && !StepLifts(s, e, r, x, {AllowMic, Remove})
    ensures x in StepApply(s, e).rooms[r].muted
  {
    match e
    case Done(event) => StepEvolves(s, event, r);
    case Faulty(f) => FaultLiftsNothing(s, f, r);
  }
}
