/** What every run of the call service keeps, and what it promises over time. */
module CallSafety {
  import opened Collections
  import opened CallRooms

  // ------------------------------------------------------------------- invariant

  ghost predicate RoomOk(room: Room, nextSerial: nat)
  {
    && room.serial < nextSerial
    && room.initiator in room.members
    && room.blocked !! room.members.Keys
    && (room.screenOwner == "" || room.screenOwner in room.members)
    && (room.screenOwner == "" <==> room.screenId == "")
    && |room.members| <= MAX_PARTICIPANTS
    && |room.blocked| <= MAX_BLOCKED
    && |room.muted| <= MAX_MUTED
    && "" !in room.members
  }

  /** Account `p` is in room `r` with session `sid`. */
  predicate In(s: State, r: RoomId, p: Participant, sid: SessionId)
  {
    r in s.rooms && p in s.rooms[r].members && s.rooms[r].members[p].session == sid
  }

  /** The session map and room membership are inverse to each other. */
  ghost predicate SessionsSound(s: State)
  {
    && (forall sid :: sid in s.sessionRooms ==> sid in s.users && In(s, s.sessionRooms[sid], s.users[sid], sid))
    && MembersBound(s)
  }

  /** Every member is there by a session of its own account, which is bound to that room. */
  ghost predicate MembersBound(s: State)
  {
    forall r, p, sid :: In(s, r, p, sid) ==>
      sid in s.users && s.users[sid] == p && sid in s.sessionRooms && s.sessionRooms[sid] == r
  }

  /** A policy file is absent or says exactly who is in the room and who is muted. */
  ghost predicate PoliciesSound(s: State)
  {
    forall r :: r in s.policies ==> r in s.rooms && s.policies[r] == PolicyOf(r, s.rooms[r])
  }

  ghost predicate RoomsSound(s: State)
  {
    |s.rooms| <= MAX_ROOMS && forall r :: r in s.rooms ==> RoomOk(s.rooms[r], s.nextSerial)
  }

  ghost predicate Inv(s: State)
  {
    SessionsSound(s) && PoliciesSound(s) && RoomsSound(s)
  }

  // ------------------------------------------------------ steps, one piece each

  /** Membership is the same as before. */
  lemma SessionsSame(s: State, t: State)
    requires SessionsSound(s)
    requires t.users == s.users && t.sessionRooms == s.sessionRooms
    requires forall r, p, sid :: In(t, r, p, sid) <==> In(s, r, p, sid)
    ensures SessionsSound(t)
  {
  }

  lemma SessionsAdd(s: State, t: State, r: RoomId, p: Participant, sid: SessionId)
    requires SessionsSound(s)
    requires sid in s.users && s.users[sid] == p && (sid in s.sessionRooms ==> s.sessionRooms[sid] == r)
    requires t.users == s.users && t.sessionRooms == s.sessionRooms[sid := r]
    requires forall x, q, y :: In(t, x, q, y) <==> In(s, x, q, y) || (x == r && q == p && y == sid)
    ensures SessionsSound(t)
  {
  }

  lemma SessionsRemove(s: State, t: State, r: RoomId, p: Participant, sid: SessionId)
    requires SessionsSound(s) && In(s, r, p, sid)
    requires t.users == s.users && t.sessionRooms == s.sessionRooms - {sid}
    requires forall x, q, y :: In(t, x, q, y) <==> In(s, x, q, y) && !(x == r && q == p)
    ensures SessionsSound(t)
  {
  }

  lemma SessionsEnd(s: State, r: RoomId)
    requires SessionsSound(s) && r in s.rooms
    ensures SessionsSound(EndRoom(s, r))
  {
    var t := EndRoom(s, r);
    var room := s.rooms[r];
    forall x, q, y | In(t, x, q, y)
      ensures y in t.users && t.users[y] == q && y in t.sessionRooms && t.sessionRooms[y] == x
    {
      assert In(s, x, q, y);
      if p :| p in room.members && room.members[p].session == y {
        assert In(s, r, p, y);
      }
    }
    forall y | y in t.sessionRooms
      ensures In(t, t.sessionRooms[y], t.users[y], y)
    {
      assert In(s, s.sessionRooms[y], s.users[y], y);
    }
  }

  lemma PoliciesWritten(s: State, t: State, r: RoomId, writes: bool)
    requires PoliciesSound(s) && r in t.rooms
    requires forall x :: x in s.rooms && x != r ==> x in t.rooms && t.rooms[x] == s.rooms[x]
    requires t.policies == s.policies
    ensures PoliciesSound(WritePolicy(t, r, writes))
  {
  }

  lemma RoomsChanged(s: State, r: RoomId, room: Room)
    requires RoomsSound(s) && r in s.rooms && RoomOk(room, s.nextSerial)
    ensures RoomsSound(s.(rooms := s.rooms[r := room]))
  {
    assert s.rooms[r := room].Keys == s.rooms.Keys;
  }

  // ------------------------------------------------------------- steps on one room

  /** A room whose membership stays the same, written out or not. */
  lemma RoomEdited(s: State, r: RoomId, room: Room, writes: bool)
    requires Inv(s) && r in s.rooms && RoomOk(room, s.nextSerial)
    requires room.members == s.rooms[r].members
    ensures Inv(WritePolicy(s.(rooms := s.rooms[r := room]), r, writes))
    ensures PolicyOf(r, room) == PolicyOf(r, s.rooms[r]) ==> Inv(s.(rooms := s.rooms[r := room]))
  {
    var t := s.(rooms := s.rooms[r := room]);
    PoliciesWritten(s, t, r, writes);
    RoomsChanged(s, r, room);
    EditedSessions(s, r, room, writes);
    if PolicyOf(r, room) == PolicyOf(r, s.rooms[r]) {
      PoliciesUntouched(s, r, room);
    }
  }

  lemma EditedSessions(s: State, r: RoomId, room: Room, writes: bool)
    requires SessionsSound(s) && r in s.rooms && room.members == s.rooms[r].members
    ensures SessionsSound(s.(rooms := s.rooms[r := room]))
    ensures SessionsSound(WritePolicy(s.(rooms := s.rooms[r := room]), r, writes))
  {
    var t := s.(rooms := s.rooms[r := room]);
    SessionsSame(s, t);
    SessionsSame(s, WritePolicy(t, r, writes));
  }

  lemma PoliciesUntouched(s: State, r: RoomId, room: Room)
    requires PoliciesSound(s) && r in s.rooms && PolicyOf(r, room) == PolicyOf(r, s.rooms[r])
    ensures PoliciesSound(s.(rooms := s.rooms[r := room]))
  {
  }

  lemma JoinedOk(room: Room, p: Participant, member: Member, nextSerial: nat)
    requires RoomOk(room, nextSerial) && p !in room.blocked && p != ""
    requires p in room.members || |room.members| < MAX_PARTICIPANTS
    ensures RoomOk(Joined(room, p, member), nextSerial)
  {
    assert Joined(room, p, member).members.Keys == room.members.Keys + {p};
  }

  lemma MemberAdded(s: State, sid: SessionId, r: RoomId, member: Member, writes: bool)
    requires Inv(s) && r in s.rooms && sid in s.users && member.session == sid
    requires RoomOk(Joined(s.rooms[r], s.users[sid], member), s.nextSerial)
    requires sid in s.sessionRooms ==> s.sessionRooms[sid] == r
    requires s.users[sid] in s.rooms[r].members ==> s.rooms[r].members[s.users[sid]].session == sid
    ensures var t := s.(rooms := s.rooms[r := Joined(s.rooms[r], s.users[sid], member)],
                        sessionRooms := s.sessionRooms[sid := r]);
            Inv(WritePolicy(t, r, writes))
  {
    var t := s.(rooms := s.rooms[r := Joined(s.rooms[r], s.users[sid], member)],
                sessionRooms := s.sessionRooms[sid := r]);
    InAfterJoin(s, WritePolicy(t, r, writes), r, s.users[sid], member);
    SessionsAdd(s, WritePolicy(t, r, writes), r, s.users[sid], sid);
    PoliciesWritten(s, t, r, writes);
    RoomsChanged(s, r, t.rooms[r]);
  }

  lemma InAfterJoin(s: State, t: State, r: RoomId, p: Participant, member: Member)
    requires r in s.rooms && t.rooms == s.rooms[r := Joined(s.rooms[r], p, member)]
    requires p in s.rooms[r].members ==> s.rooms[r].members[p].session == member.session
    ensures forall x, q, y :: In(t, x, q, y) <==> In(s, x, q, y) || (x == r && q == p && y == member.session)
  {
  }

  lemma InAfterCreate(s: State, t: State, r: RoomId, room: Room, p: Participant, member: Member)
    requires r !in s.rooms && t.rooms == s.rooms[r := room] && room.members == map[p := member]
    ensures forall x, q, y :: In(t, x, q, y) <==> In(s, x, q, y) || (x == r && q == p && y == member.session)
  {
  }

  lemma WithoutOk(room: Room, p: Participant, nextSerial: nat)
    requires RoomOk(room, nextSerial) && p in room.members && p != room.initiator
    ensures RoomOk(WithoutMember(room, p), nextSerial)
  {
    assert WithoutMember(room, p).members.Keys == room.members.Keys - {p};
  }

  lemma MemberRemoved(s: State, sid: SessionId, r: RoomId, writes: bool)
    requires Inv(s) && sid in s.users && In(s, r, s.users[sid], sid) && s.users[sid] != s.rooms[r].initiator
    ensures Inv(RemoveMember(s, sid, r, writes).0)
  {
    var p := s.users[sid];
    var t := s.(rooms := s.rooms[r := WithoutMember(s.rooms[r], p)], sessionRooms := s.sessionRooms - {sid});
    WithoutOk(s.rooms[r], p, s.nextSerial);
    SessionsRemove(s, WritePolicy(t, r, writes), r, p, sid);
    PoliciesWritten(s, t, r, writes);
    RoomsChanged(s, r, t.rooms[r]);
  }

  lemma RoomEnded(s: State, r: RoomId)
    requires Inv(s) && r in s.rooms
    ensures Inv(EndRoom(s, r))
  {
    SubsetSize(EndRoom(s, r).rooms.Keys, s.rooms.Keys);
    SessionsEnd(s, r);
  }

  // ------------------------------------------------------------------- handlers

  lemma NewRoomOk(s: State, sid: SessionId, hash: string, a: string, k: string)
    requires sid in s.users && SafeId(s.users[sid])
    ensures RoomOk(NewRoom(s, sid, hash, a, k), s.nextSerial + 1)
  {
    var p := s.users[sid];
    assert NewRoom(s, sid, hash, a, k).members.Keys == {p};
  }

  lemma RoomsAdded(s: State, t: State, r: RoomId)
    requires RoomsSound(s) && r !in s.rooms && |s.rooms| < MAX_ROOMS && r in t.rooms
    requires t.rooms == s.rooms[r := t.rooms[r]] && t.nextSerial == s.nextSerial + 1 && RoomOk(t.rooms[r], t.nextSerial)
    ensures RoomsSound(t)
  {
    assert t.rooms.Keys == s.rooms.Keys + {r};
    forall x | x in t.rooms
      ensures RoomOk(t.rooms[x], t.nextSerial)
    {
      if x != r {
        assert RoomOk(s.rooms[x], s.nextSerial);
      }
    }
  }

  lemma CreatePolicies(s: State, sid: SessionId, r: RoomId, hash: string, a: string, k: string, writes: bool)
    requires PoliciesSound(s)
    ensures PoliciesSound(Create(s, sid, r, hash, a, k, writes).0)
  {
  }

  lemma CreateRefused(s: State, sid: SessionId, r: RoomId, hash: string, a: string, k: string, writes: bool)
    requires Create(s, sid, r, hash, a, k, writes).1 != Accepted
    ensures Create(s, sid, r, hash, a, k, writes).0 == s.(policies := Create(s, sid, r, hash, a, k, writes).0.policies)
  {
  }

  lemma CreateAccepted(s: State, sid: SessionId, r: RoomId, hash: string, a: string, k: string, writes: bool)
    requires Inv(s) && Create(s, sid, r, hash, a, k, writes).1 == Accepted
    ensures SessionsSound(Create(s, sid, r, hash, a, k, writes).0)
    ensures RoomsSound(Create(s, sid, r, hash, a, k, writes).0)
  {
    var t := Create(s, sid, r, hash, a, k, writes).0;
    NewRoomOk(s, sid, hash, a, k);
    InAfterCreate(s, t, r, NewRoom(s, sid, hash, a, k), s.users[sid], Member(a, k, sid));
    SessionsAdd(s, t, r, s.users[sid], sid);
    RoomsAdded(s, t, r);
  }

  lemma OnlyPolicies(s: State, t: State)
    requires SessionsSound(s) && RoomsSound(s) && t == s.(policies := t.policies)
    ensures SessionsSound(t) && RoomsSound(t)
  {
    SessionsSame(s, t);
  }

  lemma CreateKeeps(s: State, sid: SessionId, r: RoomId, hash: string, a: string, k: string, writes: bool)
    requires Inv(s)
    ensures Inv(Create(s, sid, r, hash, a, k, writes).0)
  {
    CreatePolicies(s, sid, r, hash, a, k, writes);
    if Create(s, sid, r, hash, a, k, writes).1 == Accepted {
      CreateAccepted(s, sid, r, hash, a, k, writes);
    } else {
      CreateRefused(s, sid, r, hash, a, k, writes);
      OnlyPolicies(s, Create(s, sid, r, hash, a, k, writes).0);
    }
  }

  lemma JoinKeeps(s: State, sid: SessionId, r: RoomId, hash: string, a: string, k: string, writes: bool)
    requires Inv(s)
    ensures Inv(Join(s, sid, r, hash, a, k, writes).0)
  {
    if Join(s, sid, r, hash, a, k, writes).0 != s {
      JoinedOk(s.rooms[r], s.users[sid], Member(a, k, sid), s.nextSerial);
      MemberAdded(s, sid, r, Member(a, k, sid), writes);
    }
  }

  lemma LeaveKeeps(s: State, sid: SessionId, r: RoomId, writes: bool)
    requires Inv(s)
    ensures Inv(Leave(s, sid, r, writes).0)
  {
    if sid in s.users && sid in s.sessionRooms && s.sessionRooms[sid] == r && r in s.rooms {
      if s.users[sid] == s.rooms[r].initiator {
        RoomEnded(s, r);
      } else {
        MemberRemoved(s, sid, r, writes);
      }
    }
  }

  lemma DisconnectKeeps(s: State, sid: SessionId, writes: bool)
    requires Inv(s)
    ensures Inv(Disconnect(s, sid, writes).0)
  {
    if sid in s.users && sid in s.sessionRooms {
      LeaveKeeps(s, sid, s.sessionRooms[sid], writes);
    }
  }

  lemma UnmutedKeeps(s: State, r: RoomId, target: Participant, writes: bool)
    requires Inv(s) && r in s.rooms
    ensures Inv(Unmuted(s, r, target, writes).0)
  {
    var room := s.rooms[r];
    SubsetSize(room.muted - {target}, room.muted);
    RoomEdited(s, r, room.(muted := room.muted - {target}, revision := room.revision + 1), writes);
  }

  /** Taking the target out and then blocking it gives the same state as the code's other order. */
  lemma RemoveThenBlock(s: State, r: RoomId, target: Participant, sid: SessionId, writes: bool)
    requires In(s, r, target, sid) && sid in s.users && s.users[sid] == target
    ensures var room := s.rooms[r];
            var blocked := s.(rooms := s.rooms[r := room.(blocked := room.blocked + {target})]);
            var t := RemoveMember(s, sid, r, writes).0;
            && r in t.rooms
            && RemoveMember(blocked, sid, r, writes).0 ==
                 t.(rooms := t.rooms[r := t.rooms[r].(blocked := room.blocked + {target})])
            && t.rooms[r].blocked == room.blocked && t.rooms[r].members == room.members - {target}
  {
  }

  lemma BlockKeeps(s: State, r: RoomId, target: Participant)
    requires Inv(s) && r in s.rooms && target !in s.rooms[r].members
    requires |s.rooms[r].blocked + {target}| <= MAX_BLOCKED
    ensures Inv(s.(rooms := s.rooms[r := s.rooms[r].(blocked := s.rooms[r].blocked + {target})]))
  {
    RoomEdited(s, r, s.rooms[r].(blocked := s.rooms[r].blocked + {target}), true);
  }

  lemma RemoveTargetKeeps(s: State, r: RoomId, target: Participant, firstWrite: bool, writes: bool)
    requires Inv(s) && r in s.rooms && target != s.rooms[r].initiator
    ensures Inv(RemoveTarget(s, r, target, firstWrite, writes).0)
  {
    var room := s.rooms[r];
    if |room.blocked| < MAX_BLOCKED || target in room.blocked {
      assert target in room.blocked ==> room.blocked + {target} == room.blocked;
      var blocked := s.(rooms := s.rooms[r := room.(blocked := room.blocked + {target})]);
      if target in room.members {
        var sid := room.members[target].session;
        assert In(s, r, target, sid);
        MemberRemoved(s, sid, r, firstWrite);
        RemoveThenBlock(s, r, target, sid, firstWrite);
        BlockKeeps(RemoveMember(s, sid, r, firstWrite).0, r, target);
        UnmutedKeeps(RemoveMember(blocked, sid, r, firstWrite).0, r, target, writes);
      } else {
        BlockKeeps(s, r, target);
        UnmutedKeeps(blocked, r, target, writes);
      }
    }
  }

  lemma ModerateKeeps(s: State, sid: SessionId, r: RoomId, target: Participant, op: Moderation, first: bool,
                      writes: bool)
    requires Inv(s)
    ensures Inv(Moderate(s, sid, r, target, op, first, writes).0)
  {
    if IsActiveHost(s, sid, r) && target != s.users[sid] {
      match op
      case Readmit => ReadmitKeeps(s, r, target, writes);
      case Remove => RemoveTargetKeeps(s, r, target, first, writes);
      case AllowMic => UnmutedKeeps(s, r, target, writes);
      case Mute => MuteKeeps(s, r, target, writes);
    }
  }

  lemma ReadmitKeeps(s: State, r: RoomId, target: Participant, writes: bool)
    requires Inv(s) && r in s.rooms
    ensures Inv(Readmitted(s, r, target, writes).0)
  {
    var room := s.rooms[r];
    SubsetSize(room.blocked - {target}, room.blocked);
    RoomEdited(s, r, room.(blocked := room.blocked - {target}, revision := room.revision + 1), writes);
  }

  lemma MuteKeeps(s: State, r: RoomId, target: Participant, writes: bool)
    requires Inv(s) && r in s.rooms
    ensures Inv(Muted(s, r, target, writes).0)
  {
    var room := s.rooms[r];
    if |room.muted| < MAX_MUTED || target in room.muted {
      assert target in room.muted ==> room.muted + {target} == room.muted;
      RoomEdited(s, r, room.(muted := room.muted + {target}, revision := room.revision + 1), writes);
    }
  }

  /** Two rooms that differ in who presents, and in nothing else. */
  predicate SameButScreen(a: Room, b: Room)
  {
    b == a.(screenOwner := b.screenOwner, screenId := b.screenId,
            screenRevision := b.screenRevision, screenExpires := b.screenExpires)
  }

  lemma ScreenNextOk(room: Room, p: Participant, request: ScreenRequest, share: string, mono: int, nextSerial: nat)
    requires RoomOk(room, nextSerial) && p in room.members && share != ""
    ensures RoomOk(ScreenNext(room, p, request, share, mono).0, nextSerial)
    ensures SameButScreen(room, ScreenNext(room, p, request, share, mono).0)
  {
  }

  /** Presenting touches nothing that a policy mentions. */
  lemma ScreenKeeps(s: State, sid: SessionId, r: RoomId, request: ScreenRequest, share: string)
    requires Inv(s)
    ensures Inv(ScreenControl(s, sid, r, request, share).0)
  {
    if !ScreenControl(s, sid, r, request, share).1.Refused? {
      ScreenNextOk(s.rooms[r], s.users[sid], request, share, s.mono, s.nextSerial);
      RoomEdited(s, r, ScreenNext(s.rooms[r], s.users[sid], request, share, s.mono).0, true);
    }
  }

  lemma ExpireScreenKeeps(s: State, r: RoomId, share: string)
    requires Inv(s)
    ensures Inv(ExpireScreen(s, r, share))
  {
    if r in s.rooms {
      RoomEdited(s, r, ClearScreen(s.rooms[r]), true);
    }
  }

  lemma AuthenticateKeeps(s: State, sid: SessionId, user: Participant)
    requires Inv(s) && sid !in s.users
    ensures Inv(s.(users := s.users[sid := user]))
  {
    var t := s.(users := s.users[sid := user]);
    forall r, p, x | In(t, r, p, x)
      ensures x in t.users && t.users[x] == p && x in t.sessionRooms && t.sessionRooms[x] == r
    {
      assert In(s, r, p, x);
    }
    forall x | x in t.sessionRooms
      ensures x in t.users && In(t, t.sessionRooms[x], t.users[x], x)
    {
      assert In(s, s.sessionRooms[x], s.users[x], x);
    }
  }

  lemma ComeKeeps(s: State, e: Coming)
    requires Inv(s)
    ensures Inv(Come(s, e))
  {
    match e
    case DoCreate(sid, r, hash, a, k, writes) => CreateKeeps(s, sid, r, hash, a, k, writes);
    case DoJoin(sid, r, hash, a, k, writes) => JoinKeeps(s, sid, r, hash, a, k, writes);
  }

  lemma GoKeeps(s: State, e: Going)
    requires Inv(s)
    ensures Inv(Go(s, e))
  {
    match e
    case DoLeave(sid, r, writes) => LeaveKeeps(s, sid, r, writes);
    case DoDisconnect(sid, writes) => DisconnectKeeps(s, sid, writes);
    case DoExpireRoom(r) => if r in s.rooms { RoomEnded(s, r); }
  }

  lemma StepKeeps(s: State, e: Event)
    requires Inv(s) && Enabled(s, e)
    ensures Inv(Apply(s, e))
  {
    match e
    case Comes(c) => ComeKeeps(s, c);
    case Goes(g) => GoKeeps(s, g);
    case DoModerate(sid, r, target, op, first, writes) => ModerateKeeps(s, sid, r, target, op, first, writes);
    case DoScreen(sid, r, request, share) => ScreenKeeps(s, sid, r, request, share);
    case DoExpireScreen(r, share) => ExpireScreenKeeps(s, r, share);
    case Authenticate(sid, user) => AuthenticateKeeps(s, sid, user);
    case Tick(now, mono) => SessionsSame(s, s.(now := now, mono := mono));
  }

  lemma {:induction false} RunKeeps(s: State, run: seq<Event>)
    requires Inv(s) && IsRun(s, run)
    ensures Inv(After(s, run))
    decreases |run|
  {
    if run != [] {
      StepKeeps(s, run[0]);
      RunKeeps(Apply(s, run[0]), run[1..]);
    }
  }
}
