/**
 * The call service as an object: its maps and rooms are updated in place, in the
 * order of the original, and an exception leaves whatever was updated before it.
 */
module CallServiceObject {
  import opened CallRooms
  import opened CallSafety
  import opened CallOutcomes
  import opened CallAnswers

  lemma TakenBack<K, V>(m: map<K, V>, k: K, v: V)
    requires k !in m
    ensures m[k := v] - {k} == m
  {
  }

  class CallService {
    var rooms: map<RoomId, Room>
    var sessionRooms: map<SessionId, RoomId>
    var users: map<SessionId, Participant>
    var policies: map<RoomId, Policy>
    var nextSerial: nat
    var now: int
    var mono: int

    function Contents(): State
      reads this
    {
      State(rooms, sessionRooms, users, policies, nextSerial, now, mono)
    }

    /** The room invariant; every handler keeps it, whatever its writes do. */
    ghost predicate Valid()
      reads this
    {
      Inv(Contents())
    }

    constructor ()
      ensures Valid() && Contents() == INITIAL
    {
      rooms, sessionRooms, users, policies := map[], map[], map[], map[];
      nextSerial, now, mono := 0, 0, 0;
    }

    /** Writes the policy file of a room; a failed write removes the older file. */
    method WritePolicyFile(r: RoomId, writes: bool) returns (outcome: Outcome)
      requires r in rooms
      modifies this`policies
      ensures (Contents(), outcome) == Write(old(Contents()), r, writes)
    {
      if writes {
        policies := policies[r := PolicyOf(r, rooms[r])];
        return Accepted;
      }
      policies := policies - {r};
      return Refused(PolicyWriteFailed);
    }

    method Create(sid: SessionId, r: RoomId, inviteHash: string, agreementKey: string, signingKey: string, writes: bool)
      returns (outcome: Outcome)
      requires Valid()
      modifies this`rooms, this`sessionRooms, this`policies, this`nextSerial
      ensures Valid()
      ensures (Contents(), outcome) ==
        CallRooms.Create(old(Contents()), sid, r, inviteHash, agreementKey, signingKey, writes)
      ensures outcome == Accepted <==> MayCreate(old(Contents()), sid, r) && writes
      ensures outcome == Accepted ==>
        sid in users && In(Contents(), r, users[sid], sid) && rooms[r].initiator == users[sid]
      ensures outcome == Accepted ==> Listed(Contents(), r, users[sid], sid)
      ensures outcome != Accepted ==> rooms == old(rooms) && sessionRooms == old(sessionRooms)
    {
      CreateKeeps(Contents(), sid, r, inviteHash, agreementKey, signingKey, writes);
      CreateMeans(Contents(), sid, r, inviteHash, agreementKey, signingKey, writes);
      CreatedExactly(Contents(), sid, r, inviteHash, agreementKey, signingKey, writes);
      outcome := Open(sid, r, inviteHash, agreementKey, signingKey, writes);
    }

    method Open(sid: SessionId, r: RoomId, inviteHash: string, agreementKey: string, signingKey: string, writes: bool)
      returns (outcome: Outcome)
      modifies this`rooms, this`sessionRooms, this`policies, this`nextSerial
      ensures (Contents(), outcome) ==
        CallRooms.Create(old(Contents()), sid, r, inviteHash, agreementKey, signingKey, writes)
    {
      if sid !in users {
        return Refused(NotAuthenticated);
      }
      if !SafeId(users[sid]) {
        return Refused(InvalidParticipant);
      }
      if sid in sessionRooms {
        return Refused(AlreadyInCall);
      }
      if r in rooms {
        return Refused(RoomExists);
      }
      if |rooms| >= MAX_ROOMS {
        return Refused(RoomCapacity);
      }
      outcome := Register(sid, r, NewRoom(Contents(), sid, inviteHash, agreementKey, signingKey), writes);
    }

    /** Enters a room and its host, and takes both back when the policy cannot be written. */
    method Register(sid: SessionId, r: RoomId, room: Room, writes: bool) returns (outcome: Outcome)
      requires r !in rooms && sid !in sessionRooms
      modifies this`rooms, this`sessionRooms, this`policies, this`nextSerial
      ensures writes ==> outcome == Accepted && policies == old(policies)[r := PolicyOf(r, room)]
      ensures writes ==> rooms == old(rooms)[r := room] && sessionRooms == old(sessionRooms)[sid := r]
      ensures writes ==> nextSerial == old(nextSerial) + 1
      ensures !writes ==> outcome == Refused(PolicyWriteFailed) && policies == old(policies) - {r}
      ensures !writes ==> rooms == old(rooms) && sessionRooms == old(sessionRooms) && nextSerial == old(nextSerial)
    {
      rooms := rooms[r := room];
      sessionRooms := sessionRooms[sid := r];
      outcome := WritePolicyFile(r, writes);
      if outcome.Refused? {
        rooms := rooms - {r};
        sessionRooms := sessionRooms - {sid};
        TakenBack(old(rooms), r, room);
        TakenBack(old(sessionRooms), sid, r);
      } else {
        nextSerial := nextSerial + 1;
      }
    }

    method Join(sid: SessionId, r: RoomId, inviteHash: string, agreementKey: string, signingKey: string, writes: bool)
      returns (outcome: Outcome)
      requires Valid()
      modifies this`rooms, this`sessionRooms, this`policies
      ensures Valid()
      ensures (Contents(), outcome) ==
        CallRooms.Join(old(Contents()), sid, r, inviteHash, agreementKey, signingKey, writes)
      ensures outcome == Accepted <==> MayJoin(old(Contents()), sid, r, inviteHash) && writes
      ensures outcome == Refused(PolicyWriteFailed) <==> MayJoin(old(Contents()), sid, r, inviteHash) && !writes
      ensures outcome == Accepted ==>
        sid in users && In(Contents(), r, users[sid], sid) && Listed(Contents(), r, users[sid], sid)
      ensures outcome != Accepted && outcome != Refused(PolicyWriteFailed) ==> Contents() == old(Contents())
    {
      JoinKeeps(Contents(), sid, r, inviteHash, agreementKey, signingKey, writes);
      JoinMeans(Contents(), sid, r, inviteHash, agreementKey, signingKey, writes);
      JoinedExactly(Contents(), sid, r, inviteHash, agreementKey, signingKey, writes);
      outcome := Enter(sid, r, inviteHash, agreementKey, signingKey, writes);
    }

    method Enter(sid: SessionId, r: RoomId, inviteHash: string, agreementKey: string, signingKey: string, writes: bool)
      returns (outcome: Outcome)
      modifies this`rooms, this`sessionRooms, this`policies
      ensures (Contents(), outcome) ==
        CallRooms.Join(old(Contents()), sid, r, inviteHash, agreementKey, signingKey, writes)
    {
      if sid !in users {
        return Refused(NotAuthenticated);
      }
      var p := users[sid];
      if !SafeId(p) {
        return Refused(InvalidParticipant);
      }
      if sid in sessionRooms && sessionRooms[sid] != r {
        return Refused(AlreadyInCall);
      }
      if r !in rooms || rooms[r].expiresAt <= now {
        return CallUnavailable;
      }
      var room := rooms[r];
      if inviteHash != room.inviteHash {
        return Refused(InvalidInvitation);
      }
      if p in room.blocked {
        return CallRemoved;
      }
      if p in room.members && room.members[p].session != sid {
        return Refused(ParticipantActive);
      }
      var member := Member(agreementKey, signingKey, sid);
      var existed := p in room.members;
      var changed := !existed || !SameKeys(room.members[p], member);
      // The member is entered first and taken out again if the room turns out to be full.
      var members := room.members[p := member];
      assert members.Keys == room.members.Keys + {p};
      if changed && !existed && |members| > MAX_PARTICIPANTS {
        members := members - {p};
        assert members == room.members;
        rooms := rooms[r := room.(members := members)];
        assert rooms == old(rooms);
        return Refused(ParticipantCapacity);
      }
      sessionRooms := sessionRooms[sid := r];
      rooms := rooms[r := room.(members := members, revision := if changed then room.revision + 1 else room.revision)];
      outcome := WritePolicyFile(r, writes);
    }

    method RemoveMemberLocked(sid: SessionId, r: RoomId, writes: bool) returns (outcome: Outcome)
      requires r in rooms && sid in users
      modifies this`rooms, this`sessionRooms, this`policies
      ensures (Contents(), outcome) == RemoveMember(old(Contents()), sid, r, writes)
    {
      var p, room := users[sid], rooms[r];
      if p !in room.members || room.members[p].session != sid {
        return Accepted;
      }
      var next := room.(members := room.members - {p});
      if next.screenOwner == p {
        next := ClearScreen(next);
      }
      sessionRooms := sessionRooms - {sid};
      rooms := rooms[r := next.(revision := next.revision + 1)];
      outcome := WritePolicyFile(r, writes);
    }

    /** Frees the sessions of the members one by one. */
    method EndRoomLocked(r: RoomId)
      requires r in rooms
      modifies this`rooms, this`sessionRooms, this`policies
      ensures Contents() == EndRoom(old(Contents()), r)
    {
      var room := rooms[r];
      rooms := rooms - {r};
      policies := policies - {r};
      sessionRooms := FreeSessions(sessionRooms, room);
    }

    static method FreeSessions(sessionRooms: map<SessionId, RoomId>, room: Room) returns (r: map<SessionId, RoomId>)
      ensures r == sessionRooms - SessionsOf(room)
    {
      r := sessionRooms;
      var rest := room.members.Keys;
      ghost var gone: set<SessionId> := {};
      while rest != {}
        invariant rest <= room.members.Keys
        invariant gone <= SessionsOf(room)
        invariant forall p :: p in room.members && p !in rest ==> room.members[p].session in gone
        invariant r == sessionRooms - gone
        decreases |rest|
      {
        var p :| p in rest;
        r := r - {room.members[p].session};
        gone := gone + {room.members[p].session};
        rest := rest - {p};
      }
      assert gone == SessionsOf(room);
    }

    /** The session that was in the room is out of it and no file lists its account, even when the write fails. */
    method Leave(sid: SessionId, r: RoomId, writes: bool) returns (outcome: Outcome)
      requires Valid()
      modifies this`rooms, this`sessionRooms, this`policies
      ensures Valid() && (Contents(), outcome) == CallRooms.Leave(old(Contents()), sid, r, writes)
      ensures sid in old(sessionRooms) && old(sessionRooms)[sid] == r ==>
        sid !in sessionRooms && sid in users && Absent(Contents(), r, users[sid])
      ensures !(sid in old(sessionRooms) && old(sessionRooms)[sid] == r) ==>
        outcome.Refused? && Contents() == old(Contents())
    {
      LeaveKeeps(Contents(), sid, r, writes);
      LeaveMeans(Contents(), sid, r, writes);
      if sid !in users {
        return Refused(NotAuthenticated);
      }
      if sid !in sessionRooms || sessionRooms[sid] != r || r !in rooms {
        return Refused(NotInRoom);
      }
      if users[sid] == rooms[r].initiator {
        EndRoomLocked(r);
        return Accepted;
      }
      outcome := RemoveMemberLocked(sid, r, writes);
    }

    /** The lost session is in no room afterwards. */
    method Disconnected(sid: SessionId, writes: bool) returns (outcome: Outcome)
      requires Valid()
      modifies this`rooms, this`sessionRooms, this`policies
      ensures Valid() && (Contents(), outcome) == Disconnect(old(Contents()), sid, writes)
      ensures sid !in sessionRooms && forall r, p :: !In(Contents(), r, p, sid)
    {
      DisconnectKeeps(Contents(), sid, writes);
      DisconnectMeans(Contents(), sid, writes);
      if sid !in users || sid !in sessionRooms || sessionRooms[sid] !in rooms {
        return Accepted;
      }
      var r := sessionRooms[sid];
      if users[sid] == rooms[r].initiator {
        EndRoomLocked(r);
        return Accepted;
      }
      outcome := RemoveMemberLocked(sid, r, writes);
    }

    /** The part of moderation that blocks a target and takes it out of the room. */
    method RemoveTargetLocked(r: RoomId, target: Participant, firstWrite: bool, writes: bool) returns (outcome: Outcome)
      requires r in rooms
      modifies this`rooms, this`sessionRooms, this`policies
      ensures (Contents(), outcome) == RemoveTarget(old(Contents()), r, target, firstWrite, writes)
    {
      var room := rooms[r];
      if |room.blocked| >= MAX_BLOCKED && target !in room.blocked {
        return Refused(BlockLimit);
      }
      rooms := rooms[r := room.(blocked := room.blocked + {target})];
      if target in room.members && room.members[target].session in users {
        outcome := RemoveMemberLocked(room.members[target].session, r, firstWrite);
        if outcome.Refused? {
          return;
        }
      }
      room := rooms[r];
      rooms := rooms[r := room.(muted := room.muted - {target}, revision := room.revision + 1)];
      outcome := WritePolicyFile(r, writes);
    }

    method Moderate(sid: SessionId, r: RoomId, target: Participant, op: Moderation, firstWrite: bool, writes: bool)
      returns (outcome: Outcome)
      requires Valid()
      modifies this`rooms, this`sessionRooms, this`policies
      ensures Valid()
      ensures (Contents(), outcome) == CallRooms.Moderate(old(Contents()), sid, r, target, op, firstWrite, writes)
      ensures outcome == Accepted <==>
        && Hosts(old(Contents()), sid, r) && target != users[sid] && Targetable(old(rooms)[r], target, op)
        && ListHasRoom(old(rooms)[r], target, op) && Written(old(rooms)[r], target, op, firstWrite, writes)
      ensures outcome == Accepted && op.Remove? ==>
        r in rooms && target in rooms[r].blocked && Absent(Contents(), r, target)
      ensures outcome == Accepted && (op.Mute? || op.AllowMic?) ==>
        r in rooms && target in rooms[r].members && (target in rooms[r].muted <==> op.Mute?)
      ensures outcome == Accepted && op.Readmit? ==> r in rooms && target !in rooms[r].blocked
    {
      ModerateKeeps(Contents(), sid, r, target, op, firstWrite, writes);
      ModeratedExactly(Contents(), sid, r, target, op, firstWrite, writes);
      match op {
        case Remove => RemoveMeans(Contents(), sid, r, target, firstWrite, writes);
        case Readmit => ReadmitMeans(Contents(), sid, r, target, firstWrite, writes);
        case Mute => MicrophoneMeans(Contents(), sid, r, target, op, firstWrite, writes);
        case AllowMic => MicrophoneMeans(Contents(), sid, r, target, op, firstWrite, writes);
      }
      outcome := Carry(sid, r, target, op, firstWrite, writes);
    }

    /** Checks and carries out a moderation. */
    method Carry(sid: SessionId, r: RoomId, target: Participant, op: Moderation, firstWrite: bool, writes: bool)
      returns (outcome: Outcome)
      modifies this`rooms, this`sessionRooms, this`policies
      ensures (Contents(), outcome) == CallRooms.Moderate(old(Contents()), sid, r, target, op, firstWrite, writes)
    {
      if !IsActiveHost(Contents(), sid, r) {
        return Refused(NotModerator);
      }
      if target == users[sid] {
        return Refused(CannotModerateSelf);
      }
      var room := rooms[r];
      if !op.Readmit? && target !in room.members && !(op.Remove? && target in room.blocked) {
        return ParticipantLeft;
      }
      match op {
        case Readmit =>
          room := room.(blocked := room.blocked - {target});
        case Remove =>
          outcome := RemoveTargetLocked(r, target, firstWrite, writes);
          return;
        case AllowMic =>
          room := room.(muted := room.muted - {target});
        case Mute =>
          if |room.muted| >= MAX_MUTED && target !in room.muted {
            return Refused(MuteLimit);
          }
          room := room.(muted := room.muted + {target});
      }
      rooms := rooms[r := room.(revision := room.revision + 1)];
      outcome := WritePolicyFile(r, writes);
    }

    /**
     * An accepted start or renewal leaves the session's account presenting, and an accepted stop ends
     * its presentation.
     */
    method ScreenControl(sid: SessionId, r: RoomId, request: ScreenRequest, shareId: string) returns (outcome: Outcome)
      requires Valid()
      modifies this`rooms
      ensures Valid() && (Contents(), outcome) == CallRooms.ScreenControl(old(Contents()), sid, r, request, shareId)
      ensures outcome == Refused(NotSharing) <==> !MayShare(old(Contents()), sid, r, shareId)
      ensures outcome == Accepted && request.ScreenStart? <==>
        && request.ScreenStart? && MayShare(old(Contents()), sid, r, shareId)
        && (Running(old(rooms)[r], mono) ==>
              old(rooms)[r].screenOwner == users[sid] && old(rooms)[r].screenId == shareId)
      ensures outcome == Accepted && !request.ScreenStop? ==>
        sid in users && Presenting(Contents(), r, users[sid], shareId)
      ensures outcome == Accepted && request.ScreenStop? ==> r in rooms && rooms[r].screenId != shareId
    {
      ScreenKeeps(Contents(), sid, r, request, shareId);
      ScreenMeans(Contents(), sid, r, request, shareId);
      SharedExactly(Contents(), sid, r, request, shareId);
      outcome := Present(sid, r, request, shareId);
    }

    method Present(sid: SessionId, r: RoomId, request: ScreenRequest, shareId: string) returns (outcome: Outcome)
      modifies this`rooms
      ensures (Contents(), outcome) == CallRooms.ScreenControl(old(Contents()), sid, r, request, shareId)
    {
      if sid !in users || r !in rooms || users[sid] !in rooms[r].members
         || rooms[r].members[users[sid]].session != sid || rooms[r].expiresAt <= now || shareId == "" {
        return Refused(NotSharing);
      }
      var p, room := users[sid], rooms[r];
      if room.screenId != "" && room.screenExpires <= mono {
        room := ClearScreen(room);
      }
      var owns := room.screenOwner == p && room.screenId == shareId;
      var accepted;
      match request {
        case ScreenStart =>
          accepted := room.screenId == "" || owns;
          outcome := if accepted then Accepted else ScreenBusy;
          if accepted && !owns {
            room := room.(screenOwner := p, screenId := shareId, screenRevision := room.screenRevision + 1);
          }
        case ScreenStop =>
          accepted := owns || room.screenId == "";
          outcome := if accepted then Accepted else ScreenNotOwner;
          if owns {
            room := ClearScreen(room);
          }
        case ScreenRenew =>
          accepted := owns;
          outcome := if accepted then Accepted else ScreenNotOwner;
      }
      if accepted && !request.ScreenStop? {
        room := room.(screenExpires := mono + SCREEN_LEASE_MILLIS);
      }
      rooms := rooms[r := room];
    }

    /** The presentation does not stand after its time, and another one is left alone. */
    method ExpireScreen(r: RoomId, shareId: string)
      requires Valid()
      modifies this`rooms
      ensures Valid() && Contents() == CallRooms.ExpireScreen(old(Contents()), r, shareId)
      ensures r in rooms && shareId != "" ==> rooms[r].screenId != shareId || rooms[r].screenExpires > mono
      ensures r in old(rooms) && old(rooms)[r].screenId != shareId ==> Contents() == old(Contents())
    {
      ExpireScreenKeeps(Contents(), r, shareId);
      if r !in rooms || rooms[r].screenId != shareId || rooms[r].screenExpires > mono {
        return;
      }
      rooms := rooms[r := ClearScreen(rooms[r])];
    }

    /** Nothing of the room is left, and no session of another room is touched. */
    method ExpireRoom(r: RoomId)
      requires Valid()
      modifies this`rooms, this`sessionRooms, this`policies
      ensures Valid() && Contents() == CallRooms.ExpireRoom(old(Contents()), r)
      ensures r !in rooms && r !in policies && forall sid :: sid in sessionRooms ==> sessionRooms[sid] != r
      ensures forall sid :: sid in old(sessionRooms) && old(sessionRooms)[sid] != r ==> sid in sessionRooms
    {
      StepKeeps(Contents(), Goes(DoExpireRoom(r)));
      ExpireRoomMeans(Contents(), r);
      if r in rooms {
        EndRoomLocked(r);
      }
    }
  }
}
