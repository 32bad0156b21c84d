/**
 * When each handler of the call service accepts and on what grounds it refuses, said of the
 * fields of the state, and what an accepted request leaves as it was.
 */
module CallAnswers {
  import opened CallRooms
  import opened CallSafety
  import opened CallOutcomes

  /** A signed-in session whose account can be named in a file. */
  predicate SignedIn(s: State, sid: SessionId)
  {
    sid in s.users && SafeId(s.users[sid])
  }

  // ----------------------------------------------------------- creating, joining

  predicate MayCreate(s: State, sid: SessionId, r: RoomId)
  {
    SignedIn(s, sid) && sid !in s.sessionRooms && r !in s.rooms && |s.rooms| < 1024
  }

  lemma CreatedExactly(s: State, sid: SessionId, r: RoomId, hash: string, a: string, k: string, writes: bool)
    ensures
      var outcome := Create(s, sid, r, hash, a, k, writes).1;
      && (outcome == Accepted <==> MayCreate(s, sid, r) && writes)
      && (outcome == Refused(PolicyWriteFailed) <==> MayCreate(s, sid, r) && !writes)
      && (outcome == Refused(NotAuthenticated) <==> sid !in s.users)
      && (outcome == Refused(InvalidParticipant) <==> sid in s.users && !SafeId(s.users[sid]))
      && (outcome == Refused(AlreadyInCall) <==> SignedIn(s, sid) && sid in s.sessionRooms)
      && (outcome == Refused(RoomExists) <==> SignedIn(s, sid) && sid !in s.sessionRooms && r in s.rooms)
      && (outcome == Refused(RoomCapacity) <==>
            SignedIn(s, sid) && sid !in s.sessionRooms && r !in s.rooms && |s.rooms| >= 1024)
  {
  }

  /** The new room has its host alone in it, lasts three hours and asks for this invitation. */
  lemma CreateLeaves(s: State, sid: SessionId, r: RoomId, hash: string, a: string, k: string)
    requires MayCreate(s, sid, r)
    ensures
      var t := Create(s, sid, r, hash, a, k, true).0;
      && t.rooms.Keys == s.rooms.Keys + {r} && (forall x :: x in s.rooms ==> t.rooms[x] == s.rooms[x])
      && t.rooms[r].members == map[s.users[sid] := Member(a, k, sid)]
      && t.rooms[r].initiator == s.users[sid] && t.rooms[r].inviteHash == hash
      && t.rooms[r].expiresAt == s.now + 3 * 60 * 60 * 1000
      && t.rooms[r].blocked == {} && t.rooms[r].muted == {} && t.rooms[r].screenId == ""
  {
  }

  /** The room is there, has not run out and is asked for with its invitation. */
  predicate Invited(s: State, r: RoomId, hash: string)
  {
    r in s.rooms && s.rooms[r].expiresAt > s.now && s.rooms[r].inviteHash == hash
  }

  /** The account is there by this session already, or may take a free place. */
  predicate HasPlace(room: Room, p: Participant, sid: SessionId)
  {
    if p in room.members then room.members[p].session == sid else |room.members| < 32
  }

  /** A signed-in session, bound to no other room, comes with the invitation, unblocked, and has a place. */
  predicate MayJoin(s: State, sid: SessionId, r: RoomId, hash: string)
  {
    && SignedIn(s, sid) && (sid in s.sessionRooms ==> s.sessionRooms[sid] == r)
    && Invited(s, r, hash)
    && s.users[sid] !in s.rooms[r].blocked && HasPlace(s.rooms[r], s.users[sid], sid)
  }

  lemma JoinedExactly(s: State, sid: SessionId, r: RoomId, hash: string, a: string, k: string, writes: bool)
    ensures
      var outcome := Join(s, sid, r, hash, a, k, writes).1;
      && (outcome == Accepted <==> MayJoin(s, sid, r, hash) && writes)
      && (outcome == Refused(PolicyWriteFailed) <==> MayJoin(s, sid, r, hash) && !writes)
  {
  }

  lemma JoinRefusedExactly(s: State, sid: SessionId, r: RoomId, hash: string, a: string, k: string, writes: bool)
    ensures
      var outcome := Join(s, sid, r, hash, a, k, writes).1;
      var free := SignedIn(s, sid) && (sid in s.sessionRooms ==> s.sessionRooms[sid] == r);
      var invited := free && Invited(s, r, hash);
      && (outcome == Refused(NotAuthenticated) <==> sid !in s.users)
      && (outcome == Refused(InvalidParticipant) <==> sid in s.users && !SafeId(s.users[sid]))
      && (outcome == Refused(AlreadyInCall) <==> SignedIn(s, sid) && !free)
      && (outcome == CallUnavailable <==> free && (r !in s.rooms || s.rooms[r].expiresAt <= s.now))
      && (outcome == Refused(InvalidInvitation) <==>
            free && r in s.rooms && s.rooms[r].expiresAt > s.now && s.rooms[r].inviteHash != hash)
      && (outcome == CallRemoved <==> invited && s.users[sid] in s.rooms[r].blocked)
      && (outcome == Refused(ParticipantActive) <==>
            && invited && s.users[sid] !in s.rooms[r].blocked && s.users[sid] in s.rooms[r].members
            && s.rooms[r].members[s.users[sid]].session != sid)
      && (outcome == Refused(ParticipantCapacity) <==>
            && invited && s.users[sid] !in s.rooms[r].blocked && s.users[sid] !in s.rooms[r].members
            && |s.rooms[r].members| >= 32)
  {
  }

  /**
   * A join adds this one member with these keys and leaves everyone else, and every other room, alone; it is
   * numbered if the member is new or its keys are.
   */
  lemma JoinLeaves(s: State, sid: SessionId, r: RoomId, hash: string, a: string, k: string, writes: bool)
    requires MayJoin(s, sid, r, hash)
    ensures
      var t, p := Join(s, sid, r, hash, a, k, writes).0, s.users[sid];
      var same := p in s.rooms[r].members && s.rooms[r].members[p] == Member(a, k, sid);
      && t.rooms.Keys == s.rooms.Keys && (forall x :: x in s.rooms && x != r ==> t.rooms[x] == s.rooms[x])
      && t.rooms[r].members == s.rooms[r].members[p := Member(a, k, sid)]
      && t.rooms[r] == s.rooms[r].(members := t.rooms[r].members,
                                   revision := s.rooms[r].revision + if same then 0 else 1)
      && t.sessionRooms == s.sessionRooms[sid := r]
  {
  }

  // ------------------------------------------------------------------- leaving

  /** When a member other than the host leaves, the others stay, and nothing else of the room changes but the screen. */
  lemma LeaveLeaves(s: State, sid: SessionId, r: RoomId, writes: bool)
    requires Inv(s) && sid in s.sessionRooms && s.sessionRooms[sid] == r && s.rooms[r].initiator != s.users[sid]
    ensures
      var t, p := Leave(s, sid, r, writes).0, s.users[sid];
      && t.rooms.Keys == s.rooms.Keys && (forall x :: x in s.rooms && x != r ==> t.rooms[x] == s.rooms[x])
      && t.rooms[r].members == s.rooms[r].members - {p}
      && t.rooms[r].blocked == s.rooms[r].blocked && t.rooms[r].muted == s.rooms[r].muted
      && (s.rooms[r].screenOwner != p ==> t.rooms[r].screenId == s.rooms[r].screenId)
      && (s.rooms[r].screenOwner == p ==> t.rooms[r].screenId == "")
      && t.sessionRooms == s.sessionRooms - {sid}
  {
    assert In(s, r, s.users[sid], sid);
  }

  // ---------------------------------------------------------------- moderation

  /** The session is the creator's own, in the room, and the room has not run out. */
  predicate Hosts(s: State, sid: SessionId, r: RoomId)
  {
    && sid in s.users && r in s.rooms && s.rooms[r].expiresAt > s.now
    && s.rooms[r].initiator == s.users[sid] && In(s, r, s.users[sid], sid)
  }

  /** The account can be the target of the operation. */
  predicate Targetable(room: Room, target: Participant, op: Moderation)
  {
    match op
    case Readmit => true
    case Remove => target in room.members || target in room.blocked
    case Mute => target in room.members
    case AllowMic => target in room.members
  }

  /** The list that the operation adds to is not full. */
  predicate ListHasRoom(room: Room, target: Participant, op: Moderation)
  {
    match op
    case Remove => target in room.blocked || |room.blocked| < 256
    case Mute => target in room.muted || |room.muted| < 256
    case _ => true
  }

  /** Both writes of a removal of someone present, and the only one of any other operation. */
  predicate Written(room: Room, target: Participant, op: Moderation, first: bool, writes: bool)
  {
    writes && (op.Remove? && target in room.members ==> first)
  }

  lemma ModeratedExactly(s: State, sid: SessionId, r: RoomId, target: Participant, op: Moderation, first: bool,
                         writes: bool)
    requires MembersBound(s)
    ensures
      var outcome := Moderate(s, sid, r, target, op, first, writes).1;
      var may := Hosts(s, sid, r) && target != s.users[sid] && Targetable(s.rooms[r], target, op);
      && (outcome == Refused(NotModerator) <==> !Hosts(s, sid, r))
      && (outcome == Refused(CannotModerateSelf) <==> Hosts(s, sid, r) && target == s.users[sid])
      && (outcome == ParticipantLeft <==>
            Hosts(s, sid, r) && target != s.users[sid] && !Targetable(s.rooms[r], target, op))
      && (outcome == Refused(BlockLimit) <==> may && op.Remove? && !ListHasRoom(s.rooms[r], target, op))
      && (outcome == Refused(MuteLimit) <==> may && op.Mute? && !ListHasRoom(s.rooms[r], target, op))
      && (outcome == Accepted <==>
            may && ListHasRoom(s.rooms[r], target, op) && Written(s.rooms[r], target, op, first, writes))
      && (outcome == Refused(PolicyWriteFailed) <==>
            may && ListHasRoom(s.rooms[r], target, op) && !Written(s.rooms[r], target, op, first, writes))
  {
    if Hosts(s, sid, r) && op.Remove? {
      RemovalAnswers(s, r, target, first, writes);
    }
  }

  lemma RemovalAnswers(s: State, r: RoomId, target: Participant, first: bool, writes: bool)
    requires MembersBound(s) && r in s.rooms
    ensures
      var room, outcome := s.rooms[r], RemoveTarget(s, r, target, first, writes).1;
      outcome ==
        if !ListHasRoom(room, target, Remove) then Refused(BlockLimit)
        else if Written(room, target, Remove, first, writes) then Accepted else Refused(PolicyWriteFailed)
  {
    if target in s.rooms[r].members {
      assert In(s, r, target, s.rooms[r].members[target].session);
    }
  }

  /** What an accepted operation makes of the room's members, blocks and mutes. */
  predicate ModeratesTo(a: Room, b: Room, target: Participant, op: Moderation)
  {
    match op
    case Readmit => b.members == a.members && b.blocked == a.blocked - {target} && b.muted == a.muted
    case Remove =>
      b.members == a.members - {target} && b.blocked == a.blocked + {target} && b.muted == a.muted - {target}
    case Mute => b.members == a.members && b.blocked == a.blocked && b.muted == a.muted + {target}
    case AllowMic => b.members == a.members && b.blocked == a.blocked && b.muted == a.muted - {target}
  }

  lemma ModerationLeaves(s: State, sid: SessionId, r: RoomId, target: Participant, op: Moderation)
    requires MembersBound(s) && Moderate(s, sid, r, target, op, true, true).1 == Accepted
    ensures
      var t := Moderate(s, sid, r, target, op, true, true).0;
      && r in s.rooms && r in t.rooms && ModeratesTo(s.rooms[r], t.rooms[r], target, op)
      && (forall x :: x in s.rooms && x != r ==> x in t.rooms && t.rooms[x] == s.rooms[x])
      && r in t.policies && t.policies[r].members.Keys == t.rooms[r].members.Keys
      && t.policies[r].muted == t.rooms[r].muted * t.rooms[r].members.Keys
  {
    if op.Remove? {
      RemovalLeaves(s, r, target);
    }
  }

  lemma RemovalLeaves(s: State, r: RoomId, target: Participant)
    requires MembersBound(s) && r in s.rooms && RemoveTarget(s, r, target, true, true).1 == Accepted
    ensures
      var t := RemoveTarget(s, r, target, true, true).0;
      && r in t.rooms && ModeratesTo(s.rooms[r], t.rooms[r], target, Remove)
      && (forall x :: x in s.rooms && x != r ==> x in t.rooms && t.rooms[x] == s.rooms[x])
      && r in t.policies && t.policies[r] == PolicyOf(r, t.rooms[r])
  {
    if target in s.rooms[r].members {
      assert In(s, r, target, s.rooms[r].members[target].session);
    }
  }

  // ------------------------------------------------------------ screen sharing

  /** The session is in a room that has not run out and names its presentation. */
  predicate MayShare(s: State, sid: SessionId, r: RoomId, share: string)
  {
    sid in s.users && In(s, r, s.users[sid], sid) && s.rooms[r].expiresAt > s.now && share != ""
  }

  predicate Running(room: Room, mono: int)
  {
    room.screenId != "" && room.screenExpires > mono
  }

  /** Starting needs a free screen or one's own, renewing one's own, and stopping anything but another's. */
  lemma SharedExactly(s: State, sid: SessionId, r: RoomId, request: ScreenRequest, share: string)
    ensures
      var outcome := ScreenControl(s, sid, r, request, share).1;
      var may := MayShare(s, sid, r, share);
      var running := may && Running(s.rooms[r], s.mono);
      var own := running && s.rooms[r].screenOwner == s.users[sid] && s.rooms[r].screenId == share;
      && (outcome == Refused(NotSharing) <==> !may)
      && (outcome == Accepted <==> may && (own || (!running && !request.ScreenRenew?)))
      && (outcome == ScreenBusy <==> running && !own && request.ScreenStart?)
      && (outcome == ScreenNotOwner <==> may && !own && (request.ScreenRenew? || (running && request.ScreenStop?)))
  {
  }
}
