/**
 * The outcomes of the call service's I/O that its handlers do not guard: saving a session
 * in the database, making the policy directory, and removing a policy file. Each fault
 * leaves the state that the statements before it have made; the lemmas say exactly when
 * that state still satisfies the room invariant.
 */
module CallFaults {
  import opened CallRooms
  import opened CallSafety
  import opened CallHistory
  import opened CallOutcomes

  // ------------------------------------------------ a session that cannot be saved

  /** Creating: room and session are entered, the policy is not written. */
  function UnsavedCreate(s: State, sid: SessionId, r: RoomId, hash: string, a: string, k: string): State
  {
    Create(s, sid, r, hash, a, k, true).0.(policies := s.policies)
  }

  /** A room without a policy file admits nobody, so this fault is harmless. */
  lemma UnsavedCreateKeeps(s: State, sid: SessionId, r: RoomId, hash: string, a: string, k: string)
    requires Inv(s) && Create(s, sid, r, hash, a, k, true).1 == Accepted
    ensures Inv(UnsavedCreate(s, sid, r, hash, a, k))
  {
    var full := Create(s, sid, r, hash, a, k, true).0;
    CreateAccepted(s, sid, r, hash, a, k, true);
    OnlyPolicies(full, UnsavedCreate(s, sid, r, hash, a, k));
    CreatedRooms(s, sid, r, hash, a, k);
    NewRoomUnlisted(s, UnsavedCreate(s, sid, r, hash, a, k), r);
  }

  lemma CreatedRooms(s: State, sid: SessionId, r: RoomId, hash: string, a: string, k: string)
    requires Create(s, sid, r, hash, a, k, true).1 == Accepted
    ensures r !in s.rooms && r in Create(s, sid, r, hash, a, k, true).0.rooms
    ensures Create(s, sid, r, hash, a, k, true).0.rooms == s.rooms[r := Create(s, sid, r, hash, a, k, true).0.rooms[r]]
  {
  }

  lemma NewRoomUnlisted(s: State, t: State, r: RoomId)
    requires PoliciesSound(s) && r !in s.rooms && r in t.rooms && t.rooms == s.rooms[r := t.rooms[r]]
    requires t.policies == s.policies
    ensures PoliciesSound(t)
  {
  }

  /** What a join has checked when it enters the member. */
  predicate MayEnter(s: State, sid: SessionId, r: RoomId)
  {
    && sid in s.users && s.users[sid] != "" && r in s.rooms && (sid in s.sessionRooms ==> s.sessionRooms[sid] == r)
    && var p, room := s.users[sid], s.rooms[r];
       && p !in room.blocked && (p in room.members ==> room.members[p].session == sid)
       && (p in room.members || |room.members| < MAX_PARTICIPANTS)
  }

  lemma JoinMayEnter(s: State, sid: SessionId, r: RoomId, hash: string, a: string, k: string)
    requires Join(s, sid, r, hash, a, k, true).1 == Accepted
    ensures MayEnter(s, sid, r)
  {
  }

  /** Joining: member and session are entered, but neither the revision nor the policy follows. */
  function UnsavedJoin(s: State, sid: SessionId, r: RoomId, a: string, k: string): State
    requires r in s.rooms && sid in s.users
  {
    var room := s.rooms[r];
    s.(rooms := s.rooms[r := room.(members := room.members[s.users[sid] := Member(a, k, sid)])],
       sessionRooms := s.sessionRooms[sid := r])
  }

  lemma UnsavedJoinRooms(s: State, sid: SessionId, r: RoomId, a: string, k: string)
    requires Inv(s) && MayEnter(s, sid, r)
    ensures SessionsSound(UnsavedJoin(s, sid, r, a, k)) && RoomsSound(UnsavedJoin(s, sid, r, a, k))
  {
    var t := UnsavedJoin(s, sid, r, a, k);
    var p := s.users[sid];
    EnteredOk(s.rooms[r], p, Member(a, k, sid), s.nextSerial);
    EnteredIn(s, t, r, p, Member(a, k, sid));
    SessionsAdd(s, t, r, p, sid);
    RoomsChanged(s, r, t.rooms[r]);
  }

  lemma EnteredOk(room: Room, p: Participant, member: Member, nextSerial: nat)
    requires RoomOk(room, nextSerial) && p !in room.blocked && p != ""
    requires p in room.members || |room.members| < MAX_PARTICIPANTS
    ensures RoomOk(room.(members := room.members[p := member]), nextSerial)
  {
    JoinedOk(room, p, member, nextSerial);
  }

  lemma EnteredIn(s: State, t: State, r: RoomId, p: Participant, member: Member)
    requires r in s.rooms && t.rooms == s.rooms[r := s.rooms[r].(members := s.rooms[r].members[p := member])]
    requires p in s.rooms[r].members ==> s.rooms[r].members[p].session == member.session
    ensures forall x, q, y :: In(t, x, q, y) <==> In(s, x, q, y) || (x == r && q == p && y == member.session)
  {
  }

  /** The invariant survives exactly when the account was a member before or the room has no policy file. */
  lemma UnsavedJoinExactly(s: State, sid: SessionId, r: RoomId, a: string, k: string)
    requires Inv(s) && MayEnter(s, sid, r)
    ensures Inv(UnsavedJoin(s, sid, r, a, k)) <==> s.users[sid] in s.rooms[r].members || r !in s.policies
  {
    UnsavedJoinRooms(s, sid, r, a, k);
    StaleWriteExactly(s, r, UnsavedJoin(s, sid, r, a, k).rooms[r]);
    EnteredPolicy(r, s.rooms[r], s.users[sid], Member(a, k, sid));
    OnlyRooms(StaleWrite(s, r, UnsavedJoin(s, sid, r, a, k).rooms[r]), UnsavedJoin(s, sid, r, a, k));
  }

  lemma OnlyRooms(s: State, t: State)
    requires t.rooms == s.rooms && t.policies == s.policies
    ensures PoliciesSound(t) <==> PoliciesSound(s)
  {
  }

  lemma EnteredPolicy(r: RoomId, room: Room, p: Participant, member: Member)
    requires p in room.members ==> room.members[p].session == member.session
    ensures PolicyOf(r, room.(members := room.members[p := member])) == PolicyOf(r, room) <==> p in room.members
  {
    var after := room.(members := room.members[p := member]);
    if p in room.members {
      assert PolicyOf(r, after).members == PolicyOf(r, room).members;
      assert after.members.Keys == room.members.Keys;
    } else {
      assert p in PolicyOf(r, after).members && p !in PolicyOf(r, room).members;
    }
  }

  /** The same, said of a join that would have been accepted. */
  lemma InterruptedJoinExactly(s: State, sid: SessionId, r: RoomId, hash: string, a: string, k: string)
    requires Inv(s) && Join(s, sid, r, hash, a, k, true).1 == Accepted
    ensures Inv(UnsavedJoin(s, sid, r, a, k)) <==> s.users[sid] in s.rooms[r].members || r !in s.policies
  {
    JoinMayEnter(s, sid, r, hash, a, k);
    UnsavedJoinExactly(s, sid, r, a, k);
  }

  /** The snapshots stay numbered exactly when the member was there with the same keys. */
  lemma UnsavedJoinNumbered(s: State, sid: SessionId, r: RoomId, a: string, k: string)
    requires Inv(s) && MayEnter(s, sid, r)
    ensures
      var p, room := s.users[sid], s.rooms[r];
      Evolves(room, UnsavedJoin(s, sid, r, a, k).rooms[r]) <==>
        p in room.members && SameKeys(room.members[p], Member(a, k, sid))
  {
    assert RoomOk(s.rooms[r], s.nextSerial);
    EnteredView(s.rooms[r], s.users[sid], Member(a, k, sid));
  }

  lemma EnteredView(room: Room, p: Participant, member: Member)
    ensures ViewOf(room.(members := room.members[p := member])) == ViewOf(room) <==>
      p in room.members && SameKeys(room.members[p], member)
  {
    var after := room.(members := room.members[p := member]);
    if p in room.members && SameKeys(room.members[p], member) {
      assert after.members.Keys == room.members.Keys;
      assert ViewOf(after).keys == ViewOf(room).keys;
    } else {
      assert ViewOf(after).keys[p] == (member.agreementKey, member.signingKey);
    }
  }

  /** Whatever happens, the file that is left admits only members: it lacks the newcomer. */
  lemma UnsavedJoinAdmitsMembers(s: State, sid: SessionId, r: RoomId, a: string, k: string, p: Participant,
                                 x: SessionId)
    requires Inv(s) && MayEnter(s, sid, r) && Listed(UnsavedJoin(s, sid, r, a, k), r, p, x)
    ensures In(UnsavedJoin(s, sid, r, a, k), r, p, x)
  {
    assert s.policies[r] == PolicyOf(r, s.rooms[r]);
    assert In(s, r, p, x);
  }

  /** Removing an account: it is blocked and out, and the second half of the handler does not run. */
  function UnsavedRemoval(s: State, r: RoomId, target: Participant): State
    requires r in s.rooms && target in s.rooms[r].members && s.rooms[r].members[target].session in s.users
  {
    var room := s.rooms[r];
    var blocked := s.(rooms := s.rooms[r := room.(blocked := room.blocked + {target})]);
    RemoveMember(blocked, room.members[target].session, r, true).0
  }

  lemma UnsavedRemovalKeeps(s: State, r: RoomId, target: Participant)
    requires Inv(s) && r in s.rooms && target in s.rooms[r].members && target != s.rooms[r].initiator
    requires s.rooms[r].members[target].session in s.users && |s.rooms[r].blocked| < MAX_BLOCKED
    ensures Inv(UnsavedRemoval(s, r, target)) && target in UnsavedRemoval(s, r, target).rooms[r].blocked
  {
    var sid := s.rooms[r].members[target].session;
    assert In(s, r, target, sid);
    MemberRemoved(s, sid, r, true);
    RemoveThenBlock(s, r, target, sid, true);
    BlockKeeps(RemoveMember(s, sid, r, true).0, r, target);
  }

  /** Ending a room: it is gone with its file, but the sessions of the members in `left` were not freed. */
  function UnsavedEnd(s: State, r: RoomId, left: set<Participant>): State
    requires r in s.rooms
  {
    var room := s.rooms[r];
    s.(rooms := s.rooms - {r}, policies := s.policies - {r},
       sessionRooms := s.sessionRooms - set p | p in room.members && p !in left :: room.members[p].session)
  }

  /** The invariant survives exactly when every member was freed before the fault. */
  lemma UnsavedEndExactly(s: State, r: RoomId, left: set<Participant>)
    requires Inv(s) && r in s.rooms && left <= s.rooms[r].members.Keys
    ensures Inv(UnsavedEnd(s, r, left)) <==> left == {}
  {
    var room := s.rooms[r];
    var t := UnsavedEnd(s, r, left);
    if left == {} {
      assert (set p | p in room.members && p !in left :: room.members[p].session) == SessionsOf(room);
      assert t == EndRoom(s, r);
      RoomEnded(s, r);
    } else {
      var p :| p in left;
      var sid := room.members[p].session;
      assert In(s, r, p, sid);
      forall q | q in room.members && q !in left ensures room.members[q].session != sid {
        assert In(s, r, q, room.members[q].session);
      }
      assert sid in t.sessionRooms && t.sessionRooms[sid] == r && r !in t.rooms;
    }
  }

  // ----------------------------------------------------- a policy file that stays

  /** The room has changed and the older file is still there. */
  function StaleWrite(s: State, r: RoomId, room: Room): State
  {
    s.(rooms := s.rooms[r := room])
  }

  /** A file that stays is still true exactly when the room shows it the same members, sessions and mutes. */
  lemma StaleWriteExactly(s: State, r: RoomId, room: Room)
    requires PoliciesSound(s) && r in s.rooms
    ensures PoliciesSound(StaleWrite(s, r, room)) <==>
      (r in s.policies ==> PolicyOf(r, room) == PolicyOf(r, s.rooms[r]))
  {
    var t := StaleWrite(s, r, room);
    if r in s.policies {
      assert s.policies[r] == PolicyOf(r, s.rooms[r]);
    }
    forall x | x in s.policies && x != r ensures x in t.rooms && t.policies[x] == PolicyOf(x, t.rooms[x]) {
    }
  }

  /** A member that leaves while its room's file stays is still admitted by that file, exactly when there is one. */
  lemma StaleLeave(s: State, sid: SessionId, r: RoomId)
    requires Inv(s) && sid in s.users && In(s, r, s.users[sid], sid)
    ensures
      var t := StaleWrite(s, r, WithoutMember(s.rooms[r], s.users[sid]));
      && !In(t, r, s.users[sid], sid)
      && (Listed(t, r, s.users[sid], sid) <==> r in s.policies)
      && (PoliciesSound(t) <==> r !in s.policies)
  {
    var p := s.users[sid];
    StaleWriteExactly(s, r, WithoutMember(s.rooms[r], p));
    if r in s.policies {
      assert s.policies[r] == PolicyOf(r, s.rooms[r]);
      assert p !in PolicyOf(r, WithoutMember(s.rooms[r], p)).members;
    }
  }

  /** Ending a room whose file cannot be removed never keeps the invariant: at least the host's session stays bound. */
  lemma UnremovedFile(s: State, r: RoomId)
    requires Inv(s) && r in s.rooms
    ensures !Inv(s.(rooms := s.rooms - {r}))
  {
    var room := s.rooms[r];
    assert RoomOk(room, s.nextSerial);
    var sid := room.members[room.initiator].session;
    assert In(s, r, room.initiator, sid);
    assert sid in s.sessionRooms && s.sessionRooms[sid] == r;
  }
}
