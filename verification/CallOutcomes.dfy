/** What each handler of the call service means to its caller, failing policy writes included. */
module CallOutcomes {
  import opened CallRooms
  import opened CallSafety

  /** The account is in no room, by no session, and no policy file of the room lists it. */
  ghost predicate Absent(s: State, r: RoomId, p: Participant)
  {
    (r in s.rooms ==> p !in s.rooms[r].members) && (r in s.policies ==> p !in s.policies[r].members)
  }

  /** A policy file that is there says so. */
  predicate Listed(s: State, r: RoomId, p: Participant, sid: SessionId)
  {
    r in s.policies && p in s.policies[r].members && s.policies[r].members[p] == sid
  }

  lemma PolicyFollows(s: State, r: RoomId, p: Participant)
    requires PoliciesSound(s) && r in s.rooms && p !in s.rooms[r].members
    ensures Absent(s, r, p)
  {
  }

  lemma CreateMeans(s: State, sid: SessionId, r: RoomId, hash: string, a: string, k: string, writes: bool)
    requires Inv(s)
    ensures
      var (t, outcome) := Create(s, sid, r, hash, a, k, writes);
      && (outcome == Accepted ==> sid in s.users && r !in s.rooms && In(t, r, s.users[sid], sid)
                                  && t.rooms[r].initiator == s.users[sid] && Listed(t, r, s.users[sid], sid))
      && (outcome != Accepted ==> t.rooms == s.rooms && t.sessionRooms == s.sessionRooms)
  {
  }

  lemma JoinMeans(s: State, sid: SessionId, r: RoomId, hash: string, a: string, k: string, writes: bool)
    requires Inv(s)
    ensures
      var (t, outcome) := Join(s, sid, r, hash, a, k, writes);
      && (outcome == Accepted ==> sid in s.users && In(t, r, s.users[sid], sid) && Listed(t, r, s.users[sid], sid))
      && (outcome == Refused(PolicyWriteFailed) ==> sid in s.users && In(t, r, s.users[sid], sid) && r !in t.policies)
      && (outcome != Accepted && outcome != Refused(PolicyWriteFailed) ==> t == s)
      && (sid in s.users && r in s.rooms && s.users[sid] in s.rooms[r].blocked ==> t == s)
  {
  }

  /** A member that leaves is out, and no file admits it any more, whether or not the write succeeded. */
  lemma LeaveMeans(s: State, sid: SessionId, r: RoomId, writes: bool)
    requires Inv(s)
    ensures
      var (t, outcome) := Leave(s, sid, r, writes);
      if sid in s.sessionRooms && s.sessionRooms[sid] == r
      then && sid !in t.sessionRooms && Absent(t, r, s.users[sid])
           && (s.rooms[r].initiator == s.users[sid] ==> r !in t.rooms)
      else t == s && outcome.Refused?
  {
    LeaveKeeps(s, sid, r, writes);
    if sid in s.sessionRooms && s.sessionRooms[sid] == r {
      assert In(s, r, s.users[sid], sid);
      GoneMember(s, sid, r, writes);
      if s.rooms[r].initiator != s.users[sid] {
        PolicyFollows(Leave(s, sid, r, writes).0, r, s.users[sid]);
      }
    }
  }

  /** Both ways out of a room, by its end and by removal of one member. */
  lemma GoneMember(s: State, sid: SessionId, r: RoomId, writes: bool)
    requires sid in s.users && In(s, r, s.users[sid], sid)
    ensures sid !in EndRoom(s, r).sessionRooms && r !in EndRoom(s, r).rooms && r !in EndRoom(s, r).policies
    ensures
      var t := RemoveMember(s, sid, r, writes).0;
      sid !in t.sessionRooms && r in t.rooms && s.users[sid] !in t.rooms[r].members
  {
    assert sid in SessionsOf(s.rooms[r]);
  }

  /** A lost session is in no room afterwards. */
  lemma DisconnectMeans(s: State, sid: SessionId, writes: bool)
    requires Inv(s)
    ensures
      var t := Disconnect(s, sid, writes).0;
      && sid !in t.sessionRooms && (forall r, p :: !In(t, r, p, sid))
      && (sid in s.sessionRooms ==> Absent(t, s.sessionRooms[sid], s.users[sid]))
  {
    DisconnectKeeps(s, sid, writes);
    var t := Disconnect(s, sid, writes).0;
    if sid in s.sessionRooms {
      var r := s.sessionRooms[sid];
      assert In(s, r, s.users[sid], sid);
      GoneMember(s, sid, r, writes);
      if s.rooms[r].initiator != s.users[sid] {
        PolicyFollows(t, r, s.users[sid]);
      }
    }
    Nowhere(t, sid);
  }

  lemma Nowhere(s: State, sid: SessionId)
    requires SessionsSound(s) && sid !in s.sessionRooms
    ensures forall r, p :: !In(s, r, p, sid)
  {
  }

  /** A removal that got past its checks blocks the account and takes it out, whichever of its writes fail. */
  lemma RemoveMeans(s: State, sid: SessionId, r: RoomId, target: Participant, first: bool, writes: bool)
    requires Inv(s)
    ensures
      var (t, outcome) := Moderate(s, sid, r, target, Remove, first, writes);
      && (outcome == Accepted || outcome == Refused(PolicyWriteFailed) ==>
            r in t.rooms && target in t.rooms[r].blocked && Absent(t, r, target))
      && (outcome != Accepted && outcome != Refused(PolicyWriteFailed) ==> t == s)
  {
    ModerateKeeps(s, sid, r, target, Remove, first, writes);
    RemoveRoom(s, sid, r, target, first, writes);
    if r in s.rooms {
      BlockedIsAbsent(Moderate(s, sid, r, target, Remove, first, writes).0, r, target);
    }
  }

  lemma RemoveRoom(s: State, sid: SessionId, r: RoomId, target: Participant, first: bool, writes: bool)
    ensures
      var (t, outcome) := Moderate(s, sid, r, target, Remove, first, writes);
      && (r in s.rooms ==> r in t.rooms)
      && (outcome == Accepted || outcome == Refused(PolicyWriteFailed) ==> r in s.rooms && target in t.rooms[r].blocked)
      && (outcome != Accepted && outcome != Refused(PolicyWriteFailed) ==> t == s)
  {
    if r in s.rooms {
      RemovedTarget(s, r, target, first, writes);
    }
  }

  lemma BlockedIsAbsent(s: State, r: RoomId, p: Participant)
    requires PoliciesSound(s) && RoomsSound(s) && r in s.rooms
    ensures p in s.rooms[r].blocked ==> Absent(s, r, p)
  {
    assert RoomOk(s.rooms[r], s.nextSerial);
  }

  lemma RemovedTarget(s: State, r: RoomId, target: Participant, first: bool, writes: bool)
    requires r in s.rooms
    ensures
      var (t, outcome) := RemoveTarget(s, r, target, first, writes);
      && r in t.rooms
      && (outcome == Accepted || outcome == Refused(PolicyWriteFailed) || outcome == Refused(BlockLimit))
      && (outcome == Refused(BlockLimit) ==> t == s)
      && (outcome != Refused(BlockLimit) ==> target in t.rooms[r].blocked)
  {
  }

  /** A mute or its end takes effect in the room, and in every file that is there. */
  lemma MicrophoneMeans(s: State, sid: SessionId, r: RoomId, target: Participant, op: Moderation, first: bool,
                        writes: bool)
    requires Inv(s) && (op.Mute? || op.AllowMic?)
    ensures
      var (t, outcome) := Moderate(s, sid, r, target, op, first, writes);
      && (outcome == Accepted || outcome == Refused(PolicyWriteFailed) ==>
            && r in t.rooms && target in t.rooms[r].members && (target in t.rooms[r].muted <==> op.Mute?)
            && (r in t.policies ==> (target in t.policies[r].muted <==> op.Mute?)))
      && (outcome != Accepted && outcome != Refused(PolicyWriteFailed) ==> t == s)
  {
    ModerateKeeps(s, sid, r, target, op, first, writes);
    MicrophoneRoom(s, sid, r, target, op, first, writes);
    if r in s.rooms {
      PolicyShowsMute(Moderate(s, sid, r, target, op, first, writes).0, r, target);
    }
  }

  lemma MicrophoneRoom(s: State, sid: SessionId, r: RoomId, target: Participant, op: Moderation, first: bool,
                       writes: bool)
    requires op.Mute? || op.AllowMic?
    ensures
      var (t, outcome) := Moderate(s, sid, r, target, op, first, writes);
      && (r in s.rooms ==> r in t.rooms)
      && (outcome == Accepted || outcome == Refused(PolicyWriteFailed) ==>
            r in s.rooms && target in t.rooms[r].members && (target in t.rooms[r].muted <==> op.Mute?))
      && (outcome != Accepted && outcome != Refused(PolicyWriteFailed) ==> t == s)
  {
  }

  lemma PolicyShowsMute(s: State, r: RoomId, p: Participant)
    requires PoliciesSound(s) && r in s.rooms
    ensures r in s.policies && p in s.rooms[r].members ==> (p in s.policies[r].muted <==> p in s.rooms[r].muted)
  {
  }

  lemma ReadmitMeans(s: State, sid: SessionId, r: RoomId, target: Participant, first: bool, writes: bool)
    requires Inv(s)
    ensures
      var (t, outcome) := Moderate(s, sid, r, target, Readmit, first, writes);
      && (outcome == Accepted || outcome == Refused(PolicyWriteFailed) ==>
            r in t.rooms && target !in t.rooms[r].blocked && t.rooms[r].members == s.rooms[r].members)
      && (outcome != Accepted && outcome != Refused(PolicyWriteFailed) ==> t == s)
  {
  }

  /** The account holds the presentation for a full lease from now. */
  predicate Presenting(s: State, r: RoomId, p: Participant, share: string)
  {
    && r in s.rooms && s.rooms[r].screenOwner == p && s.rooms[r].screenId == share
    && s.rooms[r].screenExpires == s.mono + SCREEN_LEASE_MILLIS
  }

  /** A running presentation that is not this account's, or not under this name. */
  predicate HeldByOther(s: State, room: Room, sid: SessionId, share: string)
  {
    && room.screenId != "" && room.screenExpires > s.mono
    && (sid !in s.users || s.users[sid] != room.screenOwner || share != room.screenId)
  }

  /** Nobody takes a presentation over while its lease runs, and only its owner renews or stops it. */
  lemma ScreenMeans(s: State, sid: SessionId, r: RoomId, request: ScreenRequest, share: string)
    ensures
      var (t, outcome) := ScreenControl(s, sid, r, request, share);
      && (outcome == Accepted && !request.ScreenStop? ==> sid in s.users && Presenting(t, r, s.users[sid], share))
      && (outcome == Accepted && request.ScreenStop? ==> r in t.rooms && t.rooms[r].screenId != share)
      && (r in s.rooms && HeldByOther(s, s.rooms[r], sid, share) ==> t == s)
  {
    if r in s.rooms && sid in s.users {
      var t := ScreenControl(s, sid, r, request, share).0;
      var next := ScreenNext(s.rooms[r], s.users[sid], request, share, s.mono).0;
      assert t.rooms == s.rooms || t.rooms == s.rooms[r := next];
    }
  }

  lemma ExpireRoomMeans(s: State, r: RoomId)
    requires Inv(s)
    ensures
      var t := ExpireRoom(s, r);
      && r !in t.rooms && r !in t.policies && (forall sid :: sid in t.sessionRooms ==> t.sessionRooms[sid] != r)
      && (forall sid :: sid in s.sessionRooms && s.sessionRooms[sid] != r ==> sid in t.sessionRooms)
  {
    if r in s.rooms {
      RoomEnded(s, r);
      var t := ExpireRoom(s, r);
      forall sid | sid in t.sessionRooms ensures t.sessionRooms[sid] != r {
        assert In(t, t.sessionRooms[sid], t.users[sid], sid);
      }
      forall sid | sid in s.sessionRooms && s.sessionRooms[sid] != r ensures sid in t.sessionRooms {
        OnlyOwnRoom(s, r, sid);
      }
    }
  }

  lemma OnlyOwnRoom(s: State, r: RoomId, sid: SessionId)
    requires SessionsSound(s) && r in s.rooms && sid in s.sessionRooms && s.sessionRooms[sid] != r
    ensures sid !in SessionsOf(s.rooms[r])
  {
    if sid in SessionsOf(s.rooms[r]) {
      var p :| p in s.rooms[r].members && s.rooms[r].members[p].session == sid;
      assert In(s, r, p, sid);
    }
  }
}
