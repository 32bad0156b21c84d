/**
 * Who gets into a room, who puts anyone out of it and who moderates it, over every run of the
 * call service, with sessions failing to be saved.
 */
module CallInvitations {
  import opened CallRooms
  import opened CallSafety
  import opened CallOutcomes
  import opened CallAnswers
  import opened CallHistory
  import opened CallFaults
  import opened CallFaultRuns

  // ------------------------------------------------------------------ invitations

  /** The step is this session's own request to join the room with this invitation, saved or not. */
  predicate JoinsWith(e: Step, sid: SessionId, r: RoomId, hash: string)
  {
    match e
    case Done(Comes(DoJoin(x, y, h, _, _, _))) => x == sid && y == r && h == hash
    case Faulty(JoinUnsaved(x, y, h, _, _)) => x == sid && y == r && h == hash
    case _ => false
  }

  /** What never changes in the life of a room. */
  predicate SameRoom(a: Room, b: Room)
  {
    a.serial == b.serial && a.initiator == b.initiator && a.inviteHash == b.inviteHash && a.expiresAt == b.expiresAt
  }

  lemma ComeInvites(s: State, e: Coming, r: RoomId)
    ensures r in s.rooms ==> r in Come(s, e).rooms && SameRoom(s.rooms[r], Come(s, e).rooms[r])
    ensures r in Come(s, e).rooms && r !in s.rooms ==> Come(s, e).rooms[r].serial == s.nextSerial
  {
  }

  lemma GoInvites(s: State, e: Going, r: RoomId)
    ensures r in Go(s, e).rooms ==> r in s.rooms && SameRoom(s.rooms[r], Go(s, e).rooms[r])
  {
  }

  lemma ModerateInvites(s: State, sid: SessionId, x: RoomId, target: Participant, op: Moderation, first: bool,
                        writes: bool, r: RoomId)
    ensures
      var t := Moderate(s, sid, x, target, op, first, writes).0;
      r in t.rooms ==> r in s.rooms && SameRoom(s.rooms[r], t.rooms[r])
  {
    if IsActiveHost(s, sid, x) && op.Remove? {
      RemoveInvites(s, x, target, first, writes, r);
    }
  }

  /** The same rooms are there, and each has kept what never changes. */
  ghost predicate SameRooms(s: State, t: State)
  {
    t.rooms.Keys == s.rooms.Keys && forall r :: r in s.rooms ==> SameRoom(s.rooms[r], t.rooms[r])
  }

  lemma RemoveInvites(s: State, x: RoomId, target: Participant, first: bool, writes: bool, r: RoomId)
    requires x in s.rooms
    ensures
      var t := RemoveTarget(s, x, target, first, writes).0;
      r in t.rooms ==> r in s.rooms && SameRoom(s.rooms[r], t.rooms[r])
  {
    var room := s.rooms[x];
    var blocked := s.(rooms := s.rooms[x := room.(blocked := room.blocked + {target})]);
    assert SameRooms(s, blocked);
    UnmutedInvites(blocked, x, target, writes);
    if target in room.members && room.members[target].session in s.users {
      MemberInvites(blocked, room.members[target].session, x, first);
      UnmutedInvites(RemoveMember(blocked, room.members[target].session, x, first).0, x, target, writes);
    }
  }

  lemma MemberInvites(s: State, sid: SessionId, x: RoomId, writes: bool)
    requires x in s.rooms && sid in s.users
    ensures SameRooms(s, RemoveMember(s, sid, x, writes).0)
  {
  }

  lemma UnmutedInvites(s: State, x: RoomId, target: Participant, writes: bool)
    requires x in s.rooms
    ensures SameRooms(s, Unmuted(s, x, target, writes).0)
  {
  }

  lemma ScreenInvites(s: State, sid: SessionId, x: RoomId, request: ScreenRequest, share: string, r: RoomId)
    ensures
      var t := ScreenControl(s, sid, x, request, share).0;
      r in t.rooms ==> r in s.rooms && SameRoom(s.rooms[r], t.rooms[r])
  {
  }

  lemma EventInvites(s: State, e: Event, r: RoomId)
    requires Enabled(s, e) && r in Apply(s, e).rooms
    ensures r in s.rooms ==> SameRoom(s.rooms[r], Apply(s, e).rooms[r])
    ensures r !in s.rooms ==> Apply(s, e).rooms[r].serial == s.nextSerial
  {
    match e
    case Comes(c) => ComeInvites(s, c, r);
    case Goes(g) => GoInvites(s, g, r);
    case DoModerate(sid, x, target, op, first, writes) => ModerateInvites(s, sid, x, target, op, first, writes, r);
    case DoScreen(sid, x, request, share) => ScreenInvites(s, sid, x, request, share, r);
    case _ =>
  }

  lemma FaultInvites(s: State, f: Fault, r: RoomId)
    requires MembersBound(s) && FaultEnabled(s, f) && r in FaultApply(s, f).rooms
    ensures r in s.rooms ==> SameRoom(s.rooms[r], FaultApply(s, f).rooms[r])
    ensures r !in s.rooms ==> FaultApply(s, f).rooms[r].serial == s.nextSerial
  {
    match f
    case CreateUnsaved(sid, x, hash, a, k) => CreatedRooms(s, sid, x, hash, a, k);
    case JoinUnsaved(_, _, _, _, _) =>
    case RemoveUnsaved(_, x, target) => assert In(s, x, target, s.rooms[x].members[target].session);
    case EndUnsaved(_, _) =>
  }

  /** While a room is there, its number, host, invitation and end stay the same; a new one gets a new number. */
  lemma StepInvites(s: State, e: Step, r: RoomId)
    requires MembersBound(s) && StepEnabled(s, e) && r in StepApply(s, e).rooms
    ensures r in s.rooms ==> SameRoom(s.rooms[r], StepApply(s, e).rooms[r])
    ensures r !in s.rooms ==> StepApply(s, e).rooms[r].serial == s.nextSerial
  {
    match e
    case Done(event) => EventInvites(s, event, r);
    case Faulty(f) => FaultInvites(s, f, r);
  }

  lemma SerialsGrow(s: State, e: Step)
    requires StepEnabled(s, e)
    ensures s.nextSerial <= StepApply(s, e).nextSerial
  {
    match e
    case Done(event) => NewSerial(s, event, "");
    case Faulty(f) =>
  }

  lemma StepStaysGone(s: State, e: Step, r: RoomId, serial: nat)
    requires FaultInv(s) && StepEnabled(s, e) && serial < s.nextSerial && Gone(s, r, serial)
    ensures Gone(StepApply(s, e), r, serial) && serial < StepApply(s, e).nextSerial
  {
    SerialsGrow(s, e);
    if r in StepApply(s, e).rooms {
      StepInvites(s, e, r);
    }
  }

  lemma {:induction false} FaultyRunStaysGone(s: State, run: seq<Step>, r: RoomId, serial: nat)
    requires FaultInv(s) && IsFaultyRun(s, run) && serial < s.nextSerial && Gone(s, r, serial)
    ensures Gone(AfterFaults(s, run), r, serial)
    decreases |run|
  {
    if run != [] {
      StepStaysGone(s, run[0], r, serial);
      StepKept(s, run[0]);
      FaultyRunStaysGone(StepApply(s, run[0]), run[1..], r, serial);
    }
  }

  /** A room that is still there after the run has kept its host, its invitation and its end. */
  lemma {:induction false} RunSameRoom(s: State, run: seq<Step>, r: RoomId)
    requires FaultInv(s) && IsFaultyRun(s, run) && r in s.rooms && !Gone(AfterFaults(s, run), r, s.rooms[r].serial)
    ensures SameRoom(s.rooms[r], AfterFaults(s, run).rooms[r])
    decreases |run|
  {
    if run != [] {
      var u := StepApply(s, run[0]);
      StepKept(s, run[0]);
      assert RoomOk(s.rooms[r], s.nextSerial);
      SerialsGrow(s, run[0]);
      if Gone(u, r, s.rooms[r].serial) {
        FaultyRunStaysGone(u, run[1..], r, s.rooms[r].serial);
      } else {
        StepInvites(s, run[0], r);
        RunSameRoom(u, run[1..], r);
      }
    }
  }

  /** The ways into a room: its own creation, and a join with its invitation by someone it has not blocked. */
  ghost predicate EntersBy(s: State, e: Step, r: RoomId, p: Participant, sid: SessionId)
    requires StepEnabled(s, e)
  {
    && sid in s.users && s.users[sid] == p
    && if r in s.rooms then
         JoinsWith(e, sid, r, s.rooms[r].inviteHash) && p !in s.rooms[r].blocked && s.rooms[r].expiresAt > s.now
       else r in StepApply(s, e).rooms && StepApply(s, e).rooms[r].initiator == p
  }

  lemma JoinEntry(s: State, x: SessionId, y: RoomId, hash: string, a: string, k: string, writes: bool,
                  r: RoomId, p: Participant, sid: SessionId)
    requires In(Join(s, x, y, hash, a, k, writes).0, r, p, sid) && !In(s, r, p, sid)
    ensures x == sid && y == r && MayJoin(s, sid, r, hash) && s.users[sid] == p
  {
    JoinedExactly(s, x, y, hash, a, k, writes);
  }

  lemma CreateEntry(s: State, x: SessionId, y: RoomId, hash: string, a: string, k: string, writes: bool,
                    r: RoomId, p: Participant, sid: SessionId)
    requires In(Create(s, x, y, hash, a, k, writes).0, r, p, sid) && !In(s, r, p, sid)
    ensures
      var t := Create(s, x, y, hash, a, k, writes).0;
      r !in s.rooms && sid in s.users && s.users[sid] == p && t.rooms[r].initiator == p
  {
    CreatedExactly(s, x, y, hash, a, k, writes);
  }

  lemma EventEntry(s: State, e: Event, r: RoomId, p: Participant, sid: SessionId)
    requires RoomsSound(s) && Enabled(s, e) && In(Apply(s, e), r, p, sid) && !In(s, r, p, sid)
    ensures EntersBy(s, Done(e), r, p, sid)
  {
    if !Enters(e, r, sid) {
      StepMembership(s, e, r, p, sid);
    } else {
      match e.coming
      case DoCreate(x, y, hash, a, k, writes) => CreateEntry(s, x, y, hash, a, k, writes, r, p, sid);
      case DoJoin(x, y, hash, a, k, writes) => JoinEntry(s, x, y, hash, a, k, writes, r, p, sid);
    }
  }

  lemma FaultEntry(s: State, f: Fault, r: RoomId, p: Participant, sid: SessionId)
    requires MembersBound(s) && FaultEnabled(s, f) && In(FaultApply(s, f), r, p, sid) && !In(s, r, p, sid)
    ensures EntersBy(s, Faulty(f), r, p, sid)
  {
    match f
    case CreateUnsaved(x, y, hash, a, k) => CreateEntry(s, x, y, hash, a, k, true, r, p, sid);
    case JoinUnsaved(x, y, hash, a, k) => JoinedExactly(s, x, y, hash, a, k, true);
    case RemoveUnsaved(_, x, target) => assert In(s, x, target, s.rooms[x].members[target].session);
    case EndUnsaved(_, _) =>
  }

  /** Nobody enters a room but by its own request, with the invitation of the room or as its creator. */
  lemma StepEntry(s: State, e: Step, r: RoomId, p: Participant, sid: SessionId)
    requires FaultInv(s) && StepEnabled(s, e) && In(StepApply(s, e), r, p, sid) && !In(s, r, p, sid)
    ensures EntersBy(s, e, r, p, sid)
  {
    match e
    case Done(event) => EventEntry(s, event, r, p, sid);
    case Faulty(f) => FaultEntry(s, f, r, p, sid);
  }

  /** At some point of the run the session asked to join this very room with this invitation. */
  predicate AskedWith(s: State, run: seq<Step>, r: RoomId, serial: nat, hash: string, sid: SessionId)
    requires IsFaultyRun(s, run)
    decreases |run|
  {
    && run != []
    && (|| (!Gone(s, r, serial) && JoinsWith(run[0], sid, r, hash))
        || AskedWith(StepApply(s, run[0]), run[1..], r, serial, hash, sid))
  }

  lemma {:induction false} RunEntry(s: State, run: seq<Step>, r: RoomId, p: Participant, sid: SessionId)
    requires FaultInv(s) && IsFaultyRun(s, run) && In(AfterFaults(s, run), r, p, sid)
    requires AfterFaults(s, run).rooms[r].initiator != p
    ensures
      var room := AfterFaults(s, run).rooms[r];
      || (In(s, r, p, sid) && s.rooms[r].serial == room.serial)
      || AskedWith(s, run, r, room.serial, room.inviteHash, sid)
    decreases |run|
  {
    if run != [] {
      var u, room := StepApply(s, run[0]), AfterFaults(s, run).rooms[r];
      StepKept(s, run[0]);
      RunEntry(u, run[1..], r, p, sid);
      if !AskedWith(u, run[1..], r, room.serial, room.inviteHash, sid) {
        RunSameRoom(u, run[1..], r);
        StepInvites(s, run[0], r);
        if !In(s, r, p, sid) {
          StepEntry(s, run[0], r, p, sid);
        }
      }
    }
  }

  /**
   * In every run, whichever sessions fail to be saved, a member of a room is its creator or has
   * itself asked to join that very room with its invitation.
   */
  lemma MembersWereInvited(run: seq<Step>, r: RoomId, p: Participant, sid: SessionId)
    requires IsFaultyRun(INITIAL, run) && In(AfterFaults(INITIAL, run), r, p, sid)
    ensures
      var room := AfterFaults(INITIAL, run).rooms[r];
      room.initiator == p || AskedWith(INITIAL, run, r, room.serial, room.inviteHash, sid)
  {
    if AfterFaults(INITIAL, run).rooms[r].initiator != p {
      RunEntry(INITIAL, run, r, p, sid);
    }
  }

  /** So is every session that a policy file lists, and the media relay admits no other. */
  lemma ListedWereInvited(run: seq<Step>, r: RoomId, p: Participant, sid: SessionId)
    requires IsFaultyRun(INITIAL, run) && Listed(AfterFaults(INITIAL, run), r, p, sid)
    ensures r in AfterFaults(INITIAL, run).rooms
    ensures
      var room := AfterFaults(INITIAL, run).rooms[r];
      room.initiator == p || AskedWith(INITIAL, run, r, room.serial, room.inviteHash, sid)
  {
    ListedIsMember(run, r, p, sid);
    MembersWereInvited(run, r, p, sid);
  }

  // ------------------------------------------------------------------ departures

  /** The step is one by which this member goes: its own, or its removal by the host. */
  predicate GoesBy(s: State, e: Step, r: RoomId, p: Participant, sid: SessionId)
  {
    match e
    case Done(Goes(DoLeave(x, y, _))) => x == sid && y == r
    case Done(Goes(DoDisconnect(x, _))) => x == sid
    case Done(DoModerate(x, y, target, op, _, _)) => y == r && target == p && op.Remove? && Hosts(s, x, r)
    case Faulty(RemoveUnsaved(x, y, target)) => y == r && target == p && Hosts(s, x, r)
    case _ => false
  }

  lemma GoDeparture(s: State, e: Going, r: RoomId, p: Participant, sid: SessionId)
    requires MembersBound(s) && In(s, r, p, sid) && r in Go(s, e).rooms && !In(Go(s, e), r, p, sid)
    ensures GoesBy(s, Done(Goes(e)), r, p, sid)
  {
  }

  lemma ComeDeparture(s: State, e: Coming, r: RoomId, p: Participant, sid: SessionId)
    requires In(s, r, p, sid)
    ensures In(Come(s, e), r, p, sid)
  {
  }

  lemma ModerateDeparture(s: State, x: SessionId, y: RoomId, target: Participant, op: Moderation, first: bool,
                          writes: bool, r: RoomId, p: Participant, sid: SessionId)
    requires MembersBound(s) && In(s, r, p, sid)
    requires !In(Moderate(s, x, y, target, op, first, writes).0, r, p, sid)
    ensures y == r && target == p && op.Remove? && Hosts(s, x, r)
  {
    if op.Remove? && y in s.rooms && (y != r || target != p) {
      RemoveDeparture(s, y, target, first, writes, r, p, sid);
    }
  }

  lemma RemoveDeparture(s: State, y: RoomId, target: Participant, first: bool, writes: bool,
                        r: RoomId, p: Participant, sid: SessionId)
    requires MembersBound(s) && y in s.rooms && In(s, r, p, sid) && (y != r || target != p)
    ensures In(RemoveTarget(s, y, target, first, writes).0, r, p, sid)
  {
    if target in s.rooms[y].members {
      assert In(s, y, target, s.rooms[y].members[target].session);
    }
  }

  lemma ScreenDeparture(s: State, x: SessionId, y: RoomId, request: ScreenRequest, share: string,
                        r: RoomId, p: Participant, sid: SessionId)
    requires In(s, r, p, sid)
    ensures In(ScreenControl(s, x, y, request, share).0, r, p, sid)
  {
  }

  lemma EventDeparture(s: State, e: Event, r: RoomId, p: Participant, sid: SessionId)
    requires MembersBound(s) && Enabled(s, e) && In(s, r, p, sid)
    requires r in Apply(s, e).rooms && !In(Apply(s, e), r, p, sid)
    ensures GoesBy(s, Done(e), r, p, sid)
  {
    match e
    case Comes(c) => ComeDeparture(s, c, r, p, sid);
    case Goes(g) => GoDeparture(s, g, r, p, sid);
    case DoModerate(x, y, target, op, first, writes) =>
      ModerateDeparture(s, x, y, target, op, first, writes, r, p, sid);
    case DoScreen(x, y, request, share) => ScreenDeparture(s, x, y, request, share, r, p, sid);
    case _ =>
  }

  lemma FaultDeparture(s: State, f: Fault, r: RoomId, p: Participant, sid: SessionId)
    requires MembersBound(s) && FaultEnabled(s, f) && In(s, r, p, sid)
    requires r in FaultApply(s, f).rooms && !In(FaultApply(s, f), r, p, sid)
    ensures GoesBy(s, Faulty(f), r, p, sid)
  {
    match f
    case CreateUnsaved(x, y, hash, a, k) => CreatedRooms(s, x, y, hash, a, k);
    case JoinUnsaved(x, y, hash, a, k) => JoinedExactly(s, x, y, hash, a, k, true);
    case RemoveUnsaved(_, x, target) => assert In(s, x, target, s.rooms[x].members[target].session);
    case EndUnsaved(_, _) =>
  }

  /** While a room goes on, nobody is put out of it but by its host, and everyone else goes by its own step. */
  lemma StepDeparture(s: State, e: Step, r: RoomId, p: Participant, sid: SessionId)
    requires FaultInv(s) && StepEnabled(s, e) && In(s, r, p, sid)
    requires r in StepApply(s, e).rooms && !In(StepApply(s, e), r, p, sid)
    ensures GoesBy(s, e, r, p, sid)
  {
    match e
    case Done(event) => EventDeparture(s, event, r, p, sid);
    case Faulty(f) => FaultDeparture(s, f, r, p, sid);
  }

  /** The step is one by which the room ends: its timer, or its host's going, also while sessions fail to be saved. */
  predicate EndsBy(s: State, e: Step, r: RoomId)
  {
    match e
    case Done(Goes(DoExpireRoom(y))) => y == r
    case Done(Goes(DoLeave(x, y, _))) => y == r && x in s.users && r in s.rooms && s.users[x] == s.rooms[r].initiator
    case Done(Goes(DoDisconnect(x, _))) =>
      x in s.users && x in s.sessionRooms && s.sessionRooms[x] == r && r in s.rooms
      && s.users[x] == s.rooms[r].initiator
    case Faulty(EndUnsaved(y, _)) => y == r
    case _ => false
  }

  lemma StepEnds(s: State, e: Step, r: RoomId)
    requires FaultInv(s) && StepEnabled(s, e) && r in s.rooms && r !in StepApply(s, e).rooms
    ensures EndsBy(s, e, r)
  {
    match e
    case Done(event) => EventEnds(s, event, r);
    case Faulty(f) => FaultEnds(s, f, r);
  }

  lemma EventEnds(s: State, e: Event, r: RoomId)
    requires Enabled(s, e) && r in s.rooms && r !in Apply(s, e).rooms
    ensures EndsBy(s, Done(e), r)
  {
    match e
    case Comes(c) => ComeInvites(s, c, r);
    case Goes(g) => GoEnds(s, g, r);
    case DoModerate(x, y, target, op, first, writes) => ModerateAddsNothing(s, x, y, target, op, first, writes);
    case _ =>
  }

  lemma GoEnds(s: State, e: Going, r: RoomId)
    requires r in s.rooms && r !in Go(s, e).rooms
    ensures EndsBy(s, Done(Goes(e)), r)
  {
    match e
    case DoLeave(x, y, writes) =>
    case DoDisconnect(x, writes) =>
    case DoExpireRoom(y) =>
  }

  lemma FaultEnds(s: State, f: Fault, r: RoomId)
    requires MembersBound(s) && FaultEnabled(s, f) && r in s.rooms && r !in FaultApply(s, f).rooms
    ensures EndsBy(s, Faulty(f), r)
  {
    match f
    case CreateUnsaved(x, y, hash, a, k) => CreatedRooms(s, x, y, hash, a, k);
    case JoinUnsaved(_, _, _, _, _) =>
    case RemoveUnsaved(_, x, target) => assert In(s, x, target, s.rooms[x].members[target].session);
    case EndUnsaved(_, _) =>
  }

  // ------------------------------------------------------------------- moderation

  /** The step is a moderation of this room by its host. */
  predicate HostModerates(s: State, e: Step, r: RoomId)
  {
    match e
    case Done(DoModerate(x, y, _, _, _, _)) => y == r && Hosts(s, x, r)
    case Faulty(RemoveUnsaved(x, y, _)) => y == r && Hosts(s, x, r)
    case _ => false
  }

  /** Blocks and mutes of a room change by a moderation of its host and by nothing else. */
  lemma OnlyHostModerates(s: State, e: Step, r: RoomId)
    requires FaultInv(s) && StepEnabled(s, e) && r in s.rooms && r in StepApply(s, e).rooms
    requires !HostModerates(s, e, r)
    ensures StepApply(s, e).rooms[r].blocked == s.rooms[r].blocked
    ensures StepApply(s, e).rooms[r].muted == s.rooms[r].muted
  {
    assert RoomOk(s.rooms[r], s.nextSerial);
    match e
    case Done(event) =>
      if !event.DoModerate? {
        CalmStep(s, event, r);
      } else if event.room != r {
        ModerateElsewhere(s, event.sid, event.room, event.target, event.op, event.firstWrite, event.writes, r);
      }
    case Faulty(f) =>
      FaultCalm(s, f, r);
  }

  lemma FaultCalm(s: State, f: Fault, r: RoomId)
    requires MembersBound(s) && FaultEnabled(s, f) && r in s.rooms && r in FaultApply(s, f).rooms
    requires !HostModerates(s, Faulty(f), r)
    ensures FaultApply(s, f).rooms[r].blocked == s.rooms[r].blocked
    ensures FaultApply(s, f).rooms[r].muted == s.rooms[r].muted
  {
    match f
    case CreateUnsaved(x, y, hash, a, k) => CreatedRooms(s, x, y, hash, a, k);
    case JoinUnsaved(_, _, _, _, _) =>
    case RemoveUnsaved(_, x, target) => assert In(s, x, target, s.rooms[x].members[target].session);
    case EndUnsaved(_, _) =>
  }
}
