/** What the call service promises over the whole life of one room. */
module CallHistory {
  import opened CallRooms
  import opened CallSafety
  import opened CallOutcomes

  // ---------------------------------------------------------------- one room step

  /** What a membership snapshot shows of a room. */
  datatype View = View(keys: map<Participant, (string, string)>, muted: set<Participant>)

  function ViewOf(room: Room): View
  {
    View(map p | p in room.members :: (room.members[p].agreementKey, room.members[p].signingKey),
         room.muted * room.members.Keys)
  }

  /** No change of who presents what goes unnumbered either. */
  predicate ScreenNumbered(a: Room, b: Room)
  {
    || b.screenRevision > a.screenRevision
    || (b.screenRevision == a.screenRevision && b.screenOwner == a.screenOwner && b.screenId == a.screenId)
  }

  /** How a room may change while it lives: who hosts it never does, and no change of view goes unnumbered. */
  ghost predicate Evolves(a: Room, b: Room)
  {
    && b.serial == a.serial && b.initiator == a.initiator && b.expiresAt == a.expiresAt
    && a.initiator in a.members && a.initiator in b.members
    && b.members[a.initiator].session == a.members[a.initiator].session
    && (b.revision > a.revision || (b.revision == a.revision && ViewOf(b) == ViewOf(a)))
    && ScreenNumbered(a, b)
  }

  lemma EvolvesTransitive(a: Room, b: Room, c: Room)
    requires Evolves(a, b) && Evolves(b, c)
    ensures Evolves(a, c)
  {
  }

  lemma JoinedEvolves(room: Room, p: Participant, member: Member)
    requires room.initiator in room.members
    requires p in room.members ==> room.members[p].session == member.session
    ensures Evolves(room, Joined(room, p, member))
  {
    var room' := Joined(room, p, member);
    if room'.revision == room.revision {
      assert ViewOf(room') == ViewOf(room);
    }
  }

  lemma WithoutEvolves(room: Room, p: Participant)
    requires room.initiator in room.members && p != room.initiator
    ensures Evolves(room, WithoutMember(room, p))
  {
  }

  /** An edit that keeps the members and either shows nothing or is numbered. */
  lemma EditEvolves(a: Room, b: Room)
    requires a.initiator in a.members && b.members == a.members
    requires b.serial == a.serial && b.initiator == a.initiator && b.expiresAt == a.expiresAt
    requires b.revision > a.revision || (b.revision == a.revision && b.muted == a.muted)
    requires ScreenNumbered(a, b)
    ensures Evolves(a, b)
  {
  }

  /** The event by which the host of room `r` may lift a block or a mute of `x`. */
  predicate Lifts(s: State, e: Event, r: RoomId, x: Participant, ops: set<Moderation>)
  {
    e.DoModerate? && e.room == r && e.target == x && e.op in ops && IsActiveHost(s, e.sid, r)
  }

  /** A step takes `before` to `after`, possibly lifting a block or a mute as `e` says. */
  ghost predicate RoomStep(s: State, e: Event, r: RoomId, before: Room, after: Room)
  {
    && Evolves(before, after)
    && (forall x :: x in before.blocked && x !in after.blocked ==> Lifts(s, e, r, x, {Readmit}))
    && (forall x :: x in before.muted && x !in after.muted ==> Lifts(s, e, r, x, {AllowMic, Remove}))
  }

  ghost predicate Calm(before: Room, after: Room)
  {
    Evolves(before, after) && after.blocked == before.blocked && after.muted == before.muted
  }

  lemma RemoveStep(s: State, r: RoomId, target: Participant, first: bool, writes: bool)
    requires MembersBound(s) && r in s.rooms && s.rooms[r].initiator in s.rooms[r].members
    requires target != s.rooms[r].initiator
    ensures var t := RemoveTarget(s, r, target, first, writes).0;
            && r in t.rooms && Evolves(s.rooms[r], t.rooms[r])
            && s.rooms[r].blocked <= t.rooms[r].blocked
            && s.rooms[r].muted - {target} <= t.rooms[r].muted
  {
    var room := s.rooms[r];
    var t := RemoveTarget(s, r, target, first, writes).0;
    if target in room.members {
      var sid := room.members[target].session;
      assert In(s, r, target, sid);
      RemoveThenBlock(s, r, target, sid, first);
      var gone := WithoutMember(room, target).(blocked := room.blocked + {target});
      WithoutEvolves(room, target);
      EditEvolves(WithoutMember(room, target), gone);
      EvolvesTransitive(room, WithoutMember(room, target), gone);
      if t.rooms[r] != gone && t != s {
        EditEvolves(gone, t.rooms[r]);
        EvolvesTransitive(room, gone, t.rooms[r]);
      }
    }
  }

  lemma ModerateStep(s: State, sid: SessionId, r: RoomId, target: Participant, op: Moderation, first: bool,
                     writes: bool)
    requires MembersBound(s) && r in s.rooms && s.rooms[r].initiator in s.rooms[r].members
    ensures var t := Moderate(s, sid, r, target, op, first, writes).0;
            r in t.rooms && RoomStep(s, DoModerate(sid, r, target, op, first, writes), r, s.rooms[r], t.rooms[r])
  {
    var t := Moderate(s, sid, r, target, op, first, writes).0;
    if op.Remove? && t != s {
      RemoveStep(s, r, target, first, writes);
    } else {
      EditEvolves(s.rooms[r], t.rooms[r]);
    }
  }

  lemma RemoveMemberStep(s: State, sid: SessionId, x: RoomId, writes: bool, r: RoomId)
    requires r in s.rooms && x in s.rooms && sid in s.users && s.rooms[r].initiator in s.rooms[r].members
    requires s.users[sid] != s.rooms[x].initiator
    ensures var t := RemoveMember(s, sid, x, writes).0;
            r in t.rooms && Calm(s.rooms[r], t.rooms[r])
  {
    if x == r {
      WithoutEvolves(s.rooms[r], s.users[sid]);
    }
  }

  lemma LeaveStep(s: State, sid: SessionId, x: RoomId, writes: bool, r: RoomId)
    requires r in s.rooms && s.rooms[r].initiator in s.rooms[r].members
    ensures var t := Leave(s, sid, x, writes).0;
            r in t.rooms ==> Calm(s.rooms[r], t.rooms[r])
  {
    if sid in s.users && x in s.rooms && s.users[sid] != s.rooms[x].initiator {
      RemoveMemberStep(s, sid, x, writes, r);
    }
  }

  lemma JoinStep(s: State, sid: SessionId, x: RoomId, hash: string, a: string, k: string, writes: bool, r: RoomId)
    requires r in s.rooms && s.rooms[r].initiator in s.rooms[r].members
    ensures var t := Join(s, sid, x, hash, a, k, writes).0;
            r in t.rooms && Calm(s.rooms[r], t.rooms[r])
  {
    var t := Join(s, sid, x, hash, a, k, writes).0;
    if t.rooms[r] != s.rooms[r] {
      JoinedEvolves(s.rooms[r], s.users[sid], Member(a, k, sid));
    }
  }

  lemma ScreenControlNumbered(s: State, sid: SessionId, x: RoomId, request: ScreenRequest, share: string, r: RoomId)
    requires r in s.rooms
    ensures ScreenNumbered(s.rooms[r], ScreenControl(s, sid, x, request, share).0.rooms[r])
  {
  }

  lemma ScreenStep(s: State, sid: SessionId, x: RoomId, request: ScreenRequest, share: string, r: RoomId)
    requires RoomsSound(s) && r in s.rooms && s.rooms[r].initiator in s.rooms[r].members
    ensures var t := ScreenControl(s, sid, x, request, share).0;
            r in t.rooms && Calm(s.rooms[r], t.rooms[r])
  {
    if !ScreenControl(s, sid, x, request, share).1.Refused? {
      ScreenNextOk(s.rooms[x], s.users[sid], request, share, s.mono, s.nextSerial);
    }
    ScreenControlNumbered(s, sid, x, request, share, r);
    EditEvolves(s.rooms[r], ScreenControl(s, sid, x, request, share).0.rooms[r]);
  }

  lemma DisconnectStep(s: State, sid: SessionId, writes: bool, r: RoomId)
    requires r in s.rooms && s.rooms[r].initiator in s.rooms[r].members
    ensures var t := Disconnect(s, sid, writes).0;
            r in t.rooms ==> Calm(s.rooms[r], t.rooms[r])
  {
    if sid in s.sessionRooms {
      LeaveStep(s, sid, s.sessionRooms[sid], writes, r);
    }
  }

  lemma ExpireScreenStep(s: State, x: RoomId, share: string, r: RoomId)
    requires r in s.rooms && s.rooms[r].initiator in s.rooms[r].members
    ensures var t := ExpireScreen(s, x, share);
            r in t.rooms && Calm(s.rooms[r], t.rooms[r])
  {
    EditEvolves(s.rooms[r], ExpireScreen(s, x, share).rooms[r]);
  }

  lemma ComeStep(s: State, e: Coming, r: RoomId)
    requires r in s.rooms && s.rooms[r].initiator in s.rooms[r].members
    ensures r in Come(s, e).rooms && Calm(s.rooms[r], Come(s, e).rooms[r])
  {
    match e
    case DoCreate(sid, x, hash, a, k, writes) => EditEvolves(s.rooms[r], s.rooms[r]);
    case DoJoin(sid, x, hash, a, k, writes) => JoinStep(s, sid, x, hash, a, k, writes, r);
  }

  lemma GoStep(s: State, e: Going, r: RoomId)
    requires r in s.rooms && s.rooms[r].initiator in s.rooms[r].members
    ensures r in Go(s, e).rooms ==> Calm(s.rooms[r], Go(s, e).rooms[r])
  {
    match e
    case DoLeave(sid, x, writes) => LeaveStep(s, sid, x, writes, r);
    case DoDisconnect(sid, writes) => DisconnectStep(s, sid, writes, r);
    case DoExpireRoom(x) => EditEvolves(s.rooms[r], s.rooms[r]);
  }

  /** Without moderation no block and no mute is lifted. */
  lemma CalmStep(s: State, e: Event, r: RoomId)
    requires RoomsSound(s) && r in s.rooms && s.rooms[r].initiator in s.rooms[r].members && !e.DoModerate?
    ensures r in Apply(s, e).rooms ==> Calm(s.rooms[r], Apply(s, e).rooms[r])
  {
    match e
    case Comes(c) => ComeStep(s, c, r);
    case Goes(g) => GoStep(s, g, r);
    case DoScreen(sid, x, request, share) => ScreenStep(s, sid, x, request, share, r);
    case DoExpireScreen(x, share) => ExpireScreenStep(s, x, share, r);
    case Authenticate(_, _) => EditEvolves(s.rooms[r], s.rooms[r]);
    case Tick(_, _) => EditEvolves(s.rooms[r], s.rooms[r]);
  }

  /** Every event either ends a room, or moves it on as described. */
  lemma StepEvolves(s: State, e: Event, r: RoomId)
    requires MembersBound(s) && RoomsSound(s) && Enabled(s, e) && r in s.rooms
    ensures r in Apply(s, e).rooms ==> RoomStep(s, e, r, s.rooms[r], Apply(s, e).rooms[r])
  {
    assert RoomOk(s.rooms[r], s.nextSerial);
    if !e.DoModerate? {
      CalmStep(s, e, r);
    } else if e.room == r {
      ModerateStep(s, e.sid, r, e.target, e.op, e.firstWrite, e.writes);
    } else {
      ModerateElsewhere(s, e.sid, e.room, e.target, e.op, e.firstWrite, e.writes, r);
      EditEvolves(s.rooms[r], s.rooms[r]);
    }
  }

  lemma ModerateElsewhere(s: State, sid: SessionId, x: RoomId, target: Participant, op: Moderation, first: bool,
                          writes: bool, r: RoomId)
    requires r in s.rooms && r != x
    ensures var t := Moderate(s, sid, x, target, op, first, writes).0;
            r in t.rooms && t.rooms[r] == s.rooms[r]
  {
  }

  // ---------------------------------------------------------------- incarnations

  /** The incarnation of room `r` with this serial number does not exist. */
  predicate Gone(s: State, r: RoomId, serial: nat)
  {
    r !in s.rooms || s.rooms[r].serial != serial
  }

  lemma ModerateAddsNothing(s: State, sid: SessionId, x: RoomId, target: Participant, op: Moderation, first: bool,
                            writes: bool)
    ensures var t := Moderate(s, sid, x, target, op, first, writes).0;
            t.rooms.Keys == s.rooms.Keys && t.nextSerial == s.nextSerial
  {
    if IsActiveHost(s, sid, x) && op.Remove? {
      RemoveAddsNothing(s, x, target, first, writes);
    }
  }

  lemma RemoveAddsNothing(s: State, x: RoomId, target: Participant, first: bool, writes: bool)
    requires x in s.rooms
    ensures var t := RemoveTarget(s, x, target, first, writes).0;
            t.rooms.Keys == s.rooms.Keys && t.nextSerial == s.nextSerial
  {
  }

  lemma ComeSerial(s: State, e: Coming, r: RoomId)
    ensures var t := Come(s, e);
            && s.nextSerial <= t.nextSerial
            && (r in t.rooms && r !in s.rooms ==> t.rooms[r].serial == s.nextSerial)
  {
  }

  lemma GoSerial(s: State, e: Going, r: RoomId)
    ensures var t := Go(s, e);
            t.nextSerial == s.nextSerial && (r in t.rooms ==> r in s.rooms)
  {
  }

  /** A room that appears gets a number never used before. */
  lemma NewSerial(s: State, e: Event, r: RoomId)
    ensures var t := Apply(s, e);
            && s.nextSerial <= t.nextSerial
            && (r in t.rooms && r !in s.rooms ==> t.rooms[r].serial == s.nextSerial)
  {
    match e
    case Comes(c) => ComeSerial(s, c, r);
    case Goes(g) => GoSerial(s, g, r);
    case DoModerate(sid, x, target, op, first, writes) => ModerateAddsNothing(s, sid, x, target, op, first, writes);
    case _ =>
  }

  lemma StepStaysGone(s: State, e: Event, r: RoomId, serial: nat)
    requires Inv(s) && Enabled(s, e) && serial < s.nextSerial && Gone(s, r, serial)
    ensures Gone(Apply(s, e), r, serial) && serial < Apply(s, e).nextSerial
  {
    NewSerial(s, e, r);
    if r in s.rooms {
      StepEvolves(s, e, r);
    }
  }

  /** An incarnation that ended never comes back. */
  lemma {:induction false} StaysGone(s: State, run: seq<Event>, r: RoomId, serial: nat)
    requires Inv(s) && IsRun(s, run) && serial < s.nextSerial && Gone(s, r, serial)
    ensures Gone(After(s, run), r, serial)
    decreases |run|
  {
    if run != [] {
      StepStaysGone(s, run[0], r, serial);
      StepKeeps(s, run[0]);
      StaysGone(Apply(s, run[0]), run[1..], r, serial);
    }
  }

  /** The incarnation of `r` in `s` is still there after the run. */
  predicate Lives(s: State, run: seq<Event>, r: RoomId)
  {
    r in s.rooms && !Gone(After(s, run), r, s.rooms[r].serial)
  }

  lemma FirstStepAlive(s: State, run: seq<Event>, r: RoomId)
    requires Inv(s) && IsRun(s, run) && run != [] && Lives(s, run, r)
    ensures var t := Apply(s, run[0]);
            && Inv(t) && r in t.rooms && t.rooms[r].serial == s.rooms[r].serial && Lives(t, run[1..], r)
            && RoomStep(s, run[0], r, s.rooms[r], t.rooms[r])
  {
    var t := Apply(s, run[0]);
    StepKeeps(s, run[0]);
    StepEvolves(s, run[0], r);
    if Gone(t, r, s.rooms[r].serial) {
      NewSerial(s, run[0], r);
      StaysGone(t, run[1..], r, s.rooms[r].serial);
    }
  }

  lemma {:induction false} RunEvolves(s: State, run: seq<Event>, r: RoomId)
    requires Inv(s) && IsRun(s, run) && Lives(s, run, r)
    ensures Evolves(s.rooms[r], After(s, run).rooms[r])
    decreases |run|
  {
    if run == [] {
      assert RoomOk(s.rooms[r], s.nextSerial);
      EditEvolves(s.rooms[r], s.rooms[r]);
    } else {
      var t := Apply(s, run[0]);
      FirstStepAlive(s, run, r);
      RunEvolves(t, run[1..], r);
      EvolvesTransitive(s.rooms[r], t.rooms[r], After(s, run).rooms[r]);
    }
  }

  /**
   * Two snapshots of one room, taken anywhere in any run, that carry the same revision
   * show the same members, keys and mutes, two with the same screen revision the same presentation,
   * and the host is the same session throughout.
   */
  lemma SnapshotsAgree(first: seq<Event>, rest: seq<Event>, r: RoomId)
    requires IsRun(INITIAL, first) && IsRun(After(INITIAL, first), rest) && Lives(After(INITIAL, first), rest, r)
    ensures var a := After(INITIAL, first).rooms[r];
            var b := After(After(INITIAL, first), rest).rooms[r];
            && a.revision <= b.revision
            && (a.revision == b.revision ==> ViewOf(a) == ViewOf(b))
            && a.screenRevision <= b.screenRevision
            && (a.screenRevision == b.screenRevision ==> a.screenOwner == b.screenOwner && a.screenId == b.screenId)
            && a.initiator == b.initiator && a.initiator in a.members && a.initiator in b.members
            && a.members[a.initiator].session == b.members[a.initiator].session
  {
    RunKeeps(INITIAL, first);
    RunEvolves(After(INITIAL, first), rest, r);
  }

  /** No step of the run is a moderation of `x` in `r` by its host with one of these operations. */
  predicate NeverLifted(s: State, run: seq<Event>, r: RoomId, x: Participant, ops: set<Moderation>)
    decreases |run|
  {
    run == [] || (!Lifts(s, run[0], r, x, ops) && NeverLifted(Apply(s, run[0]), run[1..], r, x, ops))
  }

  /** A removed account is not a member again, in this room, before its host readmits it. */
  lemma {:induction false} RemovedStaysOut(s: State, run: seq<Event>, r: RoomId, x: Participant)
    requires Inv(s) && IsRun(s, run) && Lives(s, run, r)
    requires x in s.rooms[r].blocked && NeverLifted(s, run, r, x, {Readmit})
    ensures x in After(s, run).rooms[r].blocked && x !in After(s, run).rooms[r].members
    decreases |run|
  {
    if run == [] {
      assert RoomOk(s.rooms[r], s.nextSerial);
    } else {
      FirstStepAlive(s, run, r);
      RemovedStaysOut(Apply(s, run[0]), run[1..], r, x);
    }
  }

  /** From the removal itself, whichever of its writes fail: the account is out until its host readmits it. */
  lemma RemovalLasts(s: State, sid: SessionId, r: RoomId, x: Participant, first: bool, writes: bool, run: seq<Event>)
    requires Inv(s)
    requires
      var (t, outcome) := Moderate(s, sid, r, x, Remove, first, writes);
      && (outcome == Accepted || outcome == Refused(PolicyWriteFailed))
      && IsRun(t, run) && Lives(t, run, r) && NeverLifted(t, run, r, x, {Readmit})
    ensures x !in After(Moderate(s, sid, r, x, Remove, first, writes).0, run).rooms[r].members
  {
    RemoveMeans(s, sid, r, x, first, writes);
    ModerateKeeps(s, sid, r, x, Remove, first, writes);
    RemovedStaysOut(Moderate(s, sid, r, x, Remove, first, writes).0, run, r, x);
  }

  /**
   * A mute survives leaving, rejoining and new sessions until the host allows the microphone or
   * removes the account.
   */
  lemma {:induction false} MuteSurvives(s: State, run: seq<Event>, r: RoomId, x: Participant)
    requires Inv(s) && IsRun(s, run) && Lives(s, run, r)
    requires x in s.rooms[r].muted && NeverLifted(s, run, r, x, {AllowMic, Remove})
    ensures x in After(s, run).rooms[r].muted
    decreases |run|
  {
    if run != [] {
      FirstStepAlive(s, run, r);
      MuteSurvives(Apply(s, run[0]), run[1..], r, x);
    }
  }

  // --------------------------------------------------------------- who gets in

  /** The session itself creates or joins the room. */
  predicate Enters(e: Event, r: RoomId, sid: SessionId)
  {
    e.Comes? && e.coming.room == r && e.coming.sid == sid
  }

  lemma ComeMembership(s: State, e: Coming, r: RoomId, p: Participant, sid: SessionId)
    requires In(Come(s, e), r, p, sid) && !In(s, r, p, sid)
    ensures e.room == r && e.sid == sid
  {
  }

  lemma GoMembership(s: State, e: Going, r: RoomId, p: Participant, sid: SessionId)
    requires In(Go(s, e), r, p, sid)
    ensures In(s, r, p, sid)
  {
  }

  lemma ModerateMembership(s: State, x: SessionId, y: RoomId, target: Participant, op: Moderation, first: bool,
                           writes: bool, r: RoomId, p: Participant, sid: SessionId)
    requires In(Moderate(s, x, y, target, op, first, writes).0, r, p, sid)
    ensures In(s, r, p, sid)
  {
  }

  /** Nobody is put into a room by anyone else. */
  lemma StepMembership(s: State, e: Event, r: RoomId, p: Participant, sid: SessionId)
    requires RoomsSound(s) && In(Apply(s, e), r, p, sid) && !Enters(e, r, sid)
    ensures In(s, r, p, sid)
  {
    match e
    case Comes(c) => if !In(s, r, p, sid) { ComeMembership(s, c, r, p, sid); }
    case Goes(g) => GoMembership(s, g, r, p, sid);
    case DoModerate(x, y, target, op, first, writes) =>
      ModerateMembership(s, x, y, target, op, first, writes, r, p, sid);
    case DoScreen(x, y, request, share) =>
      if !ScreenControl(s, x, y, request, share).1.Refused? {
        ScreenNextOk(s.rooms[y], s.users[x], request, share, s.mono, s.nextSerial);
      }
    case _ =>
  }
}
