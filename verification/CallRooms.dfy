/**
 * Call rooms: who is in which room, who is blocked or muted, who presents, and the
 * policy file through which the media process learns of it. Every handler is a
 * function from the old state to the new one and an outcome; `writes` flags say
 * whether the policy file could be written (a failed write removes the old file).
 */
module CallRooms {

  type RoomId = string
  type Participant = string
  type SessionId = string

  const MAX_ROOMS: nat := 1024
  const MAX_PARTICIPANTS: nat := 32
  const MAX_BLOCKED: nat := 256
  const MAX_MUTED: nat := 256
  const MAX_CALL_MILLIS: int := 3 * 60 * 60 * 1000
  const SCREEN_LEASE_MILLIS: int := 45000

  datatype Member = Member(agreementKey: string, signingKey: string, session: SessionId)

  /** `serial` numbers the incarnations of rooms; it is never reused. */
  datatype Room = Room(
    serial: nat,
    initiator: Participant,
    inviteHash: string,
    expiresAt: int,
    revision: nat,
    members: map<Participant, Member>,
    screenOwner: Participant,
    screenId: string,
    screenRevision: nat,
    screenExpires: int,
    blocked: set<Participant>,
    muted: set<Participant>)

  datatype Policy = Policy(roomId: RoomId, expiresAt: int, members: map<Participant, SessionId>,
                           muted: set<Participant>)

  /** `users` are the authenticated sessions; a session's account never changes. */
  datatype State = State(
    rooms: map<RoomId, Room>,
    sessionRooms: map<SessionId, RoomId>,
    users: map<SessionId, Participant>,
    policies: map<RoomId, Policy>,
    nextSerial: nat,
    now: int,
    mono: int)

  datatype Outcome =
    | Accepted
    | CallUnavailable
    | CallRemoved
    | ParticipantLeft
    | ScreenBusy
    | ScreenNotOwner
    | Refused(error: CallError)

  datatype CallError =
    | NotAuthenticated | InvalidParticipant | AlreadyInCall | RoomExists | RoomCapacity | InvalidInvitation
    | ParticipantActive | ParticipantCapacity | NotInRoom | NotModerator | CannotModerateSelf
    | BlockLimit | MuteLimit | NotSharing | PolicyWriteFailed

  datatype Moderation = Mute | AllowMic | Remove | Readmit

  datatype ScreenRequest = ScreenStart | ScreenStop | ScreenRenew

  predicate SafeChar(c: char)
  {
    ('A' <= c <= 'Z') || ('a' <= c <= 'z') || ('0' <= c <= '9') || c == '_' || c == '-'
  }

  predicate SafeId(s: string)
  {
    3 <= |s| <= 128 && forall i :: 0 <= i < |s| ==> SafeChar(s[i])
  }

  // -------------------------------------------------------------- pieces of rooms

  function PolicyOf(r: RoomId, room: Room): Policy
  {
    Policy(r, room.expiresAt, map p | p in room.members :: room.members[p].session, room.muted * room.members.Keys)
  }

  function ClearScreen(room: Room): Room
  {
    room.(screenOwner := "", screenId := "", screenExpires := 0, screenRevision := room.screenRevision + 1)
  }

  function WithoutMember(room: Room, p: Participant): Room
  {
    var room' := room.(members := room.members - {p}, revision := room.revision + 1);
    if room.screenOwner == p then ClearScreen(room') else room'
  }

  function WritePolicy(s: State, r: RoomId, writes: bool): State
    requires r in s.rooms
  {
    s.(policies := if writes then s.policies[r := PolicyOf(r, s.rooms[r])] else s.policies - {r})
  }

  function Write(s: State, r: RoomId, writes: bool): (State, Outcome)
    requires r in s.rooms
  {
    (WritePolicy(s, r, writes), if writes then Accepted else Refused(PolicyWriteFailed))
  }

  // -------------------------------------------------------------------- handlers

  function NewRoom(s: State, sid: SessionId, inviteHash: string, agreementKey: string, signingKey: string): Room
    requires sid in s.users
  {
    Room(s.nextSerial, s.users[sid], inviteHash, s.now + MAX_CALL_MILLIS, 1,
         map[s.users[sid] := Member(agreementKey, signingKey, sid)], "", "", 1, 0, {}, {})
  }

  function Create(s: State, sid: SessionId, r: RoomId, inviteHash: string, agreementKey: string, signingKey: string,
                  writes: bool)
    : (State, Outcome)
  {
    if sid !in s.users then (s, Refused(NotAuthenticated))
    else if !SafeId(s.users[sid]) then (s, Refused(InvalidParticipant))
    else if sid in s.sessionRooms then (s, Refused(AlreadyInCall))
    else if r in s.rooms then (s, Refused(RoomExists))
    else if |s.rooms| >= MAX_ROOMS then (s, Refused(RoomCapacity))
    else
      if writes then
        var room := NewRoom(s, sid, inviteHash, agreementKey, signingKey);
        var entered := s.(rooms := s.rooms[r := room], sessionRooms := s.sessionRooms[sid := r],
                          nextSerial := s.nextSerial + 1);
        (WritePolicy(entered, r, true), Accepted)
      else (s.(policies := s.policies - {r}), Refused(PolicyWriteFailed))
  }

  /** The comparison of members ignores the session. */
  predicate SameKeys(a: Member, b: Member)
  {
    a.agreementKey == b.agreementKey && a.signingKey == b.signingKey
  }

  function Joined(room: Room, p: Participant, member: Member): Room
  {
    var changed := p !in room.members || !SameKeys(room.members[p], member);
    room.(members := room.members[p := member], revision := if changed then room.revision + 1 else room.revision)
  }

  function Join(s: State, sid: SessionId, r: RoomId, inviteHash: string, agreementKey: string, signingKey: string,
                writes: bool)
    : (State, Outcome)
  {
    if sid !in s.users then (s, Refused(NotAuthenticated))
    else if !SafeId(s.users[sid]) then (s, Refused(InvalidParticipant))
    else if sid in s.sessionRooms && s.sessionRooms[sid] != r then (s, Refused(AlreadyInCall))
    else if r !in s.rooms || s.rooms[r].expiresAt <= s.now then (s, CallUnavailable)
    else
      var p, room := s.users[sid], s.rooms[r];
      if inviteHash != room.inviteHash then (s, Refused(InvalidInvitation))
      else if p in room.blocked then (s, CallRemoved)
      else if p in room.members && room.members[p].session != sid then (s, Refused(ParticipantActive))
      else if p !in room.members && |room.members| >= MAX_PARTICIPANTS then (s, Refused(ParticipantCapacity))
      else
        var room' := Joined(room, p, Member(agreementKey, signingKey, sid));
        Write(s.(rooms := s.rooms[r := room'], sessionRooms := s.sessionRooms[sid := r]), r, writes)
  }

  function SessionsOf(room: Room): set<SessionId>
  {
    set p | p in room.members :: room.members[p].session
  }

  function EndRoom(s: State, r: RoomId): State
    requires r in s.rooms
  {
    s.(rooms := s.rooms - {r}, policies := s.policies - {r}, sessionRooms := s.sessionRooms - SessionsOf(s.rooms[r]))
  }

  /** Removes the session's account from the room, if the account is there with this very session. */
  function RemoveMember(s: State, sid: SessionId, r: RoomId, writes: bool): (State, Outcome)
    requires r in s.rooms && sid in s.users
  {
    var p, room := s.users[sid], s.rooms[r];
    if p !in room.members || room.members[p].session != sid then (s, Accepted)
    else
      Write(s.(rooms := s.rooms[r := WithoutMember(room, p)], sessionRooms := s.sessionRooms - {sid}), r, writes)
  }

  function Leave(s: State, sid: SessionId, r: RoomId, writes: bool): (State, Outcome)
  {
    if sid !in s.users then (s, Refused(NotAuthenticated))
    else if sid !in s.sessionRooms || s.sessionRooms[sid] != r || r !in s.rooms then (s, Refused(NotInRoom))
    else if s.users[sid] == s.rooms[r].initiator then (EndRoom(s, r), Accepted)
    else RemoveMember(s, sid, r, writes)
  }

  function Disconnect(s: State, sid: SessionId, writes: bool): (State, Outcome)
  {
    if sid !in s.users || sid !in s.sessionRooms || s.sessionRooms[sid] !in s.rooms then (s, Accepted)
    else
      var r := s.sessionRooms[sid];
      if s.users[sid] == s.rooms[r].initiator then (EndRoom(s, r), Accepted)
      else RemoveMember(s, sid, r, writes)
  }

  predicate IsActiveHost(s: State, sid: SessionId, r: RoomId)
  {
    && sid in s.users && r in s.rooms
    && s.users[sid] == s.rooms[r].initiator
    && s.users[sid] in s.rooms[r].members && s.rooms[r].members[s.users[sid]].session == sid
    && s.rooms[r].expiresAt > s.now
  }

  /** Blocks the target and, if it is present, takes it out of the room first. */
  function RemoveTarget(s: State, r: RoomId, target: Participant, firstWrite: bool, writes: bool): (State, Outcome)
    requires r in s.rooms
  {
    var room := s.rooms[r];
    if |room.blocked| >= MAX_BLOCKED && target !in room.blocked then (s, Refused(BlockLimit))
    else
      var blocked := s.(rooms := s.rooms[r := room.(blocked := room.blocked + {target})]);
      if target in room.members && room.members[target].session in s.users then
        var (t, outcome) := RemoveMember(blocked, room.members[target].session, r, firstWrite);
        if outcome.Refused? then (t, outcome) else Unmuted(t, r, target, writes)
      else Unmuted(blocked, r, target, writes)
  }

  function Unmuted(s: State, r: RoomId, target: Participant, writes: bool): (State, Outcome)
    requires r in s.rooms
  {
    var room := s.rooms[r];
    Write(s.(rooms := s.rooms[r := room.(muted := room.muted - {target}, revision := room.revision + 1)]), r, writes)
  }

  function Readmitted(s: State, r: RoomId, target: Participant, writes: bool): (State, Outcome)
    requires r in s.rooms
  {
    var room := s.rooms[r];
    Write(s.(rooms := s.rooms[r := room.(blocked := room.blocked - {target}, revision := room.revision + 1)]),
          r, writes)
  }

  function Muted(s: State, r: RoomId, target: Participant, writes: bool): (State, Outcome)
    requires r in s.rooms
  {
    var room := s.rooms[r];
    if |room.muted| >= MAX_MUTED && target !in room.muted then (s, Refused(MuteLimit))
    else
      Write(s.(rooms := s.rooms[r := room.(muted := room.muted + {target}, revision := room.revision + 1)]), r, writes)
  }

  function Moderate(s: State, sid: SessionId, r: RoomId, target: Participant, op: Moderation, firstWrite: bool,
                    writes: bool)
    : (State, Outcome)
  {
    if !IsActiveHost(s, sid, r) then (s, Refused(NotModerator))
    else if target == s.users[sid] then (s, Refused(CannotModerateSelf))
    else
      var room := s.rooms[r];
      if !op.Readmit? && target !in room.members && !(op.Remove? && target in room.blocked) then (s, ParticipantLeft)
      else
        match op
        case Readmit => Readmitted(s, r, target, writes)
        case Remove => RemoveTarget(s, r, target, firstWrite, writes)
        case AllowMic => Unmuted(s, r, target, writes)
        case Mute => Muted(s, r, target, writes)
  }

  /** A lapsed presentation is cleared before the request is looked at. */
  function Unlapsed(room: Room, mono: int): Room
  {
    if room.screenId != "" && room.screenExpires <= mono then ClearScreen(room) else room
  }

  function ScreenNext(lapsed: Room, p: Participant, request: ScreenRequest, shareId: string, mono: int): (Room, Outcome)
  {
    var room := Unlapsed(lapsed, mono);
    var owns := room.screenOwner == p && room.screenId == shareId;
    var expires := mono + SCREEN_LEASE_MILLIS;
    match request
    case ScreenStart =>
      if owns then (room.(screenExpires := expires), Accepted)
      else if room.screenId == "" then
        (room.(screenOwner := p, screenId := shareId,
               screenRevision := room.screenRevision + 1, screenExpires := expires), Accepted)
      else (room, ScreenBusy)
    case ScreenStop =>
      if owns then (ClearScreen(room), Accepted)
      else (room, if room.screenId == "" then Accepted else ScreenNotOwner)
    case ScreenRenew =>
      if owns then (room.(screenExpires := expires), Accepted) else (room, ScreenNotOwner)
  }

  function ScreenControl(s: State, sid: SessionId, r: RoomId, request: ScreenRequest, shareId: string): (State, Outcome)
  {
    if sid !in s.users || r !in s.rooms || s.users[sid] !in s.rooms[r].members
       || s.rooms[r].members[s.users[sid]].session != sid || s.rooms[r].expiresAt <= s.now || shareId == "" then
      (s, Refused(NotSharing))
    else
      var (room, outcome) := ScreenNext(s.rooms[r], s.users[sid], request, shareId, s.mono);
      (s.(rooms := s.rooms[r := room]), outcome)
  }

  function ExpireScreen(s: State, r: RoomId, shareId: string): State
  {
    if r !in s.rooms || s.rooms[r].screenId != shareId || s.rooms[r].screenExpires > s.mono then s
    else s.(rooms := s.rooms[r := ClearScreen(s.rooms[r])])
  }

  /** The timer of a room ends whatever room now bears the name. */
  function ExpireRoom(s: State, r: RoomId): State
  {
    if r in s.rooms then EndRoom(s, r) else s
  }

  // ------------------------------------------------------------------------ runs

  datatype Coming =
    | DoCreate(sid: SessionId, room: RoomId, inviteHash: string, agreementKey: string, signingKey: string, writes: bool)
    | DoJoin(sid: SessionId, room: RoomId, inviteHash: string, agreementKey: string, signingKey: string, writes: bool)

  datatype Going =
    | DoLeave(sid: SessionId, room: RoomId, writes: bool)
    | DoDisconnect(sid: SessionId, writes: bool)
    | DoExpireRoom(room: RoomId)

  datatype Event =
    | Comes(coming: Coming)
    | Goes(going: Going)
    | DoModerate(sid: SessionId, room: RoomId, target: Participant, op: Moderation, firstWrite: bool, writes: bool)
    | DoScreen(sid: SessionId, room: RoomId, request: ScreenRequest, shareId: string)
    | DoExpireScreen(room: RoomId, shareId: string)
    | Authenticate(sid: SessionId, user: Participant)
    | Tick(now: int, mono: int)

  predicate Enabled(s: State, e: Event)
  {
    match e
    case Authenticate(sid, _) => sid !in s.users
    case Tick(now, mono) => s.now <= now && s.mono <= mono
    case _ => true
  }

  function Come(s: State, e: Coming): State
  {
    match e
    case DoCreate(sid, r, hash, a, k, writes) => Create(s, sid, r, hash, a, k, writes).0
    case DoJoin(sid, r, hash, a, k, writes) => Join(s, sid, r, hash, a, k, writes).0
  }

  function Go(s: State, e: Going): State
  {
    match e
    case DoLeave(sid, r, writes) => Leave(s, sid, r, writes).0
    case DoDisconnect(sid, writes) => Disconnect(s, sid, writes).0
    case DoExpireRoom(r) => ExpireRoom(s, r)
  }

  function Apply(s: State, e: Event): State
  {
    match e
    case Comes(c) => Come(s, c)
    case Goes(g) => Go(s, g)
    case DoModerate(sid, r, target, op, first, writes) => Moderate(s, sid, r, target, op, first, writes).0
    case DoScreen(sid, r, request, share) => ScreenControl(s, sid, r, request, share).0
    case DoExpireScreen(r, share) => ExpireScreen(s, r, share)
    case Authenticate(sid, user) => s.(users := s.users[sid := user])
    case Tick(now, mono) => s.(now := now, mono := mono)
  }

  predicate IsRun(s: State, run: seq<Event>)
    decreases |run|
  {
    run == [] || (Enabled(s, run[0]) && IsRun(Apply(s, run[0]), run[1..]))
  }

  function After(s: State, run: seq<Event>): State
    decreases |run|
  {
    if run == [] then s else After(Apply(s, run[0]), run[1..])
  }

  const INITIAL := State(map[], map[], map[], map[], 0, 0, 0)
}
