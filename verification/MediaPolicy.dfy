/**
 * The media process: it learns of membership and mutes only by reading the policy
 * files of the call service, through a cache that may be 250 ms old, and checks them
 * when a publication starts and again for every recipient. Checks of different
 * publications interleave with each other and with every step of the call service;
 * the time a check works with was read at some earlier moment.
 */
module MediaPolicy {
  import opened Outcomes
  import opened Bytes
  import opened CallRooms
  import opened CallFaultRuns

  const CACHE_MILLIS: int := 250
  const MAX_CACHED: nat := 1024

  /** A connection admitted by a grant, which always names a session. */
  datatype Principal = Principal(room: RoomId, participant: Participant, session: SessionId)

  /** A missing or unreadable file caches as the empty policy. */
  datatype Entry = Entry(value: Policy, checked: int)

  type Cache = map<RoomId, Entry>

  const NO_POLICY := Policy("", 0, map[], {})

  datatype Verdict = Verdict(allowed: bool, muted: bool)

  /** Looking up an account that is not in the file yields the empty string. */
  function SessionIn(value: Policy, p: Participant): SessionId
  {
    if p in value.members then value.members[p] else ""
  }

  function Judge(value: Policy, who: Principal, now: int): Verdict
  {
    if value.roomId != who.room || value.expiresAt <= now || SessionIn(value, who.participant) != who.session then
      Verdict(false, false)
    else Verdict(true, who.participant in value.muted)
  }

  predicate Stale(cache: Cache, room: RoomId, now: int)
  {
    room !in cache || now - cache[room].checked >= CACHE_MILLIS
  }

  function Refreshed(cache: Cache, disk: map<RoomId, Policy>, room: RoomId, now: int): Cache
  {
    var entry := Entry(if room in disk then disk[room] else NO_POLICY, now);
    (if |cache| >= MAX_CACHED then map[] else cache)[room := entry]
  }

  function Consulted(cache: Cache, disk: map<RoomId, Policy>, room: RoomId, now: int): (c: Cache)
    ensures room in c
  {
    if Stale(cache, room, now) then Refreshed(cache, disk, room, now) else cache
  }

  function Access(cache: Cache, disk: map<RoomId, Policy>, who: Principal, now: int): (Cache, Verdict)
  {
    var c := Consulted(cache, disk, who.room, now);
    (c, Judge(c[who.room].value, who, now))
  }

  /** What one look at the disk found for a room. */
  datatype Reading = Reading(room: RoomId, at: int, found: Option<Policy>)

  /** What a file says of a principal: a missing file and a file that does not list its session deny. */
  function Told(found: Option<Policy>, who: Principal, now: int): Verdict
  {
    if found.None? || found.value.roomId != who.room || found.value.expiresAt <= now
       || SessionIn(found.value, who.participant) != who.session then Verdict(false, false)
    else Verdict(true, who.participant in found.value.muted)
  }

  function Lookup(disk: map<RoomId, Policy>, room: RoomId): Option<Policy>
  {
    if room in disk then Some(disk[room]) else None
  }

  /** A missing file is cached as the empty policy. */
  function Kept(found: Option<Policy>): Policy
  {
    if found.None? then NO_POLICY else found.value
  }

  predicate Tells(reading: Reading, r: RoomId, entry: Entry)
  {
    reading.room == r && reading.at == entry.checked && Kept(reading.found) == entry.value
  }

  /** Some reading found what the entry says. */
  predicate Backed(readings: seq<Reading>, r: RoomId, entry: Entry)
  {
    exists k :: 0 <= k < |readings| && Tells(readings[k], r, entry)
  }

  lemma BackedStill(readings: seq<Reading>, more: Reading, r: RoomId, entry: Entry)
    requires Backed(readings, r, entry) || Tells(more, r, entry)
    ensures Backed(readings + [more], r, entry)
  {
    if Tells(more, r, entry) {
      assert (readings + [more])[|readings|] == more;
    } else {
      var k :| 0 <= k < |readings| && Tells(readings[k], r, entry);
      assert (readings + [more])[k] == readings[k];
    }
  }

  /** The policy store as the media process keeps it, with the log of everything it has read. */
  class RoomPolicyStore {
    var cached: Cache
    ghost var readings: seq<Reading>

    /** Every cached entry is what some reading found. */
    ghost predicate Valid()
      reads this
    {
      |cached| <= MAX_CACHED && forall r :: r in cached ==> Backed(readings, r, cached[r])
    }

    constructor ()
      ensures Valid() && cached == map[] && readings == []
    {
      cached := map[];
      readings := [];
    }

    /** Reads the file of a room; a full cache is emptied first. */
    method Refresh(room: RoomId, now: int, disk: map<RoomId, Policy>)
      requires Valid()
      modifies this
      ensures Valid() && cached == Refreshed(old(cached), disk, room, now)
      ensures readings == old(readings) + [Reading(room, now, Lookup(disk, room))]
    {
      var found := Lookup(disk, room);
      if |cached| >= MAX_CACHED {
        cached := map[];
      }
      cached := cached[room := Entry(Kept(found), now)];
      forall r | r in cached ensures Backed(readings + [Reading(room, now, found)], r, cached[r]) {
        BackedStill(readings, Reading(room, now, found), r, cached[r]);
      }
      readings := readings + [Reading(room, now, found)];
    }

    /**
     * Answers by a reading of that room's file made less than 250 ms before, and makes a
     * new one of the present file only when there is none.
     */
    method Check(who: Principal, now: int, disk: map<RoomId, Policy>) returns (allowed: bool, muted: bool)
      requires Valid() && who.room != ""
      modifies this
      ensures Valid() && (cached, Verdict(allowed, muted)) == Access(old(cached), disk, who, now)
      ensures readings ==
        if Stale(old(cached), who.room, now)
        then old(readings) + [Reading(who.room, now, Lookup(disk, who.room))]
        else old(readings)
      ensures exists k :: 0 <= k < |readings| && readings[k].room == who.room && now - readings[k].at < CACHE_MILLIS
                          && Verdict(allowed, muted) == Told(readings[k].found, who, now)
    {
      if who.room !in cached || now - cached[who.room].checked >= CACHE_MILLIS {
        Refresh(who.room, now, disk);
      }
      assert Backed(readings, who.room, cached[who.room]);
      var value := cached[who.room].value;
      if value.roomId != who.room || value.expiresAt <= now || SessionIn(value, who.participant) != who.session {
        return false, false;
      }
      return true, who.participant in value.muted;
    }
  }

  // ------------------------------------------------------------------- routing

  const AUDIO := "audio"

  function TrackKey(room: RoomId, participant: Participant, track: string): string
  {
    room + ['\0'] + participant + ['\0'] + track
  }

  lemma {:induction false} NoNul(id: string, i: nat)
    requires SafeId(id) && i < |id|
    ensures id[i] != '\0'
  {
    assert SafeChar(id[i]);
  }

  /** On safe identifiers the key determines the room, the participant and the track. */
  lemma TrackKeyInjective(r: RoomId, p: Participant, t: string, r': RoomId, p': Participant, t': string)
    requires SafeId(r) && SafeId(p) && SafeId(r') && SafeId(p')
    requires TrackKey(r, p, t) == TrackKey(r', p', t')
    ensures r == r' && p == p' && t == t'
  {
    assert TrackKey(r, p, t) == r + ['\0'] + (p + ['\0'] + t);
    assert TrackKey(r', p', t') == r' + ['\0'] + (p' + ['\0'] + t');
    SplitAtNul(r, p + ['\0'] + t, r', p' + ['\0'] + t');
    SplitAtNul(p, t, p', t');
  }

  lemma SplitAtNul(a: string, x: string, b: string, y: string)
    requires SafeId(a) && SafeId(b)
    requires a + ['\0'] + x == b + ['\0'] + y
    ensures a == b && x == y
  {
    var s := a + ['\0'] + x;
    assert s == b + ['\0'] + y;
    assert s[|a|] == '\0' && s[|b|] == '\0';
    if |a| < |b| {
      assert s[|a|] == b[|a|];
      NoNul(b, |a|);
    } else if |b| < |a| {
      assert s[|b|] == a[|b|];
      NoNul(a, |b|);
    }
    assert a == s[..|a|] && b == s[..|b|];
    assert x == s[|a| + 1..] && y == s[|b| + 1..];
  }

  // ------------------------------------------------- both processes, step by step

  const MAX_DATAGRAM_BYTES: nat := 1024
  const MAX_RELIABLE_BYTES: nat := 1024 * 1024

  /** A published object, to be forwarded reliably or as a datagram. */
  datatype Object = Object(payload: ByteString, reliable: bool)

  predicate Forwardable(o: Object)
  {
    o.payload != [] && |o.payload| <= if o.reliable then MAX_RELIABLE_BYTES else MAX_DATAGRAM_BYTES
  }

  /** `subject` is the participant whose track is followed; rooms are never crossed. */
  datatype Sub = Sub(id: nat, owner: Principal, subject: Participant, track: string)

  /** A publication that passed its first check; `pending` are the recipients still to be checked. */
  datatype Flight = Flight(source: Principal, track: string, item: Object, began: int, pending: set<Sub>)

  /** A copy of the object handed to the queue of one subscription. */
  datatype Delivery = Delivery(source: Principal, track: string, item: Object, began: int, to: Sub, at: int)

  datatype Media = Media(
    call: State,
    cache: Cache,
    subscriptions: map<string, set<Sub>>,
    flights: map<nat, Flight>,
    sent: seq<Delivery>)

  datatype MediaEvent =
    | Service(step: Step)
    | Look(who: Principal, now: int)
    | Subscribe(sub: Sub)
    | RemoveOwner(owner: Principal)
    | Begin(flight: nat, source: Principal, track: string, item: Object, now: int)
    | Next(flight: nat, sub: Sub, now: int)

  predicate ValidPrincipal(who: Principal)
  {
    SafeId(who.room) && SafeId(who.participant) && who.session != ""
  }

  predicate MediaEnabled(m: Media, e: MediaEvent)
  {
    match e
    case Service(c) => StepEnabled(m.call, c)
    case Look(_, now) => now <= m.call.now
    case Subscribe(sub) => ValidPrincipal(sub.owner) && SafeId(sub.subject)
    case RemoveOwner(_) => true
    case Begin(f, source, _, _, now) => f !in m.flights && now <= m.call.now && ValidPrincipal(source)
    case Next(f, sub, now) => f in m.flights && sub in m.flights[f].pending && now <= m.call.now
  }

  function KeyOf(sub: Sub): string
  {
    TrackKey(sub.owner.room, sub.subject, sub.track)
  }

  function At(m: map<string, set<Sub>>, key: string): set<Sub>
  {
    if key in m then m[key] else {}
  }

  predicate Passes(v: Verdict, track: string)
  {
    v.allowed && !(v.muted && track == AUDIO)
  }

  function Begun(m: Media, f: nat, source: Principal, track: string, item: Object, now: int): Media
  {
    var (cache, verdict) := Access(m.cache, m.call.policies, source, now);
    var t := m.(cache := cache);
    if !Passes(verdict, track) || !Forwardable(item) then t
    else
      t.(flights := m.flights[f := Flight(source, track, item, now,
           At(m.subscriptions, TrackKey(source.room, source.participant, track)))])
  }

  /** A recipient is served when its own check passes and it is still subscribed. */
  function Checked(m: Media, f: nat, sub: Sub, now: int): Media
    requires f in m.flights
  {
    var flight := m.flights[f];
    var (cache, verdict) := Access(m.cache, m.call.policies, sub.owner, now);
    m.(cache := cache,
       flights := m.flights[f := flight.(pending := flight.pending - {sub})],
       sent := if verdict.allowed && sub in At(m.subscriptions, KeyOf(sub))
               then m.sent + [Delivery(flight.source, flight.track, flight.item, flight.began, sub, now)] else m.sent)
  }

  function MediaApply(m: Media, e: MediaEvent): Media
    requires MediaEnabled(m, e)
  {
    match e
    case Service(c) => m.(call := StepApply(m.call, c))
    case Look(who, now) => m.(cache := Access(m.cache, m.call.policies, who, now).0)
    case Subscribe(sub) => m.(subscriptions := m.subscriptions[KeyOf(sub) := At(m.subscriptions, KeyOf(sub)) + {sub}])
    case RemoveOwner(owner) =>
      m.(subscriptions := map k | k in m.subscriptions :: set x | x in m.subscriptions[k] && x.owner != owner)
    case Begin(f, source, track, item, now) => Begun(m, f, source, track, item, now)
    case Next(f, sub, now) => Checked(m, f, sub, now)
  }

  predicate IsMediaRun(m: Media, run: seq<MediaEvent>)
    decreases |run|
  {
    run == [] || (MediaEnabled(m, run[0]) && IsMediaRun(MediaApply(m, run[0]), run[1..]))
  }

  function MediaAfter(m: Media, run: seq<MediaEvent>): Media
    requires IsMediaRun(m, run)
    decreases |run|
  {
    if run == [] then m else MediaAfter(MediaApply(m, run[0]), run[1..])
  }

  const MEDIA_INITIAL := Media(CallRooms.INITIAL, map[], map[], map[], [])

  // ----------------------------------------------------------------- invariant

  /** Subscriptions are filed under their key, flights carry only subscriptions of their key. */
  ghost predicate Routed(m: Media)
  {
    && (forall k, x :: k in m.subscriptions && x in m.subscriptions[k] ==>
          k == KeyOf(x) && ValidPrincipal(x.owner) && SafeId(x.subject))
    && (forall f :: f in m.flights ==> ValidPrincipal(m.flights[f].source))
    && (forall f, x :: f in m.flights && x in m.flights[f].pending ==>
          && KeyOf(x) == TrackKey(m.flights[f].source.room, m.flights[f].source.participant, m.flights[f].track)
          && ValidPrincipal(x.owner) && SafeId(x.subject))
  }

  /** Nothing is dated in the future. */
  ghost predicate Timely(m: Media)
  {
    && (forall r :: r in m.cache ==> m.cache[r].checked <= m.call.now)
    && (forall f :: f in m.flights ==> m.flights[f].began <= m.call.now)
  }

  /** Deliveries stay inside one room, participant and track. */
  predicate WellRouted(d: Delivery)
  {
    d.to.owner.room == d.source.room && d.to.subject == d.source.participant && d.to.track == d.track
  }

  ghost predicate MediaInv(m: Media)
  {
    FaultInv(m.call) && Routed(m) && Timely(m) && forall d :: d in m.sent ==> WellRouted(d)
  }
}
