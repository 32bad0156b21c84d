/** What a published object can and cannot reach, across both processes. */
module MediaSafety {
  import opened CallRooms
  import opened CallSafety
  import opened CallFaultRuns
  import opened MediaPolicy

  // --------------------------------------------------------------- the invariant

  lemma ComeClock(s: State, e: Coming)
    ensures Come(s, e).now == s.now
  {
  }

  lemma GoClock(s: State, e: Going)
    ensures Go(s, e).now == s.now
  {
  }

  lemma ModerateClock(s: State, sid: SessionId, r: RoomId, target: Participant, op: Moderation, first: bool,
                      writes: bool)
    ensures Moderate(s, sid, r, target, op, first, writes).0.now == s.now
  {
  }

  lemma EventClock(s: State, e: Event)
    requires CallRooms.Enabled(s, e)
    ensures s.now <= CallRooms.Apply(s, e).now
  {
    match e
    case Comes(c) => ComeClock(s, c);
    case Goes(g) => GoClock(s, g);
    case DoModerate(sid, r, target, op, first, writes) => ModerateClock(s, sid, r, target, op, first, writes);
    case _ =>
  }

  lemma FaultClock(s: State, f: Fault)
    requires FaultEnabled(s, f)
    ensures FaultApply(s, f).now == s.now
  {
  }

  lemma ServiceClock(s: State, e: Step)
    requires StepEnabled(s, e)
    ensures s.now <= StepApply(s, e).now
  {
    match e
    case Done(event) => EventClock(s, event);
    case Faulty(f) => FaultClock(s, f);
  }

  /** A check either leaves an entry alone or replaces it by what is on disk, dated now. */
  lemma ConsultedEntry(cache: Cache, disk: map<RoomId, Policy>, room: RoomId, now: int, r: RoomId)
    requires r in Consulted(cache, disk, room, now)
    ensures var c := Consulted(cache, disk, room, now);
            || (r in cache && c[r] == cache[r] && (r == room ==> now - cache[r].checked < CACHE_MILLIS))
            || (r == room && c[r] == Entry(if room in disk then disk[room] else NO_POLICY, now))
  {
  }

  lemma CacheTimely(m: Media, who: Principal, now: int, r: RoomId)
    requires Timely(m) && now <= m.call.now && r in Access(m.cache, m.call.policies, who, now).0
    ensures Access(m.cache, m.call.policies, who, now).0[r].checked <= m.call.now
  {
    ConsultedEntry(m.cache, m.call.policies, who.room, now, r);
  }

  lemma BegunFlights(m: Media, f: nat, source: Principal, track: string, item: Object, now: int)
    ensures
      var t := Begun(m, f, source, track, item, now);
      && t.subscriptions == m.subscriptions
      && (t.flights == m.flights
          || t.flights == m.flights[f := Flight(source, track, item, now,
               At(m.subscriptions, TrackKey(source.room, source.participant, track)))])
  {
  }

  /** What a publication changes: the cache, and the table of flights if it passes its check. */
  lemma BegunEffect(m: Media, f: nat, source: Principal, track: string, item: Object, now: int)
    ensures
      var t, access := Begun(m, f, source, track, item, now), Access(m.cache, m.call.policies, source, now);
      && t.call == m.call && t.cache == access.0
      && (|| t.flights == m.flights
          || (&& Passes(access.1, track) && f in t.flights && t.flights == m.flights[f := t.flights[f]]
              && t.flights[f].source == source && t.flights[f].track == track && t.flights[f].began == now))
  {
  }

  /** A flight that starts with the subscribers of its own track. */
  lemma FlightRouted(m: Media, t: Media, f: nat, flight: Flight)
    requires Routed(m) && ValidPrincipal(flight.source) && t.subscriptions == m.subscriptions
    requires t.flights == m.flights[f := flight]
    requires flight.pending ==
      At(m.subscriptions, TrackKey(flight.source.room, flight.source.participant, flight.track))
    ensures Routed(t)
  {
  }

  lemma BeginRouted(m: Media, f: nat, source: Principal, track: string, item: Object, now: int)
    requires Routed(m) && ValidPrincipal(source)
    ensures Routed(Begun(m, f, source, track, item, now))
  {
    var t := Begun(m, f, source, track, item, now);
    BegunFlights(m, f, source, track, item, now);
    if t.flights != m.flights {
      FlightRouted(m, t, f,
                   Flight(source, track, item, now,
                          At(m.subscriptions, TrackKey(source.room, source.participant, track))));
    }
  }

  lemma BeginTimely(m: Media, f: nat, source: Principal, track: string, item: Object, now: int)
    requires Timely(m) && now <= m.call.now
    ensures Timely(Begun(m, f, source, track, item, now))
  {
    var t := Begun(m, f, source, track, item, now);
    forall r | r in t.cache
      ensures t.cache[r].checked <= t.call.now
    {
      CacheTimely(m, source, now, r);
    }
  }

  lemma DeliveryRouted(m: Media, f: nat, sub: Sub)
    requires Routed(m) && f in m.flights && sub in m.flights[f].pending
    ensures var flight := m.flights[f];
            && sub.owner.room == flight.source.room && sub.subject == flight.source.participant
            && sub.track == flight.track
  {
    var flight := m.flights[f];
    TrackKeyInjective(sub.owner.room, sub.subject, sub.track,
                      flight.source.room, flight.source.participant, flight.track);
  }

  lemma NextRouted(m: Media, f: nat, sub: Sub, now: int)
    requires Routed(m) && f in m.flights
    ensures Routed(Checked(m, f, sub, now))
  {
  }

  lemma NextTimely(m: Media, f: nat, sub: Sub, now: int)
    requires Timely(m) && f in m.flights && now <= m.call.now
    ensures Timely(Checked(m, f, sub, now))
  {
    var t := Checked(m, f, sub, now);
    forall r | r in t.cache
      ensures t.cache[r].checked <= t.call.now
    {
      CacheTimely(m, sub.owner, now, r);
    }
  }

  lemma SubscribeRouted(m: Media, sub: Sub)
    requires Routed(m) && ValidPrincipal(sub.owner) && SafeId(sub.subject)
    ensures Routed(MediaApply(m, Subscribe(sub)))
  {
  }

  lemma RemoveOwnerRouted(m: Media, owner: Principal)
    requires Routed(m)
    ensures Routed(MediaApply(m, RemoveOwner(owner)))
  {
  }

  lemma LookTimely(m: Media, who: Principal, now: int)
    requires Timely(m) && now <= m.call.now
    ensures Timely(MediaApply(m, Look(who, now)))
  {
    var t := MediaApply(m, Look(who, now));
    forall r | r in t.cache
      ensures t.cache[r].checked <= t.call.now
    {
      CacheTimely(m, who, now, r);
    }
  }

  lemma StepRouted(m: Media, e: MediaEvent)
    requires Routed(m) && MediaEnabled(m, e)
    ensures Routed(MediaApply(m, e))
  {
    match e
    case Subscribe(sub) => SubscribeRouted(m, sub);
    case RemoveOwner(owner) => RemoveOwnerRouted(m, owner);
    case Begin(f, source, track, item, now) => BeginRouted(m, f, source, track, item, now);
    case Next(f, sub, now) => NextRouted(m, f, sub, now);
    case Service(c) =>
    case Look(who, now) =>
  }

  lemma StepTimely(m: Media, e: MediaEvent)
    requires Timely(m) && MediaEnabled(m, e)
    ensures Timely(MediaApply(m, e))
  {
    match e
    case Service(c) => ServiceClock(m.call, c);
    case Look(who, now) => LookTimely(m, who, now);
    case Begin(f, source, track, item, now) => BeginTimely(m, f, source, track, item, now);
    case Next(f, sub, now) => NextTimely(m, f, sub, now);
    case _ =>
  }

  /** What a step adds to the log of deliveries: at most one, of a flight under way. */
  lemma StepSends(m: Media, e: MediaEvent)
    requires MediaEnabled(m, e)
    ensures var t := MediaApply(m, e);
            || t.sent == m.sent
            || (e.Next?
                && t.sent == m.sent + [Delivery(m.flights[e.flight].source, m.flights[e.flight].track,
                                                m.flights[e.flight].item, m.flights[e.flight].began, e.sub, e.now)]
                && Access(m.cache, m.call.policies, e.sub.owner, e.now).1.allowed)
  {
  }

  lemma MediaStepKeeps(m: Media, e: MediaEvent)
    requires MediaInv(m) && MediaEnabled(m, e)
    ensures MediaInv(MediaApply(m, e))
  {
    StepRouted(m, e);
    StepTimely(m, e);
    StepSends(m, e);
    if e.Service? {
      StepKept(m.call, e.step);
    } else if e.Next? {
      DeliveryRouted(m, e.flight, e.sub);
    }
  }

  lemma {:induction false} MediaRunKeeps(m: Media, run: seq<MediaEvent>)
    requires MediaInv(m) && IsMediaRun(m, run)
    ensures MediaInv(MediaAfter(m, run))
    decreases |run|
  {
    if run != [] {
      MediaStepKeeps(m, run[0]);
      MediaRunKeeps(MediaApply(m, run[0]), run[1..]);
    }
  }

  /** In every run, an object reaches only subscriptions to its own room, participant and track. */
  lemma DeliveriesStayOnTrack(run: seq<MediaEvent>, k: nat)
    requires IsMediaRun(MEDIA_INITIAL, run) && k < |MediaAfter(MEDIA_INITIAL, run).sent|
    ensures WellRouted(MediaAfter(MEDIA_INITIAL, run).sent[k])
  {
    assert MediaInv(MEDIA_INITIAL);
    MediaRunKeeps(MEDIA_INITIAL, run);
  }

  // ------------------------------------------------------- after someone has left

  predicate Admits(value: Policy, who: Principal)
  {
    value.roomId == who.room && SessionIn(value, who.participant) == who.session
  }

  /** The file on disk never admits anyone who is not in the room right now. */
  lemma DiskAdmitsMembersOnly(s: State, who: Principal)
    requires FilesTrue(s) && ValidPrincipal(who)
    requires !In(s, who.room, who.participant, who.session)
    ensures who.room in s.policies ==> !Admits(s.policies[who.room], who)
    ensures !Admits(NO_POLICY, who)
  {
  }

  /** `who` has been out of the room since time `t`, and only older knowledge says otherwise. */
  ghost predicate OutSince(m: Media, who: Principal, t: int)
  {
    && ValidPrincipal(who)
    && !In(m.call, who.room, who.participant, who.session)
    && (who.room in m.cache && Admits(m.cache[who.room].value, who) ==> m.cache[who.room].checked <= t)
    && (forall f :: f in m.flights && m.flights[f].source == who ==> m.flights[f].began < t + CACHE_MILLIS)
  }

  /** Every check made 250 ms later or more, whoever asked before and whenever, is negative. */
  lemma CheckDenied(m: Media, who: Principal, t: int, now: int)
    requires FilesTrue(m.call) && OutSince(m, who, t) && now >= t + CACHE_MILLIS
    ensures !Access(m.cache, m.call.policies, who, now).1.allowed
  {
    DiskAdmitsMembersOnly(m.call, who);
    ConsultedEntry(m.cache, m.call.policies, who.room, now, who.room);
  }

  lemma CacheStaysOut(m: Media, asking: Principal, now: int, who: Principal, t: int)
    requires FilesTrue(m.call) && OutSince(m, who, t)
    ensures var c := Access(m.cache, m.call.policies, asking, now).0;
            who.room in c && Admits(c[who.room].value, who) ==> c[who.room].checked <= t
  {
    DiskAdmitsMembersOnly(m.call, who);
    if who.room in Access(m.cache, m.call.policies, asking, now).0 {
      ConsultedEntry(m.cache, m.call.policies, asking.room, now, who.room);
    }
  }

  /** At no point of the run is the session in the room; attempts to enter that are refused are no matter. */
  predicate StaysOut(m: Media, run: seq<MediaEvent>, who: Principal)
    requires IsMediaRun(m, run)
    decreases |run|
  {
    run == [] ||
    (&& !In(MediaApply(m, run[0]).call, who.room, who.participant, who.session)
     && StaysOut(MediaApply(m, run[0]), run[1..], who))
  }

  lemma OutStep(m: Media, e: MediaEvent, who: Principal, t: int)
    requires FaultInv(m.call) && MediaEnabled(m, e) && OutSince(m, who, t)
    requires !In(MediaApply(m, e).call, who.room, who.participant, who.session)
    ensures OutSince(MediaApply(m, e), who, t)
  {
    match e
    case Service(c) =>
    case Look(asking, now) => CacheStaysOut(m, asking, now, who, t);
    case Subscribe(sub) =>
    case RemoveOwner(owner) =>
    case Begin(f, source, track, item, now) => OutBegin(m, f, source, track, item, now, who, t);
    case Next(f, sub, now) => CacheStaysOut(m, sub.owner, now, who, t);
  }

  lemma OutBegin(m: Media, f: nat, source: Principal, track: string, item: Object, now: int, who: Principal, t: int)
    requires FilesTrue(m.call) && OutSince(m, who, t)
    ensures OutSince(Begun(m, f, source, track, item, now), who, t)
  {
    CacheStaysOut(m, source, now, who, t);
    if source == who && now >= t + CACHE_MILLIS {
      CheckDenied(m, who, t, now);
    }
  }

  /** A delivery that `who`'s departure at time `t` forbids. */
  predicate Forbidden(d: Delivery, who: Principal, t: int)
  {
    || (d.to.owner == who && d.at >= t + CACHE_MILLIS)
    || (d.source == who && d.began >= t + CACHE_MILLIS)
  }

  lemma OutStepSends(m: Media, e: MediaEvent, who: Principal, t: int)
    requires FaultInv(m.call) && MediaEnabled(m, e) && OutSince(m, who, t)
    requires forall d :: d in m.sent ==> !Forbidden(d, who, t)
    ensures forall d :: d in MediaApply(m, e).sent ==> !Forbidden(d, who, t)
  {
    StepSends(m, e);
    if e.Next? && e.sub.owner == who && e.now >= t + CACHE_MILLIS {
      CheckDenied(m, who, t, e.now);
    }
  }

  lemma {:induction false} OutRun(m: Media, run: seq<MediaEvent>, who: Principal, t: int)
    requires FaultInv(m.call) && IsMediaRun(m, run) && OutSince(m, who, t) && StaysOut(m, run, who)
    requires forall d :: d in m.sent ==> !Forbidden(d, who, t)
    ensures OutSince(MediaAfter(m, run), who, t)
    ensures forall d :: d in MediaAfter(m, run).sent ==> !Forbidden(d, who, t)
    decreases |run|
  {
    if run != [] {
      OutStep(m, run[0], who, t);
      OutStepSends(m, run[0], who, t);
      if run[0].Service? {
        StepKept(m.call, run[0].step);
      }
      OutRun(MediaApply(m, run[0]), run[1..], who, t);
    }
  }

  ghost predicate LogTimely(m: Media)
  {
    forall d :: d in m.sent ==> d.at <= m.call.now && d.began <= m.call.now
  }

  lemma {:induction false} LogTimelyRun(m: Media, run: seq<MediaEvent>)
    requires LogTimely(m) && Timely(m) && IsMediaRun(m, run)
    ensures LogTimely(MediaAfter(m, run)) && Timely(MediaAfter(m, run))
    decreases |run|
  {
    if run != [] {
      var t := MediaApply(m, run[0]);
      StepSends(m, run[0]);
      StepTimely(m, run[0]);
      if run[0].Service? {
        ServiceClock(m.call, run[0].step);
      }
      LogTimelyRun(t, run[1..]);
    }
  }

  /**
   * Composed media safety. Take any run of both processes up to a moment when `who`
   * is not in the room: it left, was removed, was disconnected, or the room ended.
   * Continue in any way, with any number of refused attempts to return, as long as this
   * session is not in the room again. Then no check made 250 ms after that moment or
   * later lets anything from `who` in, or anything through to `who`.
   */
  lemma DepartureCutsOff(before: seq<MediaEvent>, rest: seq<MediaEvent>, who: Principal)
    requires IsMediaRun(MEDIA_INITIAL, before) && ValidPrincipal(who)
    requires var m := MediaAfter(MEDIA_INITIAL, before);
             && !In(m.call, who.room, who.participant, who.session)
             && IsMediaRun(m, rest) && StaysOut(m, rest, who)
    ensures var m := MediaAfter(MEDIA_INITIAL, before);
            var n := MediaAfter(m, rest);
            && (forall d :: d in n.sent ==> !Forbidden(d, who, m.call.now))
            && (forall now :: now >= m.call.now + CACHE_MILLIS ==>
                  !Access(n.cache, n.call.policies, who, now).1.allowed)
  {
    var m := MediaAfter(MEDIA_INITIAL, before);
    assert MediaInv(MEDIA_INITIAL);
    MediaRunKeeps(MEDIA_INITIAL, before);
    LogTimelyRun(MEDIA_INITIAL, before);
    OutRun(m, rest, who, m.call.now);
    var n := MediaAfter(m, rest);
    MediaRunKeeps(m, rest);
    forall now | now >= m.call.now + CACHE_MILLIS
      ensures !Access(n.cache, n.call.policies, who, now).1.allowed
    {
      CheckDenied(n, who, m.call.now, now);
    }
  }

  /** The room goes on and its host does not readmit the account. */
  predicate KeepsBlock(m: Media, e: MediaEvent, who: Principal)
    requires MediaEnabled(m, e)
  {
    e.Service? ==>
      && who.room in StepApply(m.call, e.step).rooms
      && !StepLifts(m.call, e.step, who.room, who.participant, {Readmit})
  }

  predicate RunKeepsBlock(m: Media, run: seq<MediaEvent>, who: Principal)
    requires IsMediaRun(m, run)
    decreases |run|
  {
    run == [] || (KeepsBlock(m, run[0], who) && RunKeepsBlock(MediaApply(m, run[0]), run[1..], who))
  }

  ghost predicate Blocked(m: Media, who: Principal)
  {
    FaultInv(m.call) && who.room in m.call.rooms && who.participant in m.call.rooms[who.room].blocked
  }

  lemma BlockedIsOut(m: Media, who: Principal)
    requires Blocked(m, who)
    ensures !In(m.call, who.room, who.participant, who.session)
  {
    assert RoomOk(m.call.rooms[who.room], m.call.nextSerial);
  }

  lemma OnlyServiceSteps(m: Media, e: MediaEvent)
    requires MediaEnabled(m, e) && !e.Service?
    ensures MediaApply(m, e).call == m.call
  {
  }

  lemma BlockedStep(m: Media, e: MediaEvent, who: Principal)
    requires MediaEnabled(m, e) && Blocked(m, who) && KeepsBlock(m, e, who)
    ensures Blocked(MediaApply(m, e), who) && !In(MediaApply(m, e).call, who.room, who.participant, who.session)
  {
    if e.Service? {
      StepKept(m.call, e.step);
      BlockStays(m.call, e.step, who.room, who.participant);
    } else {
      OnlyServiceSteps(m, e);
    }
    BlockedIsOut(MediaApply(m, e), who);
  }

  lemma {:induction false} BlockedStaysOut(m: Media, run: seq<MediaEvent>, who: Principal)
    requires Blocked(m, who) && IsMediaRun(m, run) && RunKeepsBlock(m, run, who)
    ensures StaysOut(m, run, who)
    decreases |run|
  {
    if run != [] {
      BlockedStep(m, run[0], who);
      BlockedStaysOut(MediaApply(m, run[0]), run[1..], who);
    }
  }

  /**
   * Once an account is blocked, and until its host readmits it, nothing passes from or to
   * it in any check made 250 ms later or more, whatever it tries in the meantime.
   */
  lemma RemovalCutsOff(before: seq<MediaEvent>, rest: seq<MediaEvent>, who: Principal)
    requires IsMediaRun(MEDIA_INITIAL, before) && ValidPrincipal(who)
    requires var m := MediaAfter(MEDIA_INITIAL, before);
             && who.room in m.call.rooms && who.participant in m.call.rooms[who.room].blocked
             && IsMediaRun(m, rest) && RunKeepsBlock(m, rest, who)
    ensures var m := MediaAfter(MEDIA_INITIAL, before);
            forall d :: d in MediaAfter(m, rest).sent ==> !Forbidden(d, who, m.call.now)
  {
    var m := MediaAfter(MEDIA_INITIAL, before);
    assert MediaInv(MEDIA_INITIAL);
    MediaRunKeeps(MEDIA_INITIAL, before);
    BlockedIsOut(m, who);
    BlockedStaysOut(m, rest, who);
    DepartureCutsOff(before, rest, who);
  }

  // ------------------------------------------------------------- after a mute

  /** `who` has been muted since time `t`, and only older knowledge says otherwise. */
  ghost predicate HushedSince(m: Media, who: Principal, t: int)
  {
    && ValidPrincipal(who)
    && who.room in m.call.rooms && who.participant in m.call.rooms[who.room].muted
    && CacheHushed(m.cache, who, t) && FlightsHushed(m.flights, who, t)
  }

  /** What the cache knows and does not mute is old. */
  predicate CacheHushed(c: Cache, who: Principal, t: int)
  {
    who.room in c && Admits(c[who.room].value, who) && who.participant !in c[who.room].value.muted ==>
      c[who.room].checked <= t
  }

  predicate FlightsHushed(flights: map<nat, Flight>, who: Principal, t: int)
  {
    forall f :: f in flights && flights[f].source == who && flights[f].track == AUDIO ==>
      flights[f].began < t + CACHE_MILLIS
  }

  lemma DiskKnowsMutes(s: State, who: Principal)
    requires FilesTrue(s) && ValidPrincipal(who)
    requires who.room in s.rooms && who.participant in s.rooms[who.room].muted
    ensures who.room in s.policies && Admits(s.policies[who.room], who) ==>
      who.participant in s.policies[who.room].muted
    ensures !Admits(NO_POLICY, who)
  {
  }

  lemma AudioDenied(m: Media, who: Principal, t: int, now: int)
    requires FilesTrue(m.call) && HushedSince(m, who, t) && now >= t + CACHE_MILLIS
    ensures !Passes(Access(m.cache, m.call.policies, who, now).1, AUDIO)
  {
    DiskKnowsMutes(m.call, who);
    ConsultedEntry(m.cache, m.call.policies, who.room, now, who.room);
  }

  lemma CacheStaysHushed(m: Media, asking: Principal, now: int, who: Principal, t: int)
    requires FilesTrue(m.call) && HushedSince(m, who, t)
    ensures CacheHushed(Access(m.cache, m.call.policies, asking, now).0, who, t)
  {
    DiskKnowsMutes(m.call, who);
    if who.room in Access(m.cache, m.call.policies, asking, now).0 {
      ConsultedEntry(m.cache, m.call.policies, asking.room, now, who.room);
    }
  }

  /** The room goes on and its host does not unmute the account. */
  predicate KeepsMute(m: Media, e: MediaEvent, who: Principal)
    requires MediaEnabled(m, e)
  {
    e.Service? ==>
      && who.room in StepApply(m.call, e.step).rooms
      && !StepLifts(m.call, e.step, who.room, who.participant, {AllowMic, Remove})
  }

  predicate RunKeepsMute(m: Media, run: seq<MediaEvent>, who: Principal)
    requires IsMediaRun(m, run)
    decreases |run|
  {
    run == [] || (KeepsMute(m, run[0], who) && RunKeepsMute(MediaApply(m, run[0]), run[1..], who))
  }

  lemma HushedStep(m: Media, e: MediaEvent, who: Principal, t: int)
    requires FaultInv(m.call) && MediaEnabled(m, e) && HushedSince(m, who, t) && KeepsMute(m, e, who)
    ensures HushedSince(MediaApply(m, e), who, t)
  {
    match e
    case Service(c) => MuteStays(m.call, c, who.room, who.participant);
    case Look(asking, now) => CacheStaysHushed(m, asking, now, who, t);
    case Subscribe(sub) =>
    case RemoveOwner(owner) =>
    case Begin(f, source, track, item, now) => HushedBegin(m, f, source, track, item, now, who, t);
    case Next(f, sub, now) => CacheStaysHushed(m, sub.owner, now, who, t);
  }

  lemma HushedBegin(m: Media, f: nat, source: Principal, track: string, item: Object, now: int, who: Principal,
                    t: int)
    requires FilesTrue(m.call) && HushedSince(m, who, t)
    ensures HushedSince(Begun(m, f, source, track, item, now), who, t)
  {
    CacheStaysHushed(m, source, now, who, t);
    BegunEffect(m, f, source, track, item, now);
    if source == who && now >= t + CACHE_MILLIS {
      AudioDenied(m, who, t, now);
    }
  }

  predicate Audible(d: Delivery, who: Principal, t: int)
  {
    d.source == who && d.track == AUDIO && d.began >= t + CACHE_MILLIS
  }

  lemma {:induction false} HushedRun(m: Media, run: seq<MediaEvent>, who: Principal, t: int)
    requires FaultInv(m.call) && IsMediaRun(m, run) && HushedSince(m, who, t) && RunKeepsMute(m, run, who)
    requires forall d :: d in m.sent ==> !Audible(d, who, t)
    ensures forall d :: d in MediaAfter(m, run).sent ==> !Audible(d, who, t)
    decreases |run|
  {
    if run != [] {
      HushedStep(m, run[0], who, t);
      StepSends(m, run[0]);
      if run[0].Service? {
        StepKept(m.call, run[0].step);
      }
      HushedRun(MediaApply(m, run[0]), run[1..], who, t);
    }
  }

  /**
   * From any moment at which an account is muted, and until its host allows the
   * microphone or removes it, no audio of it whose check is made 250 ms later or more
   * is forwarded, whichever sessions it uses and however often it leaves and rejoins.
   */
  lemma MuteSilences(before: seq<MediaEvent>, rest: seq<MediaEvent>, who: Principal)
    requires IsMediaRun(MEDIA_INITIAL, before) && ValidPrincipal(who)
    requires var m := MediaAfter(MEDIA_INITIAL, before);
             && who.room in m.call.rooms && who.participant in m.call.rooms[who.room].muted
             && IsMediaRun(m, rest) && RunKeepsMute(m, rest, who)
    ensures var m := MediaAfter(MEDIA_INITIAL, before);
            forall d :: d in MediaAfter(m, rest).sent ==> !Audible(d, who, m.call.now)
  {
    var m := MediaAfter(MEDIA_INITIAL, before);
    assert MediaInv(MEDIA_INITIAL);
    MediaRunKeeps(MEDIA_INITIAL, before);
    LogTimelyRun(MEDIA_INITIAL, before);
    HushedRun(m, rest, who, m.call.now);
  }
}
