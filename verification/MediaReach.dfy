/** What a published object does reach: the positive half of the media relay, from the policy file itself. */
module MediaReach {
  import opened Outcomes
  import opened Collections
  import opened CallRooms
  import opened CallOutcomes
  import opened CallFaultRuns
  import opened MediaPolicy
  import opened MediaSafety

  /** The file a check works with: what was read of it less than 250 ms before, or else what is on disk. */
  function Consulting(m: Media, room: RoomId, now: int): Option<Policy>
  {
    if room in m.cache && now - m.cache[room].checked < 250 then Some(m.cache[room].value)
    else if room in m.call.policies then Some(m.call.policies[room])
    else None
  }

  /** The file is of the principal's room, has not run out and lists its session. */
  predicate Lists(file: Option<Policy>, who: Principal, now: int)
  {
    && file.Some? && file.value.roomId == who.room && now < file.value.expiresAt
    && who.participant in file.value.members && file.value.members[who.participant] == who.session
  }

  predicate Subscribed(m: Media, x: Sub)
  {
    exists k :: k in m.subscriptions && x in m.subscriptions[k]
  }

  /** Everyone in the room who follows this track of the source. */
  function Followers(m: Media, source: Principal, track: string): set<Sub>
  {
    set k, x | k in m.subscriptions && x in m.subscriptions[k]
               && x.owner.room == source.room && x.subject == source.participant && x.track == track :: x
  }

  lemma FollowersFiled(m: Media, source: Principal, track: string)
    requires Routed(m) && ValidPrincipal(source)
    ensures At(m.subscriptions, TrackKey(source.room, source.participant, track)) == Followers(m, source, track)
  {
    var key := TrackKey(source.room, source.participant, track);
    forall x | x in At(m.subscriptions, key) ensures x in Followers(m, source, track) {
      TrackKeyInjective(x.owner.room, x.subject, x.track, source.room, source.participant, track);
    }
  }

  /** A check allows exactly the principals that the file it works with lists, and reports the mute in it. */
  lemma CheckedExactly(m: Media, who: Principal, now: int)
    requires ValidPrincipal(who)
    ensures
      var v, file := Access(m.cache, m.call.policies, who, now).1, Consulting(m, who.room, now);
      && (v.allowed <==> Lists(file, who, now))
      && (v.allowed ==> (v.muted <==> who.participant in file.value.muted))
  {
  }

  /** After a check, later checks of the room at that time work with the same file. */
  lemma ConsultingAgain(m: Media, t: Media, who: Principal, now: int)
    requires t.cache == Access(m.cache, m.call.policies, who, now).0
    ensures who.room in t.cache && now - t.cache[who.room].checked < 250
    ensures Consulting(m, who.room, now).Some? ==> Consulting(t, who.room, now) == Consulting(m, who.room, now)
  {
  }

  /**
   * A publication goes out exactly when the file lists its source, its track is not muted audio
   * and its size is allowed; and then to every follower of the track.
   */
  lemma PublishedExactly(m: Media, f: nat, source: Principal, track: string, item: Object, now: int)
    requires Routed(m) && MediaEnabled(m, Begin(f, source, track, item, now))
    ensures
      var t, file := MediaApply(m, Begin(f, source, track, item, now)), Consulting(m, source.room, now);
      var limit := if item.reliable then 1048576 else 1024;
      var goes := && Lists(file, source, now) && 1 <= |item.payload| <= limit
                  && (track != "audio" || source.participant !in file.value.muted);
      && t.flights ==
           (if goes then m.flights[f := Flight(source, track, item, now, Followers(m, source, track))] else m.flights)
      && (f in t.flights <==> goes)
      && t.sent == m.sent && t.subscriptions == m.subscriptions && t.call == m.call
  {
    CheckedExactly(m, source, now);
    FollowersFiled(m, source, track);
  }

  /** A recipient gets the object exactly when the file lists it and it is still subscribed. */
  lemma ServedExactly(m: Media, f: nat, sub: Sub, now: int)
    requires Routed(m) && MediaEnabled(m, Next(f, sub, now))
    ensures
      var t, flight := MediaApply(m, Next(f, sub, now)), m.flights[f];
      && t.sent ==
           (if Lists(Consulting(m, sub.owner.room, now), sub.owner, now) && Subscribed(m, sub)
            then m.sent + [Delivery(flight.source, flight.track, flight.item, flight.began, sub, now)] else m.sent)
      && t.flights == m.flights[f := flight.(pending := flight.pending - {sub})]
      && t.subscriptions == m.subscriptions && t.call == m.call
  {
    CheckedExactly(m, sub.owner, now);
    assert Subscribed(m, sub) <==> sub in At(m.subscriptions, KeyOf(sub));
  }

  // ---------------------------------------------------------- whole publications

  /** The recipients in turn, all at one time. */
  function Serving(f: nat, order: seq<Sub>, now: int): seq<MediaEvent>
  {
    if order == [] then [] else [Next(f, order[0], now)] + Serving(f, order[1..], now)
  }

  /** What those of them who are listed and subscribed get. */
  function Served(m: Media, flight: Flight, order: seq<Sub>, now: int): seq<Delivery>
  {
    if order == [] then []
    else
      (if Lists(Consulting(m, flight.source.room, now), order[0].owner, now) && Subscribed(m, order[0])
       then [Delivery(flight.source, flight.track, flight.item, flight.began, order[0], now)] else [])
      + Served(m, flight, order[1..], now)
  }

  /** What decides who gets what has not changed. */
  predicate SameGround(m: Media, t: Media, room: RoomId, now: int)
  {
    && t.call == m.call && t.subscriptions == m.subscriptions
    && room in m.cache && now - m.cache[room].checked < 250
    && room in t.cache && t.cache[room] == m.cache[room]
  }

  lemma {:induction false} SameServed(m: Media, t: Media, flight: Flight, order: seq<Sub>, now: int, pending: set<Sub>)
    requires SameGround(m, t, flight.source.room, now)
    ensures Served(t, flight.(pending := pending), order, now) == Served(m, flight, order, now)
  {
    if order != [] {
      SameServed(m, t, flight, order[1..], now, pending);
      assert Subscribed(t, order[0]) == Subscribed(m, order[0]);
    }
  }

  /** The cache has a file of the room that is fresh enough at this time. */
  predicate Fresh(m: Media, room: RoomId, now: int)
  {
    room in m.cache && now - m.cache[room].checked < 250
  }

  lemma ServeOne(m: Media, f: nat, sub: Sub, now: int)
    requires Routed(m) && MediaEnabled(m, Next(f, sub, now)) && Fresh(m, m.flights[f].source.room, now)
    ensures
      var t, flight := MediaApply(m, Next(f, sub, now)), m.flights[f];
      && Routed(t) && SameGround(m, t, flight.source.room, now)
      && f in t.flights && t.flights[f] == flight.(pending := flight.pending - {sub})
      && t.sent == m.sent + Served(m, flight, [sub], now)
  {
    DeliveryRouted(m, f, sub);
    ServedExactly(m, f, sub, now);
    NextRouted(m, f, sub, now);
    assert Served(m, m.flights[f], [sub][1..], now) == [];
  }

  lemma ServedSplits(m: Media, flight: Flight, order: seq<Sub>, now: int)
    requires order != []
    ensures Served(m, flight, order, now) == Served(m, flight, [order[0]], now) + Served(m, flight, order[1..], now)
  {
    assert Served(m, flight, [order[0]][1..], now) == [];
  }

  lemma {:induction false} ServingServes(m: Media, f: nat, order: seq<Sub>, now: int)
    requires Routed(m) && f in m.flights && now <= m.call.now && Distinct(order)
    requires Fresh(m, m.flights[f].source.room, now) && forall x :: x in order ==> x in m.flights[f].pending
    ensures IsMediaRun(m, Serving(f, order, now))
    ensures MediaAfter(m, Serving(f, order, now)).sent == m.sent + Served(m, m.flights[f], order, now)
    decreases |order|
  {
    if order != [] {
      var e, flight := Next(f, order[0], now), m.flights[f];
      var t := MediaApply(m, e);
      ServeOne(m, f, order[0], now);
      RestPending(order, flight.pending);
      ServingServes(t, f, order[1..], now);
      SameServed(m, t, flight, order[1..], now, t.flights[f].pending);
      ServedSplits(m, flight, order, now);
      ServingSteps(m, f, order, now);
      Associates(m.sent, Served(m, flight, [order[0]], now), Served(m, flight, order[1..], now));
    }
  }

  lemma RestPending(order: seq<Sub>, pending: set<Sub>)
    requires order != [] && Distinct(order) && forall x :: x in order ==> x in pending
    ensures Distinct(order[1..]) && forall x :: x in order[1..] ==> x in pending - {order[0]}
  {
  }

  lemma ServingSteps(m: Media, f: nat, order: seq<Sub>, now: int)
    requires order != [] && MediaEnabled(m, Next(f, order[0], now))
    requires IsMediaRun(MediaApply(m, Next(f, order[0], now)), Serving(f, order[1..], now))
    ensures IsMediaRun(m, Serving(f, order, now))
    ensures MediaAfter(m, Serving(f, order, now)) ==
      MediaAfter(MediaApply(m, Next(f, order[0], now)), Serving(f, order[1..], now))
  {
    assert Serving(f, order, now)[0] == Next(f, order[0], now);
    assert Serving(f, order, now)[1..] == Serving(f, order[1..], now);
  }

  /** The file lists the source and lets this track of it through, and the object may be forwarded. */
  predicate GoesOut(file: Option<Policy>, source: Principal, track: string, item: Object, now: int)
  {
    && Lists(file, source, now) && Forwardable(item)
    && (track != "audio" || source.participant !in file.value.muted)
  }

  lemma PublicationStarts(m: Media, f: nat, source: Principal, track: string, item: Object, now: int)
    requires Routed(m) && MediaEnabled(m, Begin(f, source, track, item, now))
    requires GoesOut(Consulting(m, source.room, now), source, track, item, now)
    ensures
      var t := MediaApply(m, Begin(f, source, track, item, now));
      && Routed(t) && f in t.flights && t.flights[f] == Flight(source, track, item, now, Followers(m, source, track))
      && t.sent == m.sent && t.subscriptions == m.subscriptions && t.call == m.call
      && Fresh(t, source.room, now) && Consulting(t, source.room, now) == Consulting(m, source.room, now)
  {
    PublishedExactly(m, f, source, track, item, now);
    BeginRouted(m, f, source, track, item, now);
    BegunEffect(m, f, source, track, item, now);
    ConsultingAgain(m, MediaApply(m, Begin(f, source, track, item, now)), source, now);
  }

  lemma PublicationServes(m: Media, f: nat, source: Principal, track: string, item: Object, now: int, order: seq<Sub>)
    requires Routed(m) && MediaEnabled(m, Begin(f, source, track, item, now))
    requires GoesOut(Consulting(m, source.room, now), source, track, item, now)
    requires Distinct(order) && forall x :: x in order <==> x in Followers(m, source, track)
    ensures
      var t := MediaApply(m, Begin(f, source, track, item, now));
      && IsMediaRun(t, Serving(f, order, now))
      && MediaAfter(t, Serving(f, order, now)).sent ==
           m.sent + Served(m, Flight(source, track, item, now, {}), order, now)
  {
    var t := MediaApply(m, Begin(f, source, track, item, now));
    PublicationStarts(m, f, source, track, item, now);
    ServingServes(t, f, order, now);
    GroundedServed(m, t, t.flights[f], order, now);
  }

  /**
   * A whole publication: in any reachable state, if the file lists the source and does not mute the
   * track, serving the recipients in any order hands the object to exactly the followers that the
   * file lists, once each.
   */
  lemma PublicationReaches(before: seq<MediaEvent>, f: nat, source: Principal, track: string, item: Object, now: int,
                           order: seq<Sub>)
    requires IsMediaRun(MEDIA_INITIAL, before)
    requires
      var m := MediaAfter(MEDIA_INITIAL, before);
      && MediaEnabled(m, Begin(f, source, track, item, now))
      && GoesOut(Consulting(m, source.room, now), source, track, item, now)
      && Distinct(order) && (forall x :: x in order <==> x in Followers(m, source, track))
    ensures
      var m := MediaAfter(MEDIA_INITIAL, before);
      var t := MediaApply(m, Begin(f, source, track, item, now));
      && IsMediaRun(t, Serving(f, order, now))
      && var served := Served(m, Flight(source, track, item, now, {}), order, now);
         && MediaAfter(t, Serving(f, order, now)).sent == m.sent + served
         && forall x :: Delivery(source, track, item, now, x, now) in served <==>
              x in Followers(m, source, track) && Lists(Consulting(m, source.room, now), x.owner, now)
  {
    var m := MediaAfter(MEDIA_INITIAL, before);
    assert MediaInv(MEDIA_INITIAL);
    MediaRunKeeps(MEDIA_INITIAL, before);
    PublicationServes(m, f, source, track, item, now, order);
    forall x {
      ServedIsListed(m, Flight(source, track, item, now, {}), order, now, x);
    }
  }

  lemma {:induction false} GroundedServed(m: Media, t: Media, flight: Flight, order: seq<Sub>, now: int)
    requires t.subscriptions == m.subscriptions
    requires Consulting(t, flight.source.room, now) == Consulting(m, flight.source.room, now)
    ensures Served(t, flight, order, now) == Served(m, flight.(pending := {}), order, now)
  {
    if order != [] {
      GroundedServed(m, t, flight, order[1..], now);
      assert Subscribed(t, order[0]) == Subscribed(m, order[0]);
    }
  }

  /** Each follower that the file lists has its own delivery, and there is none for anyone else. */
  lemma {:induction false} ServedIsListed(m: Media, flight: Flight, order: seq<Sub>, now: int, x: Sub)
    requires forall y :: y in order ==> Subscribed(m, y)
    ensures
      Delivery(flight.source, flight.track, flight.item, flight.began, x, now) in Served(m, flight, order, now) <==>
        x in order && Lists(Consulting(m, flight.source.room, now), x.owner, now)
  {
    if order != [] {
      ServedIsListed(m, flight, order[1..], now, x);
      assert x in order <==> x == order[0] || x in order[1..];
    }
  }

  // --------------------------------------------------------------- subscriptions

  /** A subscription is there from its request until its owner goes, and nothing else touches it. */
  lemma SubscribedExactly(m: Media, e: MediaEvent, x: Sub)
    requires MediaEnabled(m, e)
    ensures
      Subscribed(MediaApply(m, e), x) <==>
        (e.Subscribe? && e.sub == x) || (Subscribed(m, x) && !(e.RemoveOwner? && e.owner == x.owner))
  {
    var t := MediaApply(m, e);
    match e
    case Subscribe(sub) =>
      assert forall k :: k in m.subscriptions ==> k in t.subscriptions && m.subscriptions[k] <= t.subscriptions[k];
      assert sub in t.subscriptions[KeyOf(sub)];
    case RemoveOwner(owner) =>
      assert forall k :: k in t.subscriptions ==> k in m.subscriptions;
      assert forall k :: k in m.subscriptions ==> k in t.subscriptions;
    case _ =>
      assert t.subscriptions == m.subscriptions;
  }

  predicate OwnerStays(run: seq<MediaEvent>, owner: Principal)
  {
    forall e :: e in run && e.RemoveOwner? ==> e.owner != owner
  }

  lemma {:induction false} StaysSubscribed(m: Media, run: seq<MediaEvent>, x: Sub)
    requires IsMediaRun(m, run) && Subscribed(m, x) && OwnerStays(run, x.owner)
    ensures Subscribed(MediaAfter(m, run), x)
    decreases |run|
  {
    if run != [] {
      assert run[0] in run;
      SubscribedExactly(m, run[0], x);
      StaysSubscribed(MediaApply(m, run[0]), run[1..], x);
    }
  }

  // ------------------------------------------------------- members and their file

  /** As long as a room has a file and has not run out, the file on disk lists exactly whom the service has entered. */
  lemma FileLists(s: State, who: Principal, now: int)
    requires FaultInv(s) && who.room in s.policies
    ensures
      Lists(Some(s.policies[who.room]), who, now) <==>
        Listed(s, who.room, who.participant, who.session) && now < s.rooms[who.room].expiresAt
  {
    assert Truthful(who.room, s.policies[who.room], s.rooms[who.room]);
  }
}
