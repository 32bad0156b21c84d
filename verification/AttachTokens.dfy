/** Sliding windows over the times at which credentials were issued. */
module RateWindows {
  const WINDOW_MILLIS: int := 60_000

  type Times = seq<int>

  /** Drops the leading times that have left the window. */
  function Pruned(times: Times, cutoff: int): Times
  {
    if times != [] && times[0] <= cutoff then Pruned(times[1..], cutoff) else times
  }

  /** How many times fall into the half-open window that ends with `end`. */
  function InWindow(times: Times, end: int): nat
  {
    if times == [] then 0
    else
      var last := times[|times| - 1];
      InWindow(times[..|times| - 1], end) + if end - WINDOW_MILLIS < last <= end then 1 else 0
  }

  predicate Ordered(times: Times, now: int)
  {
    && (forall i, j :: 0 <= i < j < |times| ==> times[i] <= times[j])
    && (forall i :: 0 <= i < |times| ==> times[i] <= now)
  }

  /** A queue that lacks only times that have left the window. */
  predicate Tracks(queue: Times, log: Times, now: int)
  {
    && Ordered(log, now)
    && |queue| <= |log| && queue == log[|log| - |queue|..]
    && (forall i :: 0 <= i < |log| - |queue| ==> log[i] <= now - WINDOW_MILLIS)
  }

  predicate AllAfter(times: Times, cutoff: int)
  {
    forall i :: 0 <= i < |times| ==> times[i] > cutoff
  }

  ghost predicate Within(log: Times, limit: nat)
  {
    forall end :: InWindow(log, end) <= limit
  }

  lemma {:induction false} PrunedTracks(queue: Times, log: Times, now: int)
    requires Tracks(queue, log, now)
    ensures Tracks(Pruned(queue, now - WINDOW_MILLIS), log, now)
    ensures AllAfter(Pruned(queue, now - WINDOW_MILLIS), now - WINDOW_MILLIS)
    decreases |queue|
  {
    if queue != [] && queue[0] <= now - WINDOW_MILLIS {
      assert queue[1..] == log[|log| - |queue| + 1..];
      assert log[|log| - |queue|] == queue[0];
      PrunedTracks(queue[1..], log, now);
    } else if queue != [] {
      forall i | 0 <= i < |queue| ensures queue[i] > now - WINDOW_MILLIS {
        assert queue[0] == log[|log| - |queue|] && queue[i] == log[|log| - |queue| + i];
      }
    }
  }

  /** When the dropped times are old and the others recent, the window holds exactly the others. */
  lemma {:induction false} WindowIsSuffix(log: Times, dropped: nat, now: int)
    requires dropped <= |log| && Ordered(log, now)
    requires forall i :: 0 <= i < dropped ==> log[i] <= now - WINDOW_MILLIS
    ensures InWindow(log, now) <= |log| - dropped
    ensures AllAfter(log[dropped..], now - WINDOW_MILLIS) ==> InWindow(log, now) == |log| - dropped
    decreases |log|
  {
    if |log| > dropped {
      var most := log[..|log| - 1];
      WindowIsSuffix(most, dropped, now);
      assert log[dropped..] == most[dropped..] + [log[|log| - 1]];
      if AllAfter(log[dropped..], now - WINDOW_MILLIS) {
        assert log[dropped..][|log| - 1 - dropped] == log[|log| - 1];
        forall i | 0 <= i < |most[dropped..]| ensures most[dropped..][i] > now - WINDOW_MILLIS {
          assert most[dropped..][i] == log[dropped..][i];
        }
      }
    } else if |log| > 0 {
      WindowIsSuffix(log[..|log| - 1], dropped - 1, now);
    }
  }

  /** The pruned queue has exactly the times of the window, so a full queue is a full window. */
  lemma PrunedIsWindow(queue: Times, log: Times, now: int)
    requires Tracks(queue, log, now)
    ensures |Pruned(queue, now - WINDOW_MILLIS)| == InWindow(log, now)
  {
    PrunedTracks(queue, log, now);
    WindowIsSuffix(log, |log| - |Pruned(queue, now - WINDOW_MILLIS)|, now);
  }

  /** A window that ends after the last time holds no more than the one that ends with it. */
  lemma {:induction false} LaterHoldsLess(log: Times, now: int, end: int)
    requires Ordered(log, now) && now <= end
    ensures InWindow(log, end) <= InWindow(log, now)
    decreases |log|
  {
    if log != [] {
      LaterHoldsLess(log[..|log| - 1], now, end);
    }
  }

  /** Issuing while the pruned queue is below the limit keeps every window within it. */
  lemma IssueStaysWithin(queue: Times, log: Times, now: int, limit: nat)
    requires Tracks(queue, log, now) && Within(log, limit) && |queue| < limit
    ensures Within(log + [now], limit) && Tracks(queue + [now], log + [now], now)
  {
    var longer := log + [now];
    assert Ordered(longer, now);
    assert longer[..|longer| - 1] == log;
    forall end ensures InWindow(longer, end) <= limit {
      if end < now {
        assert InWindow(longer, end) == InWindow(log, end);
      } else {
        LaterHoldsLess(longer, now, end);
        WindowIsSuffix(longer, |log| - |queue|, now);
      }
    }
    assert queue + [now] == longer[|longer| - |queue + [now]|..];
  }

  lemma LaterTracks(queue: Times, log: Times, now: int, later: int)
    requires Tracks(queue, log, now) && now <= later
    ensures Tracks(queue, log, later)
  {
  }
}

/** The authority that issues one-time attach credentials. */
module AttachTokens {
  import opened Outcomes
  import opened RateWindows

  type Token = string

  datatype Grant = Grant(
    session: string,
    connection: string,
    user: string,
    qapp: (string, string),
    purpose: string,
    binding: string,
    nonce: string,
    expiresAt: int)

  datatype Limits = Limits(ttl: int, perSession: nat, perUser: nat, unusedPerSession: nat, unusedGlobal: nat)

  /** What a client presents together with a token. */
  datatype Presented = Presented(session: string, purpose: string, binding: string, nonce: string)

  /** What the authority looks at in the session it finds. */
  datatype SessionView = SessionView(
    provisional: bool,
    expiresAt: int,
    user: string,
    qapp: (string, string),
    connection: string,
    connected: bool)

  datatype Authority = Authority(grants: map<Token, Grant>, issued: map<string, Times>, issuedUsers: map<string, Times>)

  function Queue(m: map<string, Times>, key: string): Times
  {
    if key in m then m[key] else []
  }

  function Unexpired(grants: map<Token, Grant>, now: int): map<Token, Grant>
  {
    map t | t in grants && grants[t].expiresAt > now :: grants[t]
  }

  /** Queues are pruned and empty ones dropped. */
  function PrunedAll(m: map<string, Times>, cutoff: int): map<string, Times>
  {
    map k | k in m && Pruned(m[k], cutoff) != [] :: Pruned(m[k], cutoff)
  }

  function Refreshed(a: Authority, now: int): Authority
  {
    Authority(Unexpired(a.grants, now),
              PrunedAll(a.issued, now - WINDOW_MILLIS), PrunedAll(a.issuedUsers, now - WINDOW_MILLIS))
  }

  function UnusedOf(grants: map<Token, Grant>, session: string): set<Token>
  {
    set t | t in grants && grants[t].session == session
  }

  predicate MayIssue(a: Authority, limits: Limits, session: string, user: string)
  {
    && |Queue(a.issued, session)| < limits.perSession && |Queue(a.issuedUsers, user)| < limits.perUser
    && |UnusedOf(a.grants, session)| < limits.unusedPerSession && |a.grants| < limits.unusedGlobal
  }

  function Issue(a: Authority, limits: Limits, token: Token, grant: Grant, now: int): (Authority, bool)
  {
    IssueInto(Refreshed(a, now), limits, token, grant, now)
  }

  function IssueInto(b: Authority, limits: Limits, token: Token, grant: Grant, now: int): (Authority, bool)
  {
    var recent, userRecent := Queue(b.issued, grant.session), Queue(b.issuedUsers, grant.user);
    if !MayIssue(b, limits, grant.session, grant.user) then
      (b.(issued := b.issued[grant.session := recent], issuedUsers := b.issuedUsers[grant.user := userRecent]), false)
    else
      (Authority(b.grants[token := grant.(expiresAt := now + limits.ttl)],
                 b.issued[grant.session := recent + [now]], b.issuedUsers[grant.user := userRecent + [now]]), true)
  }

  predicate Matches(grant: Grant, p: Presented, session: Option<SessionView>, now: int)
  {
    && grant.expiresAt > now
    && grant.session == p.session && grant.purpose == p.purpose && grant.binding == p.binding && grant.nonce == p.nonce
    && session.Some? && !session.value.provisional && session.value.expiresAt > now
    && session.value.user == grant.user && session.value.qapp == grant.qapp
    && session.value.connection == grant.connection
    && session.value.connected
  }

  /** What has to be presented with a token, to the letter of what it was issued for. */
  function Due(grant: Grant): Presented
  {
    Presented(grant.session, grant.purpose, grant.binding, grant.nonce)
  }

  /** The session found is established, unexpired and connected, and still the one of the grant. */
  predicate Live(grant: Grant, session: Option<SessionView>, now: int)
  {
    && session.Some? && session.value.expiresAt > now
    && session.value ==
         SessionView(false, session.value.expiresAt, grant.user, grant.qapp, grant.connection, true)
  }

  lemma MatchesExactly(grant: Grant, p: Presented, session: Option<SessionView>, now: int)
    ensures Matches(grant, p, session, now) <==> now < grant.expiresAt && p == Due(grant) && Live(grant, session, now)
  {
  }

  /** The token is taken away before anything else about it is looked at. */
  function Consume(a: Authority, token: Token, p: Presented, session: Option<SessionView>, now: int)
    : (Authority, Option<Grant>)
  {
    var grants := Unexpired(a.grants, now);
    (a.(grants := grants - {token}),
     if token in grants && Matches(grants[token], p, session, now) then Some(grants[token]) else None)
  }

  function Invalidate(a: Authority, session: string): Authority
  {
    a.(grants := a.grants - UnusedOf(a.grants, session), issued := a.issued - {session})
  }

  function Release(a: Authority, token: Token): Authority
  {
    a.(grants := a.grants - {token})
  }
}

/** The authority as an object with its pruning loops. */
module AttachTokenObject {
  import opened Outcomes
  import opened RateWindows
  import opened AttachTokens

  lemma Overwritten(m: map<string, Times>, key: string, first: Times, second: Times)
    ensures m[key := first][key := second] == m[key := second]
  {
  }

  class AttachTokenAuthority {
    const limits: Limits
    var grants: map<Token, Grant>
    var issued: map<string, Times>
    var issuedUsers: map<string, Times>

    function Contents(): Authority
      reads this
    {
      Authority(grants, issued, issuedUsers)
    }

    constructor (limits: Limits)
      ensures this.limits == limits && Contents() == Authority(map[], map[], map[])
    {
      this.limits := limits;
      grants, issued, issuedUsers := map[], map[], map[];
    }

    method ExpireLocked(now: int)
      modifies this`grants
      ensures grants == Unexpired(old(grants), now)
    {
      var rest := grants.Keys;
      while rest != {}
        invariant rest <= old(grants).Keys
        invariant grants == map t | t in old(grants) && (t in rest || old(grants)[t].expiresAt > now) :: old(grants)[t]
        decreases |rest|
      {
        var t :| t in rest;
        if grants[t].expiresAt <= now {
          grants := grants - {t};
        }
        rest := rest - {t};
      }
    }

    static method PruneQueue(times: Times, cutoff: int) returns (recent: Times)
      ensures recent == Pruned(times, cutoff)
    {
      recent := times;
      while recent != [] && recent[0] <= cutoff
        invariant Pruned(times, cutoff) == Pruned(recent, cutoff)
        decreases |recent|
      {
        recent := recent[1..];
      }
    }

    static method PruneMapping(mapping: map<string, Times>, cutoff: int) returns (r: map<string, Times>)
      ensures r == PrunedAll(mapping, cutoff)
    {
      r := mapping;
      var rest := mapping.Keys;
      while rest != {}
        invariant rest <= mapping.Keys && rest <= r.Keys <= mapping.Keys
        invariant forall k :: k in rest ==> r[k] == mapping[k]
        invariant forall k :: k in mapping && k !in rest ==> (k in r <==> Pruned(mapping[k], cutoff) != [])
        invariant forall k :: k in r && k !in rest ==> r[k] == Pruned(mapping[k], cutoff)
        decreases |rest|
      {
        var k :| k in rest;
        var recent := PruneQueue(r[k], cutoff);
        r := if recent == [] then r - {k} else r[k := recent];
        rest := rest - {k};
      }
    }

    method PruneRatesLocked(now: int)
      modifies this`issued, this`issuedUsers
      ensures issued == PrunedAll(old(issued), now - WINDOW_MILLIS)
      ensures issuedUsers == PrunedAll(old(issuedUsers), now - WINDOW_MILLIS)
    {
      issued := PruneMapping(issued, now - WINDOW_MILLIS);
      issuedUsers := PruneMapping(issuedUsers, now - WINDOW_MILLIS);
    }

    /** Counts the unused credentials of a session. */
    method CountUnused(session: string) returns (unused: nat)
      ensures unused == |UnusedOf(grants, session)|
    {
      unused := 0;
      var rest := grants.Keys;
      ghost var counted: set<Token> := {};
      while rest != {}
        invariant rest <= grants.Keys
        invariant counted == set t | t in grants && t !in rest && grants[t].session == session
        invariant unused == |counted|
        decreases |rest|
      {
        var t :| t in rest;
        if grants[t].session == session {
          unused := unused + 1;
          counted := counted + {t};
        }
        rest := rest - {t};
      }
      assert counted == UnusedOf(grants, session);
    }

    method Issue(token: Token, grant: Grant, now: int) returns (ok: bool)
      modifies this`grants, this`issued, this`issuedUsers
      ensures (Contents(), ok) == AttachTokens.Issue(old(Contents()), limits, token, grant, now)
      ensures ok ==> token in grants && grants[token] == grant.(expiresAt := now + limits.ttl)
      ensures forall t :: t != token ==>
        (t in grants <==> t in old(grants) && now < old(grants)[t].expiresAt)
    {
      ExpireLocked(now);
      PruneRatesLocked(now);
      ok := IssueLocked(token, grant, now);
    }

    method IssueLocked(token: Token, grant: Grant, now: int) returns (ok: bool)
      modifies this`grants, this`issued, this`issuedUsers
      ensures (Contents(), ok) == IssueInto(old(Contents()), limits, token, grant, now)
    {
      var recent := Queue(issued, grant.session);
      var userRecent := Queue(issuedUsers, grant.user);
      issued := issued[grant.session := recent];
      issuedUsers := issuedUsers[grant.user := userRecent];
      var unused := CountUnused(grant.session);
      if |recent| >= limits.perSession || |userRecent| >= limits.perUser
         || unused >= limits.unusedPerSession || |grants| >= limits.unusedGlobal {
        return false;
      }
      grants := grants[token := grant.(expiresAt := now + limits.ttl)];
      issued := issued[grant.session := recent + [now]];
      issuedUsers := issuedUsers[grant.user := userRecent + [now]];
      Overwritten(old(issued), grant.session, recent, recent + [now]);
      Overwritten(old(issuedUsers), grant.user, userRecent, userRecent + [now]);
      return true;
    }

    method Consume(token: Token, p: Presented, session: Option<SessionView>, now: int) returns (r: Option<Grant>)
      modifies this`grants
      ensures (Contents(), r) == AttachTokens.Consume(old(Contents()), token, p, session, now)
      ensures r.Some? <==>
        && token in old(grants) && now < old(grants)[token].expiresAt
        && p == Due(old(grants)[token]) && Live(old(grants)[token], session, now)
      ensures r.Some? ==> r.value == old(grants)[token]
      ensures forall t :: t in grants <==> t != token && t in old(grants) && now < old(grants)[t].expiresAt
    {
      if token in grants {
        MatchesExactly(grants[token], p, session, now);
      }
      ExpireLocked(now);
      var grant := if token in grants then Some(grants[token]) else None;
      grants := grants - {token};
      if grant.None? || !Matches(grant.value, p, session, now) {
        return None;
      }
      return grant;
    }

    method InvalidateSession(session: string)
      modifies this`grants, this`issued
      ensures Contents() == Invalidate(old(Contents()), session)
      ensures forall t :: t in grants <==> t in old(grants) && old(grants)[t].session != session
      ensures session !in issued && forall k :: k != session ==> (k in issued <==> k in old(issued))
    {
      DropGrants(session);
      issued := issued - {session};
    }

    /** Removes the grants of a session one by one. */
    method DropGrants(session: string)
      modifies this`grants
      ensures grants == old(grants) - UnusedOf(old(grants), session)
    {
      var rest := grants.Keys;
      while rest != {}
        invariant rest <= old(grants).Keys
        invariant grants ==
          map t | t in old(grants) && (t in rest || old(grants)[t].session != session) :: old(grants)[t]
        decreases |rest|
      {
        var t :| t in rest;
        if grants[t].session == session {
          grants := grants - {t};
        }
        rest := rest - {t};
      }
      assert grants == old(grants) - UnusedOf(old(grants), session);
    }

    method Release(token: Token)
      modifies this`grants
      ensures Contents() == AttachTokens.Release(old(Contents()), token)
    {
      grants := grants - {token};
    }
  }
}
