/**
 * Issuing and redeeming attach tokens across two processes. The backend issues under
 * the session lock; a realtime token is written to a grant file and released from the
 * backend's own store, and the media relay claims the file by renaming it.
 */
module TokenProtocol {
  import opened Outcomes
  import opened Collections
  import opened RateWindows
  import opened AttachTokens

  /** A bootstrap that is still inside the session lock. */
  datatype Boot = Writing(token: Token, grant: Grant) | Releasing(token: Token)

  datatype Relay = Relay(
    files: map<Token, Grant>,      // grant files the relay can claim
    claimed: map<Token, Grant>)    // files renamed by the relay, not yet judged

  datatype History = History(
    issuedAs: map<Token, Grant>,     // every token and what it was issued for
    redeemed: map<Token, nat>,       // how often each token was redeemed
    userLog: map<string, Times>,     // issue times per user
    sessionLog: map<string, Times>)  // issue times per session since its last invalidation

  datatype System = System(
    limits: Limits,
    now: int,
    authority: Authority,
    boot: Option<Boot>,
    grantFiles: map<string, set<Token>>,  // the files the backend remembers per session
    unlinking: set<Token>,                // files an invalidation is about to remove
    relay: Relay,
    history: History)

  function Initial(limits: Limits): System
  {
    System(limits, 0, Authority(map[], map[], map[]), None, map[], {},
           Relay(map[], map[]), History(map[], map[], map[], map[]))
  }

  datatype BackendStep =
    | Issues(token: Token, grant: Grant)
    | WriteFile(ok: bool)
    | ReleaseToken
    | Present(token: Token, presented: Presented, session: Option<SessionView>)
    | InvalidateSession(id: string)
    | UnlinkFile(token: Token)

  datatype RelayStep =
    | ClaimFile(token: Token)
    | JudgeFile(token: Token, wellFormed: bool)
    | PurgeFile(token: Token)

  datatype Event = Backend(step: BackendStep) | Relays(work: RelayStep) | Tick(now: int)

  predicate BackendEnabled(s: System, e: BackendStep)
  {
    match e
    case Issues(t, _) => s.boot.None? && t !in s.history.issuedAs
    case WriteFile(_) => s.boot.Some? && s.boot.value.Writing?
    case ReleaseToken => s.boot.Some? && s.boot.value.Releasing?
    case Present(_, _, _) => s.boot.None?
    case InvalidateSession(_) => s.boot.None?
    case UnlinkFile(t) => t in s.unlinking
  }

  predicate RelayEnabled(s: System, e: RelayStep)
  {
    match e
    case ClaimFile(t) => t in s.relay.files && t !in s.relay.claimed
    case JudgeFile(t, _) => t in s.relay.claimed
    case PurgeFile(t) => t in s.relay.files && s.relay.files[t].expiresAt <= s.now
  }

  function Count(m: map<Token, nat>, t: Token): nat
  {
    if t in m then m[t] else 0
  }

  function Redeem(h: History, t: Token): History
  {
    h.(redeemed := h.redeemed[t := Count(h.redeemed, t) + 1])
  }

  function FilesOf(s: System, session: string): set<Token>
  {
    if session in s.grantFiles then s.grantFiles[session] else {}
  }

  function Recorded(h: History, t: Token, grant: Grant, now: int): History
  {
    History(h.issuedAs[t := grant], h.redeemed,
            h.userLog[grant.user := Queue(h.userLog, grant.user) + [now]],
            h.sessionLog[grant.session := Queue(h.sessionLog, grant.session) + [now]])
  }

  function IssueStep(s: System, t: Token, grant: Grant): System
  {
    var (authority, ok) := Issue(s.authority, s.limits, t, grant, s.now);
    var dated := grant.(expiresAt := s.now + s.limits.ttl);
    if !ok then s.(authority := authority)
    else
      s.(authority := authority,
         boot := if grant.purpose == "realtime" then Some(Writing(t, dated)) else None,
         history := Recorded(s.history, t, dated, s.now))
  }

  function WriteStep(s: System, ok: bool): System
    requires s.boot.Some? && s.boot.value.Writing?
  {
    var t, grant := s.boot.value.token, s.boot.value.grant;
    if !ok then s.(boot := None)
    else
      s.(relay := s.relay.(files := s.relay.files[t := grant]), boot := Some(Releasing(t)),
         grantFiles := s.grantFiles[grant.session := FilesOf(s, grant.session) + {t}])
  }

  function PresentStep(s: System, t: Token, p: Presented, session: Option<SessionView>): System
  {
    var (authority, grant) := Consume(s.authority, t, p, session, s.now);
    s.(authority := authority, history := if grant.Some? then Redeem(s.history, t) else s.history)
  }

  function BackendApply(s: System, e: BackendStep): System
    requires BackendEnabled(s, e)
  {
    match e
    case Issues(t, grant) => IssueStep(s, t, grant)
    case WriteFile(ok) => WriteStep(s, ok)
    case ReleaseToken => s.(authority := Release(s.authority, s.boot.value.token), boot := None)
    case Present(t, p, session) => PresentStep(s, t, p, session)
    case InvalidateSession(id) =>
      s.(authority := Invalidate(s.authority, id), grantFiles := s.grantFiles - {id},
         unlinking := s.unlinking + FilesOf(s, id), history := s.history.(sessionLog := s.history.sessionLog - {id}))
    case UnlinkFile(t) => s.(relay := s.relay.(files := s.relay.files - {t}), unlinking := s.unlinking - {t})
  }

  /** The relay accepts a claimed file that is well formed, for its purpose and unexpired. */
  predicate RelayAccepts(s: System, t: Token, wellFormed: bool)
    requires t in s.relay.claimed
  {
    wellFormed && s.relay.claimed[t].purpose == "realtime" && s.relay.claimed[t].expiresAt > s.now
  }

  function RelayApply(s: System, e: RelayStep): System
    requires RelayEnabled(s, e)
  {
    match e
    case ClaimFile(t) => s.(relay := Relay(s.relay.files - {t}, s.relay.claimed[t := s.relay.files[t]]))
    case JudgeFile(t, wellFormed) =>
      s.(relay := s.relay.(claimed := s.relay.claimed - {t}),
         history := if RelayAccepts(s, t, wellFormed) then Redeem(s.history, t) else s.history)
    case PurgeFile(t) => s.(relay := s.relay.(files := s.relay.files - {t}))
  }

  predicate Enabled(s: System, e: Event)
  {
    match e
    case Backend(step) => BackendEnabled(s, step)
    case Relays(work) => RelayEnabled(s, work)
    case Tick(now) => s.now <= now
  }

  function Apply(s: System, e: Event): System
    requires Enabled(s, e)
  {
    match e
    case Backend(step) => BackendApply(s, step)
    case Relays(work) => RelayApply(s, work)
    case Tick(now) => s.(now := now)
  }

  predicate IsRun(s: System, run: seq<Event>)
    decreases |run|
  {
    run == [] || (Enabled(s, run[0]) && IsRun(Apply(s, run[0]), run[1..]))
  }

  function After(s: System, run: seq<Event>): System
    requires IsRun(s, run)
    decreases |run|
  {
    if run == [] then s else After(Apply(s, run[0]), run[1..])
  }

  // ------------------------------------------------------- where a token can be

  datatype Stage = Outside | InWriting(grant: Grant) | InReleasing

  /** Everything the system holds about one token. */
  datatype View = View(
    held: Option<Grant>,
    file: Option<Grant>,
    claim: Option<Grant>,
    redeemed: nat,
    stage: Stage,
    issued: Option<Grant>)

  function Find(m: map<Token, Grant>, t: Token): Option<Grant>
  {
    if t in m then Some(m[t]) else None
  }

  function StageOf(boot: Option<Boot>, t: Token): Stage
  {
    if boot.None? || boot.value.token != t then Outside
    else match boot.value case Writing(_, grant) => InWriting(grant) case Releasing(_) => InReleasing
  }

  function ViewOf(s: System, t: Token): View
  {
    View(Find(s.authority.grants, t), Find(s.relay.files, t), Find(s.relay.claimed, t), Count(s.history.redeemed, t),
         StageOf(s.boot, t), Find(s.history.issuedAs, t))
  }

  function One(o: Option<Grant>): nat
  {
    if o.Some? then 1 else 0
  }

  /**
   * A token is in one place at most, or redeemed and in none. The backend's copy does not
   * count while the bootstrap that wrote the file is about to release it.
   */
  predicate Sound(v: View)
  {
    && (v.held.Some? ==> v.held == v.issued) && (v.file.Some? ==> v.file == v.issued)
    && (v.claim.Some? ==> v.claim == v.issued)
    && (v.redeemed > 0 || !v.stage.Outside? ==> v.issued.Some?)
    && (v.stage.InWriting? ==> Some(v.stage.grant) == v.issued && v.file.None? && v.claim.None? && v.redeemed == 0)
    && (if v.stage.InReleasing? then 0 else One(v.held)) + One(v.file) + One(v.claim) + v.redeemed <= 1
  }

  /** The ways in which one step can change what is held about one token. */
  predicate Moves(v: View, w: View)
  {
    || w == v
    || (v.issued.None? && w.held == w.issued && w.issued.Some? && w.file == v.file && w.claim == v.claim
        && w.redeemed == v.redeemed
        && (w.stage.Outside? || w.stage == InWriting(w.issued.value)))
    || (v.stage.Outside? && w == v.(held := None))
    || (v.stage.Outside? && v.held.Some? && w == v.(held := None, redeemed := v.redeemed + 1))
    || (v.stage.InWriting? && w == v.(file := Some(v.stage.grant), stage := InReleasing))
    || (v.stage.InWriting? && w == v.(stage := Outside))
    || (v.stage.InReleasing? && w == v.(held := None, stage := Outside))
    || w == v.(file := None)
    || (v.file.Some? && v.claim.None? && w == v.(file := None, claim := v.file))
    || w == v.(claim := None)
    || (v.claim.Some? && w == v.(claim := None, redeemed := v.redeemed + 1))
  }

  lemma MoveIsSound(v: View, w: View)
    requires Sound(v) && Moves(v, w)
    ensures Sound(w)
  {
  }

  /** What issuing leaves of the tokens: the unexpired ones, and the new one if it was granted. */
  lemma IssueGrants(a: Authority, limits: Limits, u: Token, grant: Grant, now: int, t: Token)
    ensures
      var (b, ok) := Issue(a, limits, u, grant, now);
      Find(b.grants, t) ==
        if ok && t == u then Some(grant.(expiresAt := now + limits.ttl)) else Find(Unexpired(a.grants, now), t)
  {
  }

  lemma UnexpiredFind(grants: map<Token, Grant>, now: int, t: Token)
    ensures Find(Unexpired(grants, now), t) ==
      if t in grants && grants[t].expiresAt > now
      then Find(grants, t)
      else None
  {
  }

  lemma IssueMoves(s: System, u: Token, grant: Grant, t: Token)
    requires s.boot.None? && u !in s.history.issuedAs
    ensures Moves(ViewOf(s, t), ViewOf(IssueStep(s, u, grant), t))
  {
    var v := ViewOf(s, t);
    IssueGrants(s.authority, s.limits, u, grant, s.now, t);
    UnexpiredFind(s.authority.grants, s.now, t);
    var ok := Issue(s.authority, s.limits, u, grant, s.now).1;
    var w := ViewOf(IssueStep(s, u, grant), t);
    if ok && t == u {
      assert w.held == w.issued && w.file == v.file && w.claim == v.claim && w.redeemed == v.redeemed;
    } else {
      assert w == v.(held := w.held) && (w.held == v.held || w.held == None);
    }
  }

  lemma WriteMoves(s: System, ok: bool, t: Token)
    requires s.boot.Some? && s.boot.value.Writing?
    ensures Moves(ViewOf(s, t), ViewOf(WriteStep(s, ok), t))
  {
    var v, w := ViewOf(s, t), ViewOf(WriteStep(s, ok), t);
    assert t != s.boot.value.token ==> w == v;
    assert t == s.boot.value.token ==>
      w == if ok then v.(file := Some(v.stage.grant), stage := InReleasing) else v.(stage := Outside);
  }

  lemma ReleaseMoves(s: System, t: Token)
    requires s.boot.Some? && s.boot.value.Releasing?
    ensures Moves(ViewOf(s, t), ViewOf(BackendApply(s, ReleaseToken), t))
  {
    var v, w := ViewOf(s, t), ViewOf(BackendApply(s, ReleaseToken), t);
    assert w == if t == s.boot.value.token then v.(held := None, stage := Outside) else v;
  }

  lemma ConsumeGrants(a: Authority, u: Token, p: Presented, session: Option<SessionView>, now: int, t: Token)
    ensures Find(Consume(a, u, p, session, now).0.grants, t) ==
      if t == u
      then None
      else Find(Unexpired(a.grants, now), t)
  {
  }

  /** A credential comes back only if it is held and everything presented fits it. */
  lemma ConsumeResult(a: Authority, u: Token, p: Presented, session: Option<SessionView>, now: int)
    ensures Consume(a, u, p, session, now).1 ==
      if u in a.grants && Matches(a.grants[u], p, session, now) then Some(a.grants[u]) else None
  {
  }

  lemma PresentView(s: System, u: Token, p: Presented, session: Option<SessionView>, t: Token)
    requires s.boot.None?
    ensures
      var v, w := ViewOf(s, t), ViewOf(PresentStep(s, u, p, session), t);
      && (t != u ==> w == v || w == v.(held := None))
      && (t == u ==>
            if u in s.authority.grants && Matches(s.authority.grants[u], p, session, s.now)
            then w == v.(held := None, redeemed := v.redeemed + 1) else w == v.(held := None))
  {
    var v, w := ViewOf(s, t), ViewOf(PresentStep(s, u, p, session), t);
    ConsumeGrants(s.authority, u, p, session, s.now, t);
    ConsumeResult(s.authority, u, p, session, s.now);
    UnexpiredFind(s.authority.grants, s.now, t);
    assert w.file == v.file && w.claim == v.claim && w.stage == v.stage && w.issued == v.issued;
  }

  lemma InvalidateMoves(s: System, id: string, t: Token)
    requires s.boot.None?
    ensures
      ViewOf(BackendApply(s, InvalidateSession(id)), t) ==
        if t in s.authority.grants && s.authority.grants[t].session == id
        then ViewOf(s, t).(held := None)
        else ViewOf(s, t)
  {
  }

  lemma UnlinkMoves(s: System, u: Token, t: Token)
    requires u in s.unlinking
    ensures Moves(ViewOf(s, t), ViewOf(BackendApply(s, UnlinkFile(u)), t))
  {
    var v := ViewOf(s, t);
    assert ViewOf(BackendApply(s, UnlinkFile(u)), t) == if t == u then v.(file := None) else v;
  }

  lemma BackendMoves(s: System, e: BackendStep, t: Token)
    requires BackendEnabled(s, e)
    ensures Moves(ViewOf(s, t), ViewOf(BackendApply(s, e), t))
  {
    match e
    case Issues(u, grant) => IssueMoves(s, u, grant, t);
    case WriteFile(ok) => WriteMoves(s, ok, t);
    case ReleaseToken => ReleaseMoves(s, t);
    case Present(u, p, session) => PresentView(s, u, p, session, t);
    case InvalidateSession(id) => InvalidateMoves(s, id, t);
    case UnlinkFile(u) => UnlinkMoves(s, u, t);
  }

  lemma RelayMoves(s: System, e: RelayStep, t: Token)
    requires RelayEnabled(s, e)
    ensures Moves(ViewOf(s, t), ViewOf(RelayApply(s, e), t))
  {
    var v, w := ViewOf(s, t), ViewOf(RelayApply(s, e), t);
    match e
    case ClaimFile(u) =>
      assert w == if t == u then v.(file := None, claim := v.file) else v;
    case JudgeFile(u, wellFormed) =>
      assert t != u ==> w == v;
      assert t == u ==>
        w == v.(claim := None, redeemed := if RelayAccepts(s, u, wellFormed) then v.redeemed + 1 else v.redeemed);
    case PurgeFile(u) =>
      assert w == if t == u then v.(file := None) else v;
  }

  lemma StepMoves(s: System, e: Event, t: Token)
    requires Enabled(s, e)
    ensures Moves(ViewOf(s, t), ViewOf(Apply(s, e), t))
  {
    match e
    case Backend(step) => BackendMoves(s, step, t);
    case Relays(work) => RelayMoves(s, work, t);
    case Tick(now) => assert ViewOf(s.(now := now), t) == ViewOf(s, t);
  }

  lemma {:induction false} RunIsSound(s: System, run: seq<Event>, t: Token)
    requires IsRun(s, run) && Sound(ViewOf(s, t))
    ensures Sound(ViewOf(After(s, run), t))
    decreases |run|
  {
    if run != [] {
      StepMoves(s, run[0], t);
      MoveIsSound(ViewOf(s, t), ViewOf(Apply(s, run[0]), t));
      RunIsSound(Apply(s, run[0]), run[1..], t);
    }
  }

  // ------------------------------------------------------------------ redemption

  /** In every run a token is redeemed at most once, by the backend and the relay together. */
  lemma RedeemedAtMostOnce(limits: Limits, run: seq<Event>, t: Token)
    requires IsRun(Initial(limits), run)
    ensures Count(After(Initial(limits), run).history.redeemed, t) <= 1
  {
    RunIsSound(Initial(limits), run, t);
  }

  /**
   * A redemption deserved at the backend: the token is held and unexpired, session, purpose, binding
   * and nonce are those it was issued for, and its session is live on the same connection.
   */
  predicate DeservedAtBackend(s: System, e: BackendStep, t: Token)
  {
    && e.Present? && e.token == t && t in s.authority.grants && t in s.history.issuedAs
    && Fits(s.history.issuedAs[t], e.presented, e.session, s.now)
  }

  predicate Fits(issued: Grant, p: Presented, session: Option<SessionView>, now: int)
  {
    now < issued.expiresAt && p == Due(issued) && Live(issued, session, now)
  }

  /** A redemption deserved at the relay: the claimed file says what the token was issued for, and that is not over. */
  predicate DeservedAtRelay(s: System, e: RelayStep, t: Token)
  {
    && e.JudgeFile? && e.token == t && e.wellFormed
    && t in s.history.issuedAs && Find(s.relay.claimed, t) == Some(s.history.issuedAs[t])
    && s.history.issuedAs[t].purpose == "realtime" && s.history.issuedAs[t].expiresAt > s.now
  }

  /** Whether the step redeems the token. */
  predicate Redeems(s: System, e: Event, t: Token)
    requires Enabled(s, e)
  {
    Count(Apply(s, e).history.redeemed, t) != Count(s.history.redeemed, t)
  }

  lemma BackendRedeems(s: System, e: BackendStep, t: Token)
    requires Sound(ViewOf(s, t)) && BackendEnabled(s, e)
    ensures Redeems(s, Backend(e), t) <==> DeservedAtBackend(s, e, t)
  {
    if e.Present? {
      PresentView(s, e.token, e.presented, e.session, t);
      assert ViewOf(s, t).redeemed == Count(s.history.redeemed, t);
      assert ViewOf(BackendApply(s, e), t).redeemed == Count(BackendApply(s, e).history.redeemed, t);
      assert ViewOf(s, t).held == Find(s.authority.grants, t);
      if t in s.authority.grants {
        MatchesExactly(s.authority.grants[t], e.presented, e.session, s.now);
      }
    }
  }

  lemma RelayRedeems(s: System, e: RelayStep, t: Token)
    requires Sound(ViewOf(s, t)) && RelayEnabled(s, e)
    ensures Redeems(s, Relays(e), t) <==> DeservedAtRelay(s, e, t)
  {
    assert ViewOf(s, t).claim == Find(s.relay.claimed, t);
  }

  /** In every run a step redeems a token exactly when it deserves to, and it is the token's first redemption. */
  lemma RedemptionIsDeserved(limits: Limits, run: seq<Event>, e: Event, t: Token)
    requires IsRun(Initial(limits), run) && Enabled(After(Initial(limits), run), e)
    ensures
      var s := After(Initial(limits), run);
      && (Redeems(s, e, t) <==>
            (e.Backend? && DeservedAtBackend(s, e.step, t)) || (e.Relays? && DeservedAtRelay(s, e.work, t)))
      && (Redeems(s, e, t) ==>
            Count(s.history.redeemed, t) == 0 && Count(Apply(s, e).history.redeemed, t) == 1)
  {
    var s := After(Initial(limits), run);
    RunIsSound(Initial(limits), run, t);
    StepMoves(s, e, t);
    MoveIsSound(ViewOf(s, t), ViewOf(Apply(s, e), t));
    match e
    case Backend(step) => BackendRedeems(s, step, t);
    case Relays(work) => RelayRedeems(s, work, t);
    case Tick(_) =>
  }

  /** An issued token that is nowhere any more. */
  predicate Spent(v: View)
  {
    v.issued.Some? && v.held.None? && v.file.None? && v.claim.None? && v.stage.Outside?
  }

  lemma {:induction false} SpentStaysSpent(s: System, run: seq<Event>, t: Token)
    requires IsRun(s, run) && Spent(ViewOf(s, t))
    ensures Spent(ViewOf(After(s, run), t)) && Count(After(s, run).history.redeemed, t) == Count(s.history.redeemed, t)
    decreases |run|
  {
    if run != [] {
      StepMoves(s, run[0], t);
      SpentStaysSpent(Apply(s, run[0]), run[1..], t);
    }
  }

  /**
   * A token the backend holds is spent by presenting it: it is redeemed if what is presented and
   * the session found are what it was issued for, and otherwise it never will be, by either process.
   */
  lemma PresentingSpends(limits: Limits, run: seq<Event>, t: Token, p: Presented, session: Option<SessionView>,
                         later: seq<Event>)
    requires IsRun(Initial(limits), run)
    requires
      var s := After(Initial(limits), run);
      s.boot.None? && t in s.authority.grants && IsRun(PresentStep(s, t, p, session), later)
    ensures
      var s := After(Initial(limits), run);
      && t in s.history.issuedAs
      && Count(After(PresentStep(s, t, p, session), later).history.redeemed, t) ==
           if Fits(s.history.issuedAs[t], p, session, s.now) then 1 else 0
  {
    var s := After(Initial(limits), run);
    RunIsSound(Initial(limits), run, t);
    PresentView(s, t, p, session, t);
    assert ViewOf(s, t).held == Find(s.authority.grants, t) == Find(s.history.issuedAs, t);
    MatchesExactly(s.authority.grants[t], p, session, s.now);
    SpentStaysSpent(PresentStep(s, t, p, session), later, t);
  }

  /** A credential that was granted for anything but the relay can be redeemed by its owner at once. */
  lemma GrantedCanBeRedeemed(limits: Limits, run: seq<Event>, t: Token, grant: Grant, session: Option<SessionView>)
    requires IsRun(Initial(limits), run) && limits.ttl > 0 && grant.purpose != "realtime"
    requires
      var s := After(Initial(limits), run);
      && BackendEnabled(s, Issues(t, grant)) && Issue(s.authority, limits, t, grant, s.now).1
      && Live(grant, session, s.now)
    ensures
      var s := After(Initial(limits), run);
      Count(PresentStep(IssueStep(s, t, grant), t, Due(grant), session).history.redeemed, t) == 1
  {
    var s := After(Initial(limits), run);
    var w := IssueStep(s, t, grant);
    RunIsSound(Initial(limits), run, t);
    RunRates(limits, run, grant.user);
    IssueGrants(s.authority, s.limits, t, grant, s.now, t);
    PresentView(w, t, Due(grant), session, t);
    MatchesExactly(w.authority.grants[t], Due(grant), session, s.now);
    assert ViewOf(s, t).redeemed == ViewOf(w, t).redeemed == 0;
  }

  /** The steps of a relay credential from its grant to its redemption. */
  function RelayPath(t: Token): seq<Event>
  {
    [Backend(WriteFile(true)), Backend(ReleaseToken), Relays(ClaimFile(t)), Relays(JudgeFile(t, true))]
  }

  /** A credential granted for the relay is redeemed by it once its file is written, claimed and well formed. */
  lemma RelayGrantCanBeRedeemed(limits: Limits, run: seq<Event>, t: Token, grant: Grant)
    requires IsRun(Initial(limits), run) && limits.ttl > 0 && grant.purpose == "realtime"
    requires
      var s := After(Initial(limits), run);
      BackendEnabled(s, Issues(t, grant)) && Issue(s.authority, limits, t, grant, s.now).1
    ensures
      var w := IssueStep(After(Initial(limits), run), t, grant);
      IsRun(w, RelayPath(t)) && Count(After(w, RelayPath(t)).history.redeemed, t) == 1
  {
    var s := After(Initial(limits), run);
    RunIsSound(Initial(limits), run, t);
    RunRates(limits, run, grant.user);
    var w := IssueStep(s, t, grant);
    assert Count(w.history.redeemed, t) == Count(s.history.redeemed, t) == ViewOf(s, t).redeemed == 0;
    assert ViewOf(s, t).claim == Find(s.relay.claimed, t) && t !in s.relay.claimed;
    RelayPathRedeems(w, t);
  }

  lemma RelayPathRedeems(w: System, t: Token)
    requires w.boot.Some? && w.boot.value.Writing? && w.boot.value.token == t && t !in w.relay.claimed
    requires w.boot.value.grant.purpose == "realtime" && w.now < w.boot.value.grant.expiresAt
    ensures IsRun(w, RelayPath(t))
    ensures Count(After(w, RelayPath(t)).history.redeemed, t) == Count(w.history.redeemed, t) + 1
  {
    var path := RelayPath(t);
    var a := Apply(w, path[0]);
    var b := Apply(a, path[1]);
    var c := Apply(b, path[2]);
    var d := Apply(c, path[3]);
    assert path[1..][0] == path[1] && path[1..][1..] == path[2..];
    assert path[2..][0] == path[2] && path[2..][1..] == path[3..];
    assert path[3..][0] == path[3] && path[3..][1..] == [];
    assert IsRun(d, []) && IsRun(c, path[3..]) && IsRun(b, path[2..]) && IsRun(a, path[1..]);
    assert After(w, path) == After(a, path[1..]) == After(b, path[2..]) == After(c, path[3..]) == After(d, []) == d;
  }

  /** Invalidating a session spends every token of it that the backend holds. */
  lemma InvalidatingSpends(limits: Limits, run: seq<Event>, t: Token, later: seq<Event>)
    requires IsRun(Initial(limits), run)
    requires
      var s := After(Initial(limits), run);
      && s.boot.None? && t in s.authority.grants
      && IsRun(BackendApply(s, InvalidateSession(s.authority.grants[t].session)), later)
    ensures
      var s := After(Initial(limits), run);
      Count(After(BackendApply(s, InvalidateSession(s.authority.grants[t].session)), later).history.redeemed, t) == 0
  {
    var s := After(Initial(limits), run);
    RunIsSound(Initial(limits), run, t);
    var w := BackendApply(s, InvalidateSession(s.authority.grants[t].session));
    InvalidateMoves(s, s.authority.grants[t].session, t);
    SpentStaysSpent(w, later, t);
  }

  // ------------------------------------------------------------------ grant files

  /** The backend has handed the token over, or is about to release it. */
  predicate Handed(v: View)
  {
    v.issued.Some? && (v.stage.InReleasing? || (v.stage.Outside? && v.held.None?))
  }

  predicate HandedOver(v: View)
  {
    v.issued.Some? && v.stage.Outside? && v.held.None?
  }

  lemma HandedMoves(v: View, w: View)
    requires Moves(v, w)
    ensures Handed(v) ==> Handed(w)
    ensures HandedOver(v) ==> HandedOver(w)
  {
  }

  /** The backend remembers exactly tokens it has handed over, and every unclaimed file is remembered or about to go. */
  predicate FilesSound(s: System)
  {
    && (forall id, t :: id in s.grantFiles && t in s.grantFiles[id] ==> Handed(ViewOf(s, t)))
    && (forall t :: t in s.unlinking ==> HandedOver(ViewOf(s, t)))
    && (forall t :: t in s.relay.files ==> t in FilesOf(s, s.relay.files[t].session) || t in s.unlinking)
  }

  lemma SameLists(s: System, e: Event)
    requires Enabled(s, e) && !(e.Backend? && (e.step.WriteFile? || e.step.InvalidateSession? || e.step.UnlinkFile?))
    ensures Apply(s, e).grantFiles == s.grantFiles && Apply(s, e).unlinking == s.unlinking
    ensures forall t :: t in Apply(s, e).relay.files ==>
      t in s.relay.files && Apply(s, e).relay.files[t] == s.relay.files[t]
  {
    match e
    case Backend(step) =>
      match step {
        case Issues(_, _) =>
        case ReleaseToken =>
        case Present(_, _, _) =>
      }
    case Relays(work) =>
    case Tick(_) =>
  }

  lemma OtherKeepsFiles(s: System, e: Event)
    requires FilesSound(s) && Enabled(s, e)
    requires !(e.Backend? && (e.step.WriteFile? || e.step.InvalidateSession? || e.step.UnlinkFile?))
    ensures FilesSound(Apply(s, e))
  {
    var w := Apply(s, e);
    SameLists(s, e);
    ViewsMove(s, w, e);
    forall t | t in w.relay.files ensures t in FilesOf(w, w.relay.files[t].session) || t in w.unlinking {
      assert FilesOf(w, w.relay.files[t].session) == FilesOf(s, s.relay.files[t].session);
    }
  }

  lemma ViewsMove(s: System, w: System, e: Event)
    requires Enabled(s, e) && w == Apply(s, e)
    ensures forall t :: Handed(ViewOf(s, t)) ==> Handed(ViewOf(w, t))
    ensures forall t :: HandedOver(ViewOf(s, t)) ==> HandedOver(ViewOf(w, t))
  {
    forall t
      ensures Handed(ViewOf(s, t)) ==> Handed(ViewOf(w, t))
      ensures HandedOver(ViewOf(s, t)) ==> HandedOver(ViewOf(w, t))
    {
      StepMoves(s, e, t);
      HandedMoves(ViewOf(s, t), ViewOf(w, t));
    }
  }

  lemma WriteKeepsFiles(s: System, ok: bool)
    requires FilesSound(s) && s.boot.Some? && s.boot.value.Writing? && Sound(ViewOf(s, s.boot.value.token))
    ensures FilesSound(WriteStep(s, ok))
  {
    var w := WriteStep(s, ok);
    ViewsMove(s, w, Backend(WriteFile(ok)));
    var u := s.boot.value.token;
    assert ViewOf(s, u).stage.InWriting?;
    assert ok ==> ViewOf(w, u).stage.InReleasing? && ViewOf(w, u).issued == ViewOf(s, u).issued;
    forall id, t | id in w.grantFiles && t in w.grantFiles[id] ensures Handed(ViewOf(w, t)) {
      if t != u {
        assert id in s.grantFiles && t in s.grantFiles[id];
      }
    }
  }

  lemma InvalidateKeepsFiles(s: System, id: string)
    requires FilesSound(s) && s.boot.None?
    ensures FilesSound(BackendApply(s, InvalidateSession(id)))
  {
    var w := BackendApply(s, InvalidateSession(id));
    ViewsMove(s, w, Backend(InvalidateSession(id)));
    forall t | t in w.unlinking ensures HandedOver(ViewOf(w, t)) {
      if t !in s.unlinking {
        assert Handed(ViewOf(s, t)) && ViewOf(s, t).stage.Outside?;
      }
    }
  }

  lemma UnlinkKeepsFiles(s: System, u: Token)
    requires FilesSound(s) && u in s.unlinking
    ensures FilesSound(BackendApply(s, UnlinkFile(u)))
  {
    ViewsMove(s, BackendApply(s, UnlinkFile(u)), Backend(UnlinkFile(u)));
  }

  lemma StepKeepsFiles(s: System, e: Event)
    requires FilesSound(s) && Enabled(s, e) && (s.boot.Some? ==> Sound(ViewOf(s, s.boot.value.token)))
    ensures FilesSound(Apply(s, e))
  {
    if e.Backend? && e.step.WriteFile? {
      WriteKeepsFiles(s, e.step.ok);
    } else if e.Backend? && e.step.InvalidateSession? {
      InvalidateKeepsFiles(s, e.step.id);
    } else if e.Backend? && e.step.UnlinkFile? {
      UnlinkKeepsFiles(s, e.step.token);
    } else {
      OtherKeepsFiles(s, e);
    }
  }

  lemma {:induction false} RunKeepsFiles(s: System, run: seq<Event>)
    requires IsRun(s, run) && FilesSound(s) && forall t :: Sound(ViewOf(s, t))
    ensures FilesSound(After(s, run))
    decreases |run|
  {
    if run != [] {
      StepKeepsFiles(s, run[0]);
      forall t ensures Sound(ViewOf(Apply(s, run[0]), t)) {
        StepMoves(s, run[0], t);
        MoveIsSound(ViewOf(s, t), ViewOf(Apply(s, run[0]), t));
      }
      RunKeepsFiles(Apply(s, run[0]), run[1..]);
    }
  }

  /**
   * Invalidating a session puts every grant file of it that the relay has not claimed on the list of
   * files to remove.
   */
  lemma InvalidatingUnlinks(limits: Limits, run: seq<Event>, t: Token)
    requires IsRun(Initial(limits), run)
    requires var s := After(Initial(limits), run); s.boot.None? && t in s.relay.files
    ensures
      var s := After(Initial(limits), run);
      t in BackendApply(s, InvalidateSession(s.relay.files[t].session)).unlinking
  {
    RunKeepsFiles(Initial(limits), run);
  }

  /** A token whose grant file is removed before the relay claims it is never redeemed by either process. */
  lemma UnlinkingSpends(limits: Limits, run: seq<Event>, t: Token, later: seq<Event>)
    requires IsRun(Initial(limits), run)
    requires
      var s := After(Initial(limits), run);
      t in s.unlinking && t in s.relay.files && IsRun(BackendApply(s, UnlinkFile(t)), later)
    ensures Count(After(BackendApply(After(Initial(limits), run), UnlinkFile(t)), later).history.redeemed, t) == 0
  {
    var s := After(Initial(limits), run);
    RunKeepsFiles(Initial(limits), run);
    RunIsSound(Initial(limits), run, t);
    var w := BackendApply(s, UnlinkFile(t));
    assert HandedOver(ViewOf(s, t)) && ViewOf(s, t).file.Some?;
    assert ViewOf(w, t) == ViewOf(s, t).(file := None);
    SpentStaysSpent(w, later, t);
  }

  // ------------------------------------------------------------------------ rates

  ghost predicate RateSound(queue: Times, log: Times, now: int, limit: nat)
  {
    Tracks(queue, log, now) && Within(log, limit)
  }

  lemma PrunedQueue(m: map<string, Times>, cutoff: int, key: string)
    ensures Queue(PrunedAll(m, cutoff), key) == Pruned(Queue(m, key), cutoff)
  {
  }

  /** One queue through one issue. */
  lemma QueueThroughIssue(queue: Times, log: Times, now: int, limit: nat)
    requires RateSound(queue, log, now, limit)
    ensures RateSound(Pruned(queue, now - WINDOW_MILLIS), log, now, limit)
    ensures |Pruned(queue, now - WINDOW_MILLIS)| < limit ==>
      RateSound(Pruned(queue, now - WINDOW_MILLIS) + [now], log + [now], now, limit)
  {
    PrunedTracks(queue, log, now);
    if |Pruned(queue, now - WINDOW_MILLIS)| < limit {
      IssueStaysWithin(Pruned(queue, now - WINDOW_MILLIS), log, now, limit);
    }
  }

  lemma IssueQueues(a: Authority, limits: Limits, t: Token, grant: Grant, now: int, key: string)
    ensures
      var (b, ok) := Issue(a, limits, t, grant, now);
      var users := Pruned(Queue(a.issuedUsers, key), now - WINDOW_MILLIS);
      var sessions := Pruned(Queue(a.issued, key), now - WINDOW_MILLIS);
      && Queue(b.issuedUsers, key) == (if ok && key == grant.user then users + [now] else users)
      && Queue(b.issued, key) == (if ok && key == grant.session then sessions + [now] else sessions)
      && (ok && key == grant.user ==> |users| < limits.perUser)
      && (ok && key == grant.session ==> |sessions| < limits.perSession)
  {
    PrunedQueue(a.issuedUsers, now - WINDOW_MILLIS, key);
    PrunedQueue(a.issued, now - WINDOW_MILLIS, key);
  }

  /** What a granted credential adds to the logs. */
  lemma IssueLogs(s: System, t: Token, grant: Grant, key: string)
    ensures
      var ok := Issue(s.authority, s.limits, t, grant, s.now).1;
      var w := IssueStep(s, t, grant);
      && w.authority == Issue(s.authority, s.limits, t, grant, s.now).0
      && Queue(w.history.userLog, key) ==
         (if ok && key == grant.user then Queue(s.history.userLog, key) + [s.now] else Queue(s.history.userLog, key))
      && Queue(w.history.sessionLog, key) ==
         (if ok && key == grant.session
          then Queue(s.history.sessionLog, key) + [s.now] else Queue(s.history.sessionLog, key))
  {
  }

  lemma IssueKeepsUserRate(s: System, t: Token, grant: Grant, key: string)
    requires RateSound(Queue(s.authority.issuedUsers, key), Queue(s.history.userLog, key), s.now, s.limits.perUser)
    ensures
      var w := IssueStep(s, t, grant);
      RateSound(Queue(w.authority.issuedUsers, key), Queue(w.history.userLog, key), s.now, s.limits.perUser)
  {
    IssueQueues(s.authority, s.limits, t, grant, s.now, key);
    IssueLogs(s, t, grant, key);
    QueueThroughIssue(Queue(s.authority.issuedUsers, key), Queue(s.history.userLog, key), s.now, s.limits.perUser);
  }

  lemma IssueKeepsSessionRate(s: System, t: Token, grant: Grant, key: string)
    requires RateSound(Queue(s.authority.issued, key), Queue(s.history.sessionLog, key), s.now, s.limits.perSession)
    ensures
      var w := IssueStep(s, t, grant);
      RateSound(Queue(w.authority.issued, key), Queue(w.history.sessionLog, key), s.now, s.limits.perSession)
  {
    IssueQueues(s.authority, s.limits, t, grant, s.now, key);
    IssueLogs(s, t, grant, key);
    QueueThroughIssue(Queue(s.authority.issued, key), Queue(s.history.sessionLog, key), s.now, s.limits.perSession);
  }

  /**
   * A step other than issuing leaves the queues and logs alone, except that an invalidation drops
   * those of its session.
   */
  lemma OtherQueues(s: System, e: BackendStep)
    requires BackendEnabled(s, e) && !e.Issues?
    ensures BackendApply(s, e).authority.issuedUsers == s.authority.issuedUsers
    ensures BackendApply(s, e).history.userLog == s.history.userLog
    ensures !e.InvalidateSession? ==> BackendApply(s, e).authority.issued == s.authority.issued
    ensures !e.InvalidateSession? ==> BackendApply(s, e).history.sessionLog == s.history.sessionLog
    ensures e.InvalidateSession? ==> BackendApply(s, e).authority.issued == s.authority.issued - {e.id}
    ensures e.InvalidateSession? ==> BackendApply(s, e).history.sessionLog == s.history.sessionLog - {e.id}
  {
    match e
    case WriteFile(_) =>
    case ReleaseToken =>
    case Present(_, _, _) =>
    case InvalidateSession(_) =>
    case UnlinkFile(_) =>
  }

  lemma BackendClock(s: System, e: BackendStep)
    requires BackendEnabled(s, e)
    ensures BackendApply(s, e).now == s.now && BackendApply(s, e).limits == s.limits
  {
    match e
    case Issues(_, _) =>
    case WriteFile(_) =>
    case ReleaseToken =>
    case Present(_, _, _) =>
    case InvalidateSession(_) =>
    case UnlinkFile(_) =>
  }

  lemma RelayFrame(s: System, e: RelayStep)
    requires RelayEnabled(s, e)
    ensures RelayApply(s, e).now == s.now && RelayApply(s, e).limits == s.limits
    ensures RelayApply(s, e).authority == s.authority
    ensures RelayApply(s, e).history.userLog == s.history.userLog
    ensures RelayApply(s, e).history.sessionLog == s.history.sessionLog
  {
  }

  lemma EmptyRateSound(now: int, limit: nat)
    ensures RateSound([], [], now, limit)
  {
  }

  ghost predicate UserRateSound(s: System, key: string)
  {
    RateSound(Queue(s.authority.issuedUsers, key), Queue(s.history.userLog, key), s.now, s.limits.perUser)
  }

  ghost predicate SessionRateSound(s: System, key: string)
  {
    RateSound(Queue(s.authority.issued, key), Queue(s.history.sessionLog, key), s.now, s.limits.perSession)
  }

  lemma BackendKeepsRates(s: System, e: BackendStep, key: string)
    requires BackendEnabled(s, e)
    ensures UserRateSound(s, key) ==> UserRateSound(BackendApply(s, e), key)
    ensures SessionRateSound(s, key) ==> SessionRateSound(BackendApply(s, e), key)
  {
    BackendClock(s, e);
    if e.Issues? {
      if UserRateSound(s, key) {
        IssueKeepsUserRate(s, e.token, e.grant, key);
      }
      if SessionRateSound(s, key) {
        IssueKeepsSessionRate(s, e.token, e.grant, key);
      }
    } else {
      OtherQueues(s, e);
      EmptyRateSound(s.now, s.limits.perSession);
    }
  }

  lemma StepKeepsRates(s: System, e: Event, key: string)
    requires Enabled(s, e)
    ensures Apply(s, e).limits == s.limits
    ensures UserRateSound(s, key) ==> UserRateSound(Apply(s, e), key)
    ensures SessionRateSound(s, key) ==> SessionRateSound(Apply(s, e), key)
  {
    match e
    case Backend(step) =>
      BackendClock(s, step);
      BackendKeepsRates(s, step, key);
    case Relays(work) =>
      RelayFrame(s, work);
    case Tick(now) =>
      if UserRateSound(s, key) {
        LaterTracks(Queue(s.authority.issuedUsers, key), Queue(s.history.userLog, key), s.now, now);
      }
      if SessionRateSound(s, key) {
        LaterTracks(Queue(s.authority.issued, key), Queue(s.history.sessionLog, key), s.now, now);
      }
  }

  lemma {:induction false} RunKeepsRates(s: System, run: seq<Event>, key: string)
    requires IsRun(s, run) && UserRateSound(s, key) && SessionRateSound(s, key)
    ensures UserRateSound(After(s, run), key) && SessionRateSound(After(s, run), key)
    ensures After(s, run).limits == s.limits
    decreases |run|
  {
    if run != [] {
      StepKeepsRates(s, run[0], key);
      RunKeepsRates(Apply(s, run[0]), run[1..], key);
    }
  }

  /**
   * In every run and for every half-open minute, a user was issued at most the per-user
   * number of credentials, and a session at most the per-session number since it was last
   * invalidated.
   */
  lemma RatesHold(limits: Limits, run: seq<Event>, key: string, end: int)
    requires IsRun(Initial(limits), run)
    ensures InWindow(Queue(After(Initial(limits), run).history.userLog, key), end) <= limits.perUser
    ensures InWindow(Queue(After(Initial(limits), run).history.sessionLog, key), end) <= limits.perSession
  {
    RunRates(limits, run, key);
  }

  /** Where the rates are sound, the pruned queues have exactly the issue times of the minute that ends now. */
  lemma UserQueueIsWindow(s: System, key: string)
    requires UserRateSound(s, key)
    ensures |Queue(Refreshed(s.authority, s.now).issuedUsers, key)| == InWindow(Queue(s.history.userLog, key), s.now)
  {
    PrunedQueue(s.authority.issuedUsers, s.now - WINDOW_MILLIS, key);
    PrunedIsWindow(Queue(s.authority.issuedUsers, key), Queue(s.history.userLog, key), s.now);
  }

  lemma SessionQueueIsWindow(s: System, key: string)
    requires SessionRateSound(s, key)
    ensures |Queue(Refreshed(s.authority, s.now).issued, key)| == InWindow(Queue(s.history.sessionLog, key), s.now)
  {
    PrunedQueue(s.authority.issued, s.now - WINDOW_MILLIS, key);
    PrunedIsWindow(Queue(s.authority.issued, key), Queue(s.history.sessionLog, key), s.now);
  }

  lemma RunRates(limits: Limits, run: seq<Event>, key: string)
    requires IsRun(Initial(limits), run)
    ensures UserRateSound(After(Initial(limits), run), key) && SessionRateSound(After(Initial(limits), run), key)
    ensures After(Initial(limits), run).limits == limits
  {
    EmptyRateSound(0, limits.perUser);
    EmptyRateSound(0, limits.perSession);
    RunKeepsRates(Initial(limits), run, key);
  }

  /** A credential is granted exactly when neither minute that ends now is full and neither cap is reached. */
  lemma GrantedExactly(limits: Limits, run: seq<Event>, t: Token, grant: Grant)
    requires IsRun(Initial(limits), run)
    ensures
      var s := After(Initial(limits), run);
      Issue(s.authority, limits, t, grant, s.now).1 <==>
        && InWindow(Queue(s.history.userLog, grant.user), s.now) < limits.perUser
        && InWindow(Queue(s.history.sessionLog, grant.session), s.now) < limits.perSession
        && |UnusedOf(Unexpired(s.authority.grants, s.now), grant.session)| < limits.unusedPerSession
        && |Unexpired(s.authority.grants, s.now)| < limits.unusedGlobal
  {
    RunRates(limits, run, grant.user);
    RunRates(limits, run, grant.session);
    UserQueueIsWindow(After(Initial(limits), run), grant.user);
    SessionQueueIsWindow(After(Initial(limits), run), grant.session);
  }

  // -------------------------------------------------------------------------- caps

  predicate Capped(grants: map<Token, Grant>, session: string, limits: Limits)
  {
    |grants| <= limits.unusedGlobal && |UnusedOf(grants, session)| <= limits.unusedPerSession
  }

  lemma FewerGrants(few: map<Token, Grant>, many: map<Token, Grant>, session: string)
    requires forall t :: t in few ==> t in many && few[t] == many[t]
    ensures |few| <= |many| && |UnusedOf(few, session)| <= |UnusedOf(many, session)|
  {
    assert few.Keys <= many.Keys;
    SubsetSize(few.Keys, many.Keys);
    assert |few| == |few.Keys| && |many| == |many.Keys|;
    SubsetSize(UnusedOf(few, session), UnusedOf(many, session));
  }

  lemma OneMoreGrant(grants: map<Token, Grant>, t: Token, grant: Grant)
    ensures |grants[t := grant]| <= |grants| + 1
  {
    assert grants[t := grant].Keys == grants.Keys + {t};
    assert |grants[t := grant]| == |grants.Keys + {t}| && |grants| == |grants.Keys|;
  }

  lemma OneMoreUnused(grants: map<Token, Grant>, t: Token, grant: Grant, session: string)
    ensures |UnusedOf(grants[t := grant], session)|
            <= |UnusedOf(grants, session)| + if grant.session == session then 1 else 0
  {
    var extra := if grant.session == session then {t} else {};
    assert UnusedOf(grants[t := grant], session) <= UnusedOf(grants, session) + extra;
    SubsetSize(UnusedOf(grants[t := grant], session), UnusedOf(grants, session) + extra);
  }

  lemma IssueGrantTable(a: Authority, limits: Limits, t: Token, grant: Grant, now: int)
    ensures
      var (b, ok) := Issue(a, limits, t, grant, now);
      var left := Unexpired(a.grants, now);
      && b.grants == (if ok then left[t := grant.(expiresAt := now + limits.ttl)] else left)
      && (ok ==> |UnusedOf(left, grant.session)| < limits.unusedPerSession && |left| < limits.unusedGlobal)
  {
  }

  lemma IssueKeepsCaps(a: Authority, limits: Limits, t: Token, grant: Grant, now: int, session: string)
    requires Capped(a.grants, session, limits)
    ensures Capped(Issue(a, limits, t, grant, now).0.grants, session, limits)
  {
    IssueGrantTable(a, limits, t, grant, now);
    FewerGrants(Unexpired(a.grants, now), a.grants, session);
    OneMoreGrant(Unexpired(a.grants, now), t, grant.(expiresAt := now + limits.ttl));
    OneMoreUnused(Unexpired(a.grants, now), t, grant.(expiresAt := now + limits.ttl), session);
  }

  lemma OtherGrants(s: System, e: BackendStep)
    requires BackendEnabled(s, e) && !e.Issues?
    ensures
      var few := BackendApply(s, e).authority.grants;
      forall t :: t in few ==> t in s.authority.grants && few[t] == s.authority.grants[t]
  {
    match e
    case WriteFile(_) =>
    case ReleaseToken =>
    case Present(_, _, _) =>
    case InvalidateSession(_) =>
    case UnlinkFile(_) =>
  }

  lemma StepKeepsCaps(s: System, e: Event, session: string)
    requires Enabled(s, e) && Capped(s.authority.grants, session, s.limits)
    ensures Capped(Apply(s, e).authority.grants, session, s.limits) && Apply(s, e).limits == s.limits
  {
    match e
    case Backend(step) =>
      BackendClock(s, step);
      if step.Issues? {
        IssueKeepsCaps(s.authority, s.limits, step.token, step.grant, s.now, session);
      } else {
        OtherGrants(s, step);
        FewerGrants(BackendApply(s, step).authority.grants, s.authority.grants, session);
      }
    case Relays(work) => RelayFrame(s, work);
    case Tick(_) =>
  }

  lemma {:induction false} CapsHold(s: System, run: seq<Event>, session: string)
    requires IsRun(s, run) && Capped(s.authority.grants, session, s.limits)
    ensures Capped(After(s, run).authority.grants, session, s.limits)
    decreases |run|
  {
    if run != [] {
      StepKeepsCaps(s, run[0], session);
      CapsHold(Apply(s, run[0]), run[1..], session);
    }
  }

  /** The unused credentials never exceed the cap of any session or the global cap. */
  lemma CapsAlwaysHold(limits: Limits, run: seq<Event>, session: string)
    requires IsRun(Initial(limits), run)
    ensures Capped(After(Initial(limits), run).authority.grants, session, limits)
  {
    assert UnusedOf(map[], session) == {};
    CapsHold(Initial(limits), run, session);
  }
}
