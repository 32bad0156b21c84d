/** Duplicate suppression of message ids within one application session. */
module Dedup {
  import opened Collections

  type MessageId = nat

  function Without(ids: seq<MessageId>, id: MessageId): (r: seq<MessageId>)
    ensures id !in r
    ensures forall x :: x in r ==> x in ids
  {
    if ids == [] then []
    else if ids[0] == id then Without(ids[1..], id)
    else [ids[0]] + Without(ids[1..], id)
  }

  /** The last `limit` ids. */
  function Latest(ids: seq<MessageId>, limit: nat): (r: seq<MessageId>)
    ensures |r| <= limit
  {
    if |ids| <= limit then ids else ids[|ids| - limit..]
  }

  /** The distinct ids of a history, ordered by their last occurrence. */
  function Recent(history: seq<MessageId>): seq<MessageId>
  {
    if history == [] then []
    else Without(Recent(history[..|history| - 1]), history[|history| - 1]) + [history[|history| - 1]]
  }

  /** One call: an id that is stored moves to the end; a new one is appended and the oldest are dropped. */
  function Next(stored: seq<MessageId>, id: MessageId, limit: nat): seq<MessageId>
  {
    if id in stored then Without(stored, id) + [id] else Latest(stored + [id], limit)
  }

  function StoredAfter(history: seq<MessageId>, limit: nat): seq<MessageId>
  {
    if history == [] then [] else Next(StoredAfter(history[..|history| - 1], limit), history[|history| - 1], limit)
  }

  // -------------------------------------------------------------- about Without

  lemma {:induction false} WithoutConcat(a: seq<MessageId>, b: seq<MessageId>, id: MessageId)
    ensures Without(a + b, id) == Without(a, id) + Without(b, id)
    decreases |a|
  {
    if a == [] {
      assert a + b == b;
    } else {
      assert (a + b)[1..] == a[1..] + b;
      WithoutConcat(a[1..], b, id);
    }
  }

  lemma {:induction false} WithoutAbsent(ids: seq<MessageId>, id: MessageId)
    requires id !in ids
    ensures Without(ids, id) == ids
    decreases |ids|
  {
    if ids != [] {
      WithoutAbsent(ids[1..], id);
    }
  }

  lemma DistinctParts(a: seq<MessageId>, b: seq<MessageId>)
    requires Distinct(a + b)
    ensures Distinct(a) && Distinct(b) && forall x :: x in a ==> x !in b
  {
    var ab := a + b;
    assert forall i :: 0 <= i < |a| ==> ab[i] == a[i];
    assert forall i :: 0 <= i < |b| ==> ab[|a| + i] == b[i];
  }

  lemma {:induction false} WithoutOnce(ids: seq<MessageId>, id: MessageId)
    requires Distinct(ids) && id in ids
    ensures |Without(ids, id)| == |ids| - 1
    decreases |ids|
  {
    assert ids == [ids[0]] + ids[1..];
    DistinctParts([ids[0]], ids[1..]);
    if ids[0] == id {
      WithoutAbsent(ids[1..], id);
    } else {
      WithoutOnce(ids[1..], id);
    }
  }

  lemma {:induction false} WithoutDistinct(ids: seq<MessageId>, id: MessageId)
    requires Distinct(ids)
    ensures Distinct(Without(ids, id) + [id]) && Distinct(Without(ids, id))
    decreases |ids|
  {
    if ids != [] {
      assert ids == [ids[0]] + ids[1..];
      DistinctParts([ids[0]], ids[1..]);
      WithoutDistinct(ids[1..], id);
      assert ids[0] !in Without(ids[1..], id);
    }
  }

  lemma {:induction false} RecentDistinct(history: seq<MessageId>)
    ensures Distinct(Recent(history))
    decreases |history|
  {
    if history != [] {
      RecentDistinct(history[..|history| - 1]);
      WithoutDistinct(Recent(history[..|history| - 1]), history[|history| - 1]);
    }
  }

  // ------------------------------------------------------------------ refinement

  lemma LatestOfConcat(older: seq<MessageId>, tail: seq<MessageId>, limit: nat)
    requires |tail| >= limit || older == []
    ensures Latest(older + tail, limit) == Latest(tail, limit)
  {
    if older == [] {
      assert older + tail == tail;
    }
  }

  /** One call on the latest ids does what one more id does to all of them. */
  lemma NextOfLatest(all: seq<MessageId>, id: MessageId, limit: nat)
    requires Distinct(all)
    ensures Next(Latest(all, limit), id, limit) == Latest(Without(all, id) + [id], limit)
  {
    var latest := Latest(all, limit);
    var older := all[..|all| - |latest|];
    CutLatest(all, limit);
    DistinctParts(older, latest);
    WithoutConcat(older, latest, id);
    Associates(Without(older, id), Without(latest, id), [id]);
    NextBehind(older, latest, id, limit);
  }

  lemma NextBehind(older: seq<MessageId>, latest: seq<MessageId>, id: MessageId, limit: nat)
    requires Distinct(latest) && |latest| <= limit && (|latest| == limit || older == [])
    ensures Next(latest, id, limit) == Latest(Without(older, id) + (Without(latest, id) + [id]), limit)
  {
    NextLength(latest, id);
    LatestOfConcat(Without(older, id), Without(latest, id) + [id], limit);
  }

  lemma CutLatest(all: seq<MessageId>, limit: nat)
    ensures all == all[..|all| - |Latest(all, limit)|] + Latest(all, limit)
    ensures |Latest(all, limit)| == limit || all[..|all| - |Latest(all, limit)|] == []
  {
  }

  lemma NextLength(latest: seq<MessageId>, id: MessageId)
    requires Distinct(latest)
    ensures |Without(latest, id) + [id]| == if id in latest then |latest| else |latest| + 1
    ensures id !in latest ==> Without(latest, id) == latest
  {
    if id in latest {
      WithoutOnce(latest, id);
    } else {
      WithoutAbsent(latest, id);
    }
  }

  /** The stored ids are exactly the most recent `limit` distinct ids of the whole history. */
  lemma {:induction false} StoredIsLatest(history: seq<MessageId>, limit: nat)
    ensures StoredAfter(history, limit) == Latest(Recent(history), limit)
    decreases |history|
  {
    if history != [] {
      var most := history[..|history| - 1];
      StoredIsLatest(most, limit);
      RecentDistinct(most);
      NextOfLatest(Recent(most), history[|history| - 1], limit);
    }
  }

  // ----------------------------------------------------------------- redelivery

  function IdsOf(history: seq<MessageId>): set<MessageId>
  {
    set id | id in history
  }

  lemma {:induction false} DistinctSize(ids: seq<MessageId>)
    requires Distinct(ids)
    ensures |ids| == |IdsOf(ids)|
    decreases |ids|
  {
    if ids == [] {
      assert IdsOf(ids) == {};
    } else {
      var most, last := ids[..|ids| - 1], ids[|ids| - 1];
      assert ids == most + [last];
      DistinctSize(most);
      assert IdsOf(ids) == IdsOf(most) + {last};
    }
  }

  lemma {:induction false} WithoutKeeps(ids: seq<MessageId>, id: MessageId, other: MessageId)
    requires other in ids && other != id
    ensures other in Without(ids, id)
    decreases |ids|
  {
    if ids[0] != other {
      WithoutKeeps(ids[1..], id, other);
    }
  }

  /** The recent ids are the ids of the history. */
  lemma {:induction false} RecentHas(history: seq<MessageId>, id: MessageId)
    ensures id in Recent(history) <==> id in history
    decreases |history|
  {
    if history != [] {
      var most, last := history[..|history| - 1], history[|history| - 1];
      assert history == most + [last];
      RecentHas(most, id);
      if id in most && id != last {
        WithoutKeeps(Recent(most), last, id);
      }
    }
  }

  lemma RecentSize(history: seq<MessageId>)
    ensures |Recent(history)| == |IdsOf(history)|
  {
    RecentDistinct(history);
    DistinctSize(Recent(history));
    forall id ensures id in IdsOf(Recent(history)) <==> id in IdsOf(history) {
      RecentHas(history, id);
    }
    assert IdsOf(Recent(history)) == IdsOf(history);
  }

  function WithoutAll(ids: seq<MessageId>, removed: seq<MessageId>): seq<MessageId>
  {
    if removed == [] then ids else Without(WithoutAll(ids, removed[..|removed| - 1]), removed[|removed| - 1])
  }

  /** More history goes behind what it does not repeat. */
  lemma {:induction false} RecentConcat(a: seq<MessageId>, b: seq<MessageId>)
    ensures Recent(a + b) == WithoutAll(Recent(a), b) + Recent(b)
    decreases |b|
  {
    if b == [] {
      assert a + b == a;
    } else {
      var most, last := b[..|b| - 1], b[|b| - 1];
      RecentConcat(a, most);
      assert (a + b)[..|a + b| - 1] == a + most;
      WithoutConcat(WithoutAll(Recent(a), most), Recent(most), last);
      Associates(WithoutAll(Recent(a), b), Without(Recent(most), last), [last]);
    }
  }

  lemma {:induction false} WithoutAllKeepsLast(ids: seq<MessageId>, id: MessageId, removed: seq<MessageId>)
    requires id !in removed
    ensures WithoutAll(ids + [id], removed) == WithoutAll(ids, removed) + [id]
    decreases |removed|
  {
    if removed != [] {
      var most, last := removed[..|removed| - 1], removed[|removed| - 1];
      WithoutAllKeepsLast(ids, id, most);
      WithoutConcat(WithoutAll(ids, most), [id], last);
      WithoutAbsent([id], last);
    }
  }

  /** After its last occurrence an id is followed by the distinct ids since then. */
  lemma LastOccurrence(before: seq<MessageId>, id: MessageId, since: seq<MessageId>)
    requires id !in since
    ensures Recent(before + [id] + since) == WithoutAll(Without(Recent(before), id), since) + [id] + Recent(since)
  {
    RecentConcat(before + [id], since);
    assert (before + [id])[..|before|] == before;
    WithoutAllKeepsLast(Without(Recent(before), id), id, since);
  }

  lemma InLatest(older: seq<MessageId>, id: MessageId, newer: seq<MessageId>, limit: nat)
    requires Distinct(older + [id] + newer)
    ensures id in Latest(older + [id] + newer, limit) <==> |newer| < limit
  {
    var all := older + [id] + newer;
    assert all[|older|] == id;
    if |newer| < limit {
      if |all| > limit {
        assert all[|all| - limit..][|older| - (|all| - limit)] == id;
      }
    } else {
      forall k | |all| - limit <= k < |all| ensures all[k] != id {
        assert k > |older|;
      }
    }
  }

  /**
   * An id that has occurred is delivered again exactly when at least `limit` other distinct
   * ids came after its last occurrence.
   */
  lemma RedeliveredExactly(before: seq<MessageId>, id: MessageId, since: seq<MessageId>, limit: nat)
    requires id !in since
    ensures id !in StoredAfter(before + [id] + since, limit) <==> |IdsOf(since)| >= limit
  {
    var history := before + [id] + since;
    StoredIsLatest(history, limit);
    LastOccurrence(before, id, since);
    RecentDistinct(history);
    InLatest(WithoutAll(Without(Recent(before), id), since), id, Recent(since), limit);
    RecentSize(since);
  }

  /** An id that never occurred is delivered. */
  lemma FirstIsDelivered(history: seq<MessageId>, id: MessageId, limit: nat)
    requires id !in history
    ensures id !in StoredAfter(history, limit)
  {
    StoredIsLatest(history, limit);
    RecentHas(history, id);
  }
}

/** A session's store of ids, and the link that dispatches data frames to sessions. */
module Delivery {
  import opened Dedup

  /** The part of an application session that remembers message ids. */
  class ApplicationSession {
    const limit: nat
    var stored: seq<MessageId>

    constructor (limit: nat)
      ensures this.limit == limit && stored == []
    {
      this.limit := limit;
      stored := [];
    }

    method SeenMessage(id: MessageId) returns (seen: bool)
      modifies this`stored
      ensures seen == (id in old(stored)) && stored == Next(old(stored), id, limit)
    {
      if id in stored {
        stored := Without(stored, id) + [id];
        return true;
      }
      stored := stored + [id];
      ghost var whole := stored;
      while |stored| > limit
        invariant |stored| <= |whole| && stored == whole[|whole| - |stored|..]
        invariant |whole| > limit ==> |stored| >= limit
        invariant |whole| <= limit ==> stored == whole
      {
        stored := stored[1..];
      }
      return false;
    }
  }

  type LogicalId = string

  /** A receive callback that has decoded a data frame. */
  type Callback = nat

  datatype Data = Data(logical: LogicalId, id: MessageId)

  datatype Link = Link(
    open: set<LogicalId>,
    closed: set<LogicalId>,
    stored: map<LogicalId, seq<MessageId>>,
    passed: map<Callback, Data>,                // frames past the test for a closed id
    handled: seq<Data>,                         // what reached the handler, in order
    history: map<LogicalId, seq<MessageId>>)    // the ids each session was asked about, in order

  const EMPTY := Link({}, {}, map[], map[], [], map[])

  datatype Event =
    | Test(callback: Callback, data: Data)
    | Dispatch(callback: Callback, admitted: bool)
    | Close(logical: LogicalId)
    | Discard(logical: LogicalId)

  function At(m: map<LogicalId, seq<MessageId>>, l: LogicalId): seq<MessageId>
  {
    if l in m then m[l] else []
  }

  predicate Enabled(s: Link, e: Event)
  {
    match e
    case Test(k, _) => k !in s.passed
    case Dispatch(k, _) => k in s.passed
    case Close(_) => true
    case Discard(_) => true
  }

  /** A frame is admitted or refused by the server, then checked for repetition. */
  function Dispatched(s: Link, d: Data, admitted: bool, limit: nat): Link
  {
    if !admitted then s
    else
      s.(open := s.open + {d.logical},
         stored := s.stored[d.logical := Next(At(s.stored, d.logical), d.id, limit)],
         history := s.history[d.logical := At(s.history, d.logical) + [d.id]],
         handled := if d.id in At(s.stored, d.logical) then s.handled else s.handled + [d])
  }

  /** A frame for a closed id is drained at the test; a discarded session forgets its ids. */
  function Apply(s: Link, e: Event, limit: nat): Link
    requires Enabled(s, e)
  {
    match e
    case Test(k, d) => if d.logical in s.closed then s else s.(passed := s.passed[k := d])
    case Dispatch(k, admitted) => Dispatched(s.(passed := s.passed - {k}), s.passed[k], admitted, limit)
    case Close(l) => if l in s.open then s.(open := s.open - {l}, closed := s.closed + {l}) else s
    case Discard(l) => s.(open := s.open - {l}, stored := s.stored - {l}, history := s.history - {l})
  }

  predicate IsRun(s: Link, run: seq<Event>, limit: nat)
    decreases |run|
  {
    run == [] || (Enabled(s, run[0]) && IsRun(Apply(s, run[0], limit), run[1..], limit))
  }

  function After(s: Link, run: seq<Event>, limit: nat): Link
    requires IsRun(s, run, limit)
    decreases |run|
  {
    if run == [] then s else After(Apply(s, run[0], limit), run[1..], limit)
  }

  /** How many messages of a logical id reached the handler. */
  function HandledFor(handled: seq<Data>, l: LogicalId): nat
  {
    if handled == [] then 0
    else HandledFor(handled[..|handled| - 1], l) + if handled[|handled| - 1].logical == l then 1 else 0
  }

  /** The callbacks that hold a frame of this id past the test. */
  function PassedFor(s: Link, l: LogicalId): set<Callback>
  {
    set k | k in s.passed && s.passed[k].logical == l
  }

  /** A step handles at most the message it dispatches. */
  lemma HandledStep(s: Link, e: Event, limit: nat, l: LogicalId)
    requires Enabled(s, e)
    ensures
      var before, after := HandledFor(s.handled, l), HandledFor(Apply(s, e, limit).handled, l);
      before <= after <= before + if e.Dispatch? && s.passed[e.callback].logical == l then 1 else 0
  {
    var t := Apply(s, e, limit);
    if t.handled != s.handled {
      assert t.handled[..|t.handled| - 1] == s.handled;
    }
  }

  lemma PassedStep(s: Link, e: Event, limit: nat, l: LogicalId)
    requires Enabled(s, e) && l in s.closed
    ensures l in Apply(s, e, limit).closed
    ensures PassedFor(Apply(s, e, limit), l) ==
      if e.Dispatch? && s.passed[e.callback].logical == l then PassedFor(s, l) - {e.callback} else PassedFor(s, l)
  {
  }

  lemma ClosedStep(s: Link, e: Event, limit: nat, l: LogicalId)
    requires Enabled(s, e) && l in s.closed
    ensures
      var t := Apply(s, e, limit);
      && l in t.closed && PassedFor(t, l) <= PassedFor(s, l)
      && HandledFor(t.handled, l) + |PassedFor(t, l)| <= HandledFor(s.handled, l) + |PassedFor(s, l)|
  {
    HandledStep(s, e, limit, l);
    PassedStep(s, e, limit, l);
    assert e.Dispatch? && s.passed[e.callback].logical == l ==> e.callback in PassedFor(s, l);
  }

  /**
   * Once a logical id is closed, only frames that had passed the test before can still reach
   * the handler, each at most once; with none of them left nothing more does.
   */
  lemma {:induction false} ClosedIsSilent(s: Link, run: seq<Event>, limit: nat, l: LogicalId)
    requires IsRun(s, run, limit) && l in s.closed
    ensures HandledFor(After(s, run, limit).handled, l) + |PassedFor(After(s, run, limit), l)|
            <= HandledFor(s.handled, l) + |PassedFor(s, l)|
    ensures PassedFor(s, l) == {} ==> HandledFor(After(s, run, limit).handled, l) == HandledFor(s.handled, l)
    decreases |run|
  {
    if run != [] {
      ClosedStep(s, run[0], limit, l);
      HandledStep(s, run[0], limit, l);
      ClosedIsSilent(Apply(s, run[0], limit), run[1..], limit, l);
    }
  }

  /** A session stores what the history of its ids says. */
  ghost predicate StoredSound(s: Link, limit: nat)
  {
    forall l :: At(s.stored, l) == StoredAfter(At(s.history, l), limit)
  }

  lemma StoredStep(s: Link, e: Event, limit: nat)
    requires StoredSound(s, limit) && Enabled(s, e)
    ensures StoredSound(Apply(s, e, limit), limit)
  {
    var t := Apply(s, e, limit);
    forall l ensures At(t.stored, l) == StoredAfter(At(t.history, l), limit) {
      assert At(s.stored, l) == StoredAfter(At(s.history, l), limit);
      if e.Dispatch? && e.admitted && s.passed[e.callback].logical == l {
        var past := At(s.history, l);
        assert (past + [s.passed[e.callback].id])[..|past|] == past;
      }
    }
  }

  lemma {:induction false} StoredRun(s: Link, run: seq<Event>, limit: nat)
    requires StoredSound(s, limit) && IsRun(s, run, limit)
    ensures StoredSound(After(s, run, limit), limit)
    decreases |run|
  {
    if run != [] {
      StoredStep(s, run[0], limit);
      StoredRun(Apply(s, run[0], limit), run[1..], limit);
    }
  }

  /** On a link, a repeated message reaches the handler exactly after `limit` other ids of its session. */
  lemma HandledAgainExactly(run: seq<Event>, limit: nat, k: Callback, before: seq<MessageId>, since: seq<MessageId>)
    requires IsRun(EMPTY, run, limit) && k in After(EMPTY, run, limit).passed
    requires
      var s := After(EMPTY, run, limit);
      var d := s.passed[k];
      At(s.history, d.logical) == before + [d.id] + since && d.id !in since
    ensures
      var s := After(EMPTY, run, limit);
      Apply(s, Dispatch(k, true), limit).handled == s.handled + [s.passed[k]] <==> |IdsOf(since)| >= limit
  {
    StoredRun(EMPTY, run, limit);
    var s := After(EMPTY, run, limit);
    RedeliveredExactly(before, s.passed[k].id, since, limit);
  }

  /** In every run a message that its session has not been asked about, on an id that is not closed, is handled. */
  lemma NewMessageIsHandled(run: seq<Event>, limit: nat, k: Callback, d: Data)
    requires IsRun(EMPTY, run, limit)
    requires
      var s := After(EMPTY, run, limit);
      k !in s.passed && d.logical !in s.closed && d.id !in At(s.history, d.logical)
    ensures
      var s := After(EMPTY, run, limit);
      var tested := Apply(s, Test(k, d), limit);
      Enabled(tested, Dispatch(k, true)) && Apply(tested, Dispatch(k, true), limit).handled == s.handled + [d]
  {
    var s := After(EMPTY, run, limit);
    StoredRun(EMPTY, run, limit);
    assert At(s.stored, d.logical) == StoredAfter(At(s.history, d.logical), limit);
    FirstIsDelivered(At(s.history, d.logical), d.id, limit);
  }
}
