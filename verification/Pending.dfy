/** The unacknowledged frames of a link and the byte count kept beside them. */
module PendingFrames {
  import opened Collections
  import opened Sums

  type FrameId = nat

  /** Frame lengths by message id, the running byte count, and every id that was ever entered. */
  datatype Queue = Queue(pending: map<FrameId, nat>, bytes: int, used: set<FrameId>)

  datatype Bounds = Bounds(messages: nat, bytes: nat)

  const EMPTY := Queue(map[], 0, {})

  datatype Event =
    | Enter(id: FrameId, size: nat)      // sent, or adopted from a replaced link
    | Settle(id: FrameId)                // acknowledged or timed out
    | Fail(id: FrameId, size: nat)       // the write of a frame of this size failed

  predicate Admits(q: Queue, b: Bounds, size: nat)
  {
    |q.pending| < b.messages && q.bytes + size <= b.bytes
  }

  /** Entering overwrites whatever the id named before; a failed write subtracts its own size. */
  function Apply(q: Queue, b: Bounds, e: Event): Queue
  {
    match e
    case Enter(id, size) =>
      if Admits(q, b, size) then Queue(q.pending[id := size], q.bytes + size, q.used + {id}) else q
    case Settle(id) =>
      if id in q.pending then q.(pending := q.pending - {id}, bytes := q.bytes - q.pending[id]) else q
    case Fail(id, size) =>
      if id in q.pending then q.(pending := q.pending - {id}, bytes := q.bytes - size) else q
  }

  function After(q: Queue, b: Bounds, run: seq<Event>): Queue
    decreases |run|
  {
    if run == [] then q else After(Apply(q, b, run[0]), b, run[1..])
  }

  /** The count is the total size of the pending frames. */
  ghost predicate Balanced(q: Queue)
  {
    q.bytes == Sum(q.pending)
  }

  /** A step keeps the balance exactly when it does not overwrite a non-empty entry or take off a different size. */
  predicate Harmless(q: Queue, b: Bounds, e: Event)
  {
    match e
    case Enter(id, size) => Admits(q, b, size) && id in q.pending ==> q.pending[id] == 0
    case Settle(_) => true
    case Fail(id, size) => id in q.pending ==> q.pending[id] == size
  }

  lemma StepBalancedExactly(q: Queue, b: Bounds, e: Event)
    requires Balanced(q)
    ensures Balanced(Apply(q, b, e)) <==> Harmless(q, b, e)
  {
    match e
    case Enter(id, size) =>
      SumUpdate(q.pending, id, size);
    case Settle(id) =>
      if id in q.pending {
        SumRemove(q.pending, id);
      }
    case Fail(id, size) =>
      if id in q.pending {
        SumRemove(q.pending, id);
      }
  }

  /** A frame is entered exactly when there is room for it, by number and by the true total of the pending sizes. */
  lemma EnteredExactly(q: Queue, b: Bounds, id: FrameId, size: nat)
    requires Balanced(q)
    ensures
      Apply(q, b, Enter(id, size)) ==
        if |q.pending| < b.messages && Sum(q.pending) + size <= b.bytes
        then Queue(q.pending[id := size], Sum(q.pending) + size, q.used + {id}) else q
  {
  }

  /** A repeated id leaves bytes counted for a frame that no longer exists. */
  lemma OverwritingLeaks(b: Bounds)
    requires b.messages >= 2 && b.bytes >= 200
    ensures
      var q := After(EMPTY, b, [Enter(7, 100), Enter(7, 100), Settle(7)]);
      q.pending == map[] && q.bytes == 100
  {
    var q1 := Apply(EMPTY, b, Enter(7, 100));
    assert q1.pending == map[7 := 100];
    var q2 := Apply(q1, b, Enter(7, 100));
    assert q2.pending == map[7 := 100] && q2.bytes == 200;
    var q3 := Apply(q2, b, Settle(7));
    assert q3.pending == map[];
    assert After(q2, b, [Settle(7)]) == After(q3, b, []);
    assert After(q1, b, [Enter(7, 100), Settle(7)]) == After(q2, b, [Settle(7)]);
    assert [Enter(7, 100), Enter(7, 100), Settle(7)][1..] == [Enter(7, 100), Settle(7)];
  }

  /** No id is entered twice, and a write that fails is the write of the frame that was entered. */
  predicate Orderly(q: Queue, b: Bounds, run: seq<Event>)
    decreases |run|
  {
    run == [] ||
    (&& (run[0].Enter? ==> run[0].id !in q.used)
     && (run[0].Fail? && run[0].id in q.pending ==> q.pending[run[0].id] == run[0].size)
     && Orderly(Apply(q, b, run[0]), b, run[1..]))
  }

  ghost predicate Sound(q: Queue, b: Bounds)
  {
    && Balanced(q) && q.pending.Keys <= q.used
    && |q.pending| <= b.messages && q.bytes <= b.bytes
  }

  lemma OneMore(m: map<FrameId, nat>, id: FrameId, size: nat)
    ensures |m[id := size]| <= |m| + 1
  {
    assert m[id := size].Keys == m.Keys + {id};
    assert |m[id := size]| == |m.Keys + {id}|;
  }

  lemma StepSound(q: Queue, b: Bounds, e: Event)
    requires Sound(q, b) && (e.Enter? ==> e.id !in q.used)
    requires e.Fail? && e.id in q.pending ==> q.pending[e.id] == e.size
    ensures Sound(Apply(q, b, e), b)
  {
    StepBalancedExactly(q, b, e);
    OneKeyFewer(q.pending, e.id);
    if e.Enter? {
      OneMore(q.pending, e.id, e.size);
    }
  }

  /** In every orderly run the count is exact and both bounds hold. */
  lemma {:induction false} OrderlyRunsBalance(q: Queue, b: Bounds, run: seq<Event>)
    requires Sound(q, b) && Orderly(q, b, run)
    ensures Sound(After(q, b, run), b)
    decreases |run|
  {
    if run != [] {
      StepSound(q, b, run[0]);
      OrderlyRunsBalance(Apply(q, b, run[0]), b, run[1..]);
    }
  }
}
