/**
 * Admission of connections: one slot in each of two bounded channels, a shared budget
 * for the growth of receive windows, and leases that give everything back once. A step
 * is one channel operation or one section under the gate's mutex.
 */
module Admission {
  import opened Collections
  import opened Sums

  type LeaseId = nat

  const SLOTS: nat := 256
  const MIB: nat := 1024 * 1024
  const GROWTH_BUDGET: nat := 256 * MIB
  const INITIAL_WINDOW: nat := MIB
  const TWO_64: nat := 0x1_0000_0000_0000_0000

  type Uint64 = n: nat | n < TWO_64

  function Add64(a: Uint64, b: Uint64): Uint64
  {
    (a + b) % TWO_64
  }

  function Sub64(a: Uint64, b: Uint64): Uint64
  {
    if a >= b then a - b else TWO_64 + a - b
  }

  datatype Stage =
    | Claiming   // has an active slot, asks for a pending one
    | Backing    // was refused the pending slot
    | Open
    | Closing    // closed and accounted for, before its release
    | Freeing    // released, before it frees the active slot
    | Ended

  datatype Lease = Lease(stage: Stage, holdsPending: bool, extra: Uint64)

  datatype State = State(leases: map<LeaseId, Lease>, connections: set<LeaseId>, pending: nat, active: nat,
                         extra: Uint64)

  const INITIAL := State(map[], {}, 0, 0, 0)

  datatype Event =
    | Claim(id: LeaseId)
    | TakePending(id: LeaseId)
    | GiveBack(id: LeaseId)
    | Bind(id: LeaseId)
    | Grow(id: LeaseId, delta: Uint64)
    | Close(id: LeaseId)
    | Attached(id: LeaseId)
    | ReleaseClosed(id: LeaseId)
    | Free(id: LeaseId)

  predicate In(s: State, i: LeaseId, stage: Stage)
  {
    i in s.leases && s.leases[i].stage == stage
  }

  /** The step is the next one of its goroutine. */
  predicate Ready(s: State, e: Event)
  {
    match e
    case Claim(i) => i !in s.leases
    case TakePending(i) => In(s, i, Claiming)
    case GiveBack(i) => In(s, i, Backing)
    case Bind(i) => i in s.leases && !s.leases[i].stage.Claiming? && !s.leases[i].stage.Backing?
    case Grow(i, _) => true
    case Close(i) => In(s, i, Open)
    case Attached(i) => i in s.leases && !s.leases[i].stage.Claiming? && !s.leases[i].stage.Backing?
    case ReleaseClosed(i) => In(s, i, Closing)
    case Free(i) => In(s, i, Freeing)
  }

  /** A receive from an empty channel blocks. */
  predicate Blocks(s: State, e: Event)
  {
    match e
    case GiveBack(_) => s.active == 0
    case Attached(i) => i in s.leases && s.leases[i].holdsPending && s.pending == 0
    case ReleaseClosed(i) => i in s.leases && s.leases[i].holdsPending && s.pending == 0
    case Free(_) => s.active == 0
    case _ => false
  }

  function With(s: State, i: LeaseId, lease: Lease): State
  {
    s.(leases := s.leases[i := lease])
  }

  /** A claim that got its pending slot opens the lease; otherwise it has to back out. */
  function Claimed(ok: bool): Lease
  {
    if ok then Lease(Open, true, 0) else Lease(Backing, false, 0)
  }

  /** The pending slot goes back the first time only. */
  function Released(s: State, i: LeaseId, stage: Stage): State
    requires i in s.leases && (s.leases[i].holdsPending ==> s.pending > 0)
  {
    With(s, i, s.leases[i].(stage := stage, holdsPending := false))
      .(pending := if s.leases[i].holdsPending then s.pending - 1 else s.pending)
  }

  predicate MayGrow(s: State, i: LeaseId, delta: Uint64)
  {
    && i in s.connections && i in s.leases && s.leases[i].stage.Open?
    && delta <= Sub64(GROWTH_BUDGET, s.extra)
  }

  function Apply(s: State, e: Event): State
    requires Ready(s, e) && !Blocks(s, e)
  {
    match e
    case Claim(i) =>
      if s.active < SLOTS then With(s, i, Lease(Claiming, false, 0)).(active := s.active + 1) else s
    case TakePending(i) =>
      var ok := s.pending < SLOTS;
      With(s, i, Claimed(ok)).(pending := if ok then s.pending + 1 else s.pending)
    case GiveBack(i) => With(s, i, Lease(Ended, false, 0)).(active := s.active - 1)
    case Bind(i) => if s.leases[i].stage.Open? then s.(connections := s.connections + {i}) else s
    case Grow(i, delta) =>
      if MayGrow(s, i, delta) then
        With(s, i, s.leases[i].(extra := Add64(s.leases[i].extra, delta))).(extra := Add64(s.extra, delta))
      else s
    case Close(i) =>
      With(s, i, s.leases[i].(stage := Closing))
        .(extra := Sub64(s.extra, s.leases[i].extra), connections := s.connections - {i})
    case Attached(i) => Released(s, i, s.leases[i].stage)
    case ReleaseClosed(i) => Released(s, i, Freeing)
    case Free(i) => With(s, i, s.leases[i].(stage := Ended)).(active := s.active - 1)
  }

  predicate IsRun(s: State, run: seq<Event>)
    decreases |run|
  {
    run == [] || (Ready(s, run[0]) && !Blocks(s, run[0]) && IsRun(Apply(s, run[0]), run[1..]))
  }

  function After(s: State, run: seq<Event>): State
    requires IsRun(s, run)
    decreases |run|
  {
    if run == [] then s else After(Apply(s, run[0]), run[1..])
  }

  // ------------------------------------------------------------------ invariant

  function Holders(leases: map<LeaseId, Lease>): set<LeaseId>
  {
    set i | i in leases && !leases[i].stage.Ended?
  }

  function Waiters(leases: map<LeaseId, Lease>): set<LeaseId>
  {
    set i | i in leases && leases[i].holdsPending
  }

  function Grown(leases: map<LeaseId, Lease>): map<LeaseId, nat>
  {
    map i | i in leases && leases[i].stage.Open? :: leases[i].extra
  }

  predicate LeaseSound(lease: Lease)
  {
    && (lease.holdsPending ==> lease.stage.Open? || lease.stage.Closing?)
    && (lease.stage.Claiming? || lease.stage.Backing? ==> lease.extra == 0)
  }

  predicate SlotsSound(s: State)
  {
    && (forall i :: i in s.leases ==> LeaseSound(s.leases[i]))
    && s.active == |Holders(s.leases)| && s.pending == |Waiters(s.leases)|
    && s.active <= SLOTS
  }

  ghost predicate BudgetSound(s: State)
  {
    && s.extra == Sum(Grown(s.leases)) && s.extra <= GROWTH_BUDGET
    && (forall i :: i in s.connections ==> In(s, i, Open))
    && (forall i :: i in s.leases && s.leases[i].stage.Open? && i !in s.connections ==> s.leases[i].extra == 0)
  }

  ghost predicate Inv(s: State)
  {
    SlotsSound(s) && BudgetSound(s)
  }

  lemma HoldersAfter(leases: map<LeaseId, Lease>, i: LeaseId, lease: Lease)
    ensures Holders(leases[i := lease]) == if lease.stage.Ended? then Holders(leases) - {i} else Holders(leases) + {i}
    ensures Waiters(leases[i := lease]) == if lease.holdsPending then Waiters(leases) + {i} else Waiters(leases) - {i}
  {
  }

  lemma WaitersHold(leases: map<LeaseId, Lease>)
    requires forall i :: i in leases ==> LeaseSound(leases[i])
    ensures Waiters(leases) <= Holders(leases) && |Waiters(leases)| <= |Holders(leases)|
  {
    assert Holders(leases) == Waiters(leases) + (Holders(leases) - Waiters(leases));
  }

  /** How many slots of each kind the lease of this id takes. */
  function ActiveOf(leases: map<LeaseId, Lease>, i: LeaseId): nat
  {
    if i in leases && !leases[i].stage.Ended? then 1 else 0
  }

  function PendingOf(leases: map<LeaseId, Lease>, i: LeaseId): nat
  {
    if i in leases && leases[i].holdsPending then 1 else 0
  }

  /** Changing one lease keeps the counts if the counters move by what that lease takes. */
  lemma SlotsUpdated(s: State, t: State, i: LeaseId, lease: Lease)
    requires SlotsSound(s) && LeaseSound(lease) && t.leases == s.leases[i := lease]
    requires t.active + ActiveOf(s.leases, i) == s.active + ActiveOf(t.leases, i)
    requires t.pending + PendingOf(s.leases, i) == s.pending + PendingOf(t.leases, i)
    requires t.active <= SLOTS
    ensures SlotsSound(t)
  {
    HoldersAfter(s.leases, i, lease);
    OneInOrOut(Holders(s.leases), i);
    OneInOrOut(Waiters(s.leases), i);
  }

  lemma OneInOrOut(ids: set<LeaseId>, i: LeaseId)
    ensures |ids + {i}| == if i in ids then |ids| else |ids| + 1
    ensures |ids - {i}| == if i in ids then |ids| - 1 else |ids|
  {
    if i in ids {
      assert ids + {i} == ids;
    } else {
      assert ids - {i} == ids;
    }
  }

  lemma SlotsKept(s: State, e: Event)
    requires SlotsSound(s) && Ready(s, e) && !Blocks(s, e)
    ensures SlotsSound(Apply(s, e))
  {
    var t := Apply(s, e);
    if t.leases != s.leases {
      assert t.leases == s.leases[e.id := t.leases[e.id]];
      assert e.id in s.leases ==> LeaseSound(s.leases[e.id]);
      SlotsUpdated(s, t, e.id, t.leases[e.id]);
    } else if e.Attached? {
      assert s.leases[e.id] == t.leases[e.id];
    }
  }

  // --------------------------------------------------------------------- budget

  lemma GrownAfter(leases: map<LeaseId, Lease>, i: LeaseId, lease: Lease)
    ensures Grown(leases[i := lease]) ==
      if lease.stage.Open?
      then Grown(leases)[i := lease.extra]
      else Grown(leases) - {i}
  {
  }

  function GrowthOf(leases: map<LeaseId, Lease>, i: LeaseId): nat
  {
    if i in leases && leases[i].stage.Open? then leases[i].extra else 0
  }

  lemma GrowthUpdated(leases: map<LeaseId, Lease>, i: LeaseId, lease: Lease)
    ensures Sum(Grown(leases[i := lease])) + GrowthOf(leases, i) == Sum(Grown(leases)) + GrowthOf(leases[i := lease], i)
  {
    GrownAfter(leases, i, lease);
    if lease.stage.Open? {
      SumUpdate(Grown(leases), i, lease.extra);
    } else if i in Grown(leases) {
      SumRemove(Grown(leases), i);
    } else {
      assert Grown(leases) - {i} == Grown(leases);
    }
  }

  lemma GrowthIsPart(leases: map<LeaseId, Lease>, i: LeaseId)
    ensures GrowthOf(leases, i) <= Sum(Grown(leases))
  {
    if i in Grown(leases) {
      SumRemove(Grown(leases), i);
    }
  }

  /** Granted growth is added without wrapping. */
  lemma GrownBy(s: State, i: LeaseId, delta: Uint64)
    requires BudgetSound(s) && MayGrow(s, i, delta)
    ensures s.leases[i].extra + delta < TWO_64 && s.extra + delta <= GROWTH_BUDGET
    ensures Apply(s, Grow(i, delta)) ==
      With(s, i, s.leases[i].(extra := s.leases[i].extra + delta)).(extra := s.extra + delta)
  {
    GrowthIsPart(s.leases, i);
  }

  lemma GrowKeepsBudget(s: State, i: LeaseId, delta: Uint64)
    requires BudgetSound(s) && MayGrow(s, i, delta)
    ensures BudgetSound(Apply(s, Grow(i, delta)))
  {
    GrownBy(s, i, delta);
    BudgetAfterGrowth(s, i, delta);
  }

  lemma BudgetAfterGrowth(s: State, i: LeaseId, delta: nat)
    requires BudgetSound(s) && i in s.connections && In(s, i, Open)
    requires s.leases[i].extra + delta < TWO_64 && s.extra + delta <= GROWTH_BUDGET
    ensures BudgetSound(With(s, i, s.leases[i].(extra := s.leases[i].extra + delta)).(extra := s.extra + delta))
  {
    GrowthUpdated(s.leases, i, s.leases[i].(extra := s.leases[i].extra + delta));
  }

  /** The unsigned comparison means what it says. */
  lemma GrowsExactly(s: State, i: LeaseId, delta: Uint64)
    requires BudgetSound(s)
    ensures MayGrow(s, i, delta) <==> i in s.connections && Sum(Grown(s.leases)) + delta <= GROWTH_BUDGET
  {
  }

  lemma CloseKeepsBudget(s: State, i: LeaseId)
    requires BudgetSound(s) && In(s, i, Open)
    ensures BudgetSound(Apply(s, Close(i)))
  {
    GrowthIsPart(s.leases, i);
    GrowthUpdated(s.leases, i, s.leases[i].(stage := Closing));
  }

  /** The other steps leave the growth of every lease alone. */
  lemma OtherKeepsBudget(s: State, e: Event)
    requires SlotsSound(s) && BudgetSound(s) && Ready(s, e) && !Blocks(s, e) && !e.Grow? && !e.Close?
    ensures BudgetSound(Apply(s, e))
  {
    var t := Apply(s, e);
    if e.id in t.leases {
      assert t.leases == s.leases[e.id := t.leases[e.id]];
      assert e.id in s.leases ==> LeaseSound(s.leases[e.id]);
      GrowthUpdated(s.leases, e.id, t.leases[e.id]);
    }
  }

  lemma BudgetKept(s: State, e: Event)
    requires SlotsSound(s) && BudgetSound(s) && Ready(s, e) && !Blocks(s, e)
    ensures BudgetSound(Apply(s, e))
  {
    if e.Grow? {
      if MayGrow(s, e.id, e.delta) {
        GrowKeepsBudget(s, e.id, e.delta);
      }
    } else if e.Close? {
      CloseKeepsBudget(s, e.id);
    } else {
      OtherKeepsBudget(s, e);
    }
  }

  lemma StepKeeps(s: State, e: Event)
    requires Inv(s) && Ready(s, e) && !Blocks(s, e)
    ensures Inv(Apply(s, e))
  {
    SlotsKept(s, e);
    BudgetKept(s, e);
  }

  lemma {:induction false} RunKeeps(s: State, run: seq<Event>)
    requires Inv(s) && IsRun(s, run)
    ensures Inv(After(s, run))
    decreases |run|
  {
    if run != [] {
      StepKeeps(s, run[0]);
      RunKeeps(Apply(s, run[0]), run[1..]);
    }
  }

  // ------------------------------------------------------------------- theorems

  lemma InitialHolds()
    ensures Inv(INITIAL)
  {
    assert Holders(INITIAL.leases) == {} && Waiters(INITIAL.leases) == {} && Grown(INITIAL.leases) == map[];
  }

  /** Slots are conserved: the channels hold exactly the slots of the leases that have not given them back. */
  lemma SlotsConserved(run: seq<Event>)
    requires IsRun(INITIAL, run)
    ensures
      var s := After(INITIAL, run);
      && s.pending <= s.active <= SLOTS
      && s.active == |Holders(s.leases)| && s.pending == |Waiters(s.leases)|
      && Waiters(s.leases) <= Holders(s.leases)
  {
    InitialHolds();
    RunKeeps(INITIAL, run);
    WaitersHold(After(INITIAL, run).leases);
  }

  lemma RoomForPending(s: State, i: LeaseId)
    requires SlotsSound(s) && In(s, i, Claiming)
    ensures s.pending < SLOTS
  {
    assert LeaseSound(s.leases[i]);
    assert i in Holders(s.leases) && i !in Waiters(s.leases);
    WaitersHold(s.leases);
    assert Waiters(s.leases) <= Holders(s.leases) - {i};
    SubsetSize(Waiters(s.leases), Holders(s.leases) - {i});
  }

  /** The refusal for want of a pending slot cannot happen. */
  lemma PendingNeverFull(run: seq<Event>, i: LeaseId)
    requires IsRun(INITIAL, run) && In(After(INITIAL, run), i, Claiming)
    ensures After(INITIAL, run).pending < SLOTS
    ensures In(Apply(After(INITIAL, run), TakePending(i)), i, Open)
  {
    InitialHolds();
    RunKeeps(INITIAL, run);
    RoomForPending(After(INITIAL, run), i);
  }

  lemma NoStepBlocks(s: State, e: Event)
    requires SlotsSound(s) && Ready(s, e)
    ensures !Blocks(s, e)
  {
    if e.id in s.leases {
      assert !s.leases[e.id].stage.Ended? ==> e.id in Holders(s.leases);
      assert s.leases[e.id].holdsPending ==> e.id in Waiters(s.leases);
    }
  }

  /** No step that gives a slot back ever waits on an empty channel. */
  lemma NeverBlocks(run: seq<Event>, e: Event)
    requires IsRun(INITIAL, run) && Ready(After(INITIAL, run), e)
    ensures !Blocks(After(INITIAL, run), e)
  {
    InitialHolds();
    RunKeeps(INITIAL, run);
    NoStepBlocks(After(INITIAL, run), e);
  }

  /** The growth of the registered leases. */
  function Registered(s: State): map<LeaseId, nat>
  {
    map i | i in s.connections && i in s.leases :: s.leases[i].extra
  }

  /**
   * The shared counter is the growth of the registered open leases, within the budget, and no 64-bit
   * operation wraps.
   */
  lemma GrowthConserved(run: seq<Event>)
    requires IsRun(INITIAL, run)
    ensures
      var s := After(INITIAL, run);
      && s.extra == Sum(Registered(s))
      && s.extra <= GROWTH_BUDGET
      && (forall i :: i in s.connections ==> In(s, i, Open))
      && (forall i :: i in s.leases && s.leases[i].stage.Open? ==> s.leases[i].extra <= s.extra)
      && (forall i, delta :: MayGrow(s, i, delta) ==> s.extra + delta <= GROWTH_BUDGET)
  {
    InitialHolds();
    RunKeeps(INITIAL, run);
    var s := After(INITIAL, run);
    forall i | i in s.leases && s.leases[i].stage.Open? ensures s.leases[i].extra <= s.extra {
      GrowthIsPart(s.leases, i);
    }
    ZerosAddNothing(Registered(s), Grown(s.leases));
  }

  lemma {:induction false} ZerosAddNothing(part: map<LeaseId, nat>, whole: map<LeaseId, nat>)
    requires forall i :: i in whole && i !in part ==> whole[i] == 0
    requires forall i :: i in part ==> i in whole && part[i] == whole[i]
    ensures Sum(part) == Sum(whole)
    decreases |whole|
  {
    if whole != map[] {
      var i :| i in whole;
      SumRemove(whole, i);
      assert |whole - {i}| < |whole| by {
        assert (whole - {i}).Keys == whole.Keys - {i};
      }
      ZerosAddNothing(part - {i}, whole - {i});
      if i in part {
        SumRemove(part, i);
      } else {
        assert part - {i} == part;
      }
    } else {
      assert part == map[];
    }
  }

  /** The receive window every open lease may use. */
  function Windows(leases: map<LeaseId, Lease>): map<LeaseId, nat>
  {
    map i | i in leases && leases[i].stage.Open? :: INITIAL_WINDOW + leases[i].extra
  }

  function Times(count: nat, unit: nat): nat
  {
    if count == 0 then 0 else unit + Times(count - 1, unit)
  }

  lemma {:induction false} TimesIsProduct(count: nat, unit: nat)
    ensures Times(count, unit) == count * unit
  {
    if count > 0 {
      TimesIsProduct(count - 1, unit);
      assert count * unit == (count - 1) * unit + unit;
    }
  }

  lemma {:induction false} WindowsAddUp(windows: map<LeaseId, nat>, grown: map<LeaseId, nat>, unit: nat)
    requires windows.Keys == grown.Keys && forall i :: i in grown ==> windows[i] == unit + grown[i]
    ensures Sum(windows) == Times(|grown|, unit) + Sum(grown)
    decreases |grown|
  {
    if grown == map[] {
      assert windows == map[];
    } else {
      var i :| i in grown;
      SumRemove(windows, i);
      SumRemove(grown, i);
      OneKeyFewer(windows, i);
      OneKeyFewer(grown, i);
      WindowsAddUp(windows - {i}, grown - {i}, unit);
    }
  }

  lemma OpenAreFew(s: State)
    requires SlotsSound(s)
    ensures |Grown(s.leases)| <= SLOTS
  {
    var open := Grown(s.leases).Keys;
    assert Holders(s.leases) == open + (Holders(s.leases) - open);
    assert |Grown(s.leases)| == |open|;
  }

  /** All receive windows together stay within 512 MiB. */
  lemma WindowBounded(run: seq<Event>)
    requires IsRun(INITIAL, run)
    ensures Sum(Windows(After(INITIAL, run).leases)) <= 512 * MIB
  {
    InitialHolds();
    RunKeeps(INITIAL, run);
    WindowsFit(After(INITIAL, run));
  }

  lemma WindowsFit(s: State)
    requires Inv(s)
    ensures Sum(Windows(s.leases)) <= 512 * MIB
  {
    WindowsAddUp(Windows(s.leases), Grown(s.leases), INITIAL_WINDOW);
    OpenAreFew(s);
    TimesIsProduct(|Grown(s.leases)|, INITIAL_WINDOW);
  }
}

/** The gate as an object, whose methods are the steps of the source and keep the accounts exact. */
module AdmissionGateObject {
  import opened Admission
  import opened Sums

  class AdmissionGate {
    var leases: map<LeaseId, Lease>
    var connections: set<LeaseId>
    var pending: nat
    var active: nat
    var extra: Uint64

    function Contents(): State
      reads this
    {
      State(leases, connections, pending, active, extra)
    }

    ghost predicate Valid()
      reads this
    {
      Inv(Contents())
    }

    constructor ()
      ensures Valid() && Contents() == INITIAL
    {
      leases, connections, pending, active, extra := map[], {}, 0, 0, 0;
      new;
      InitialHolds();
    }

    /** Succeeds exactly while fewer than 256 leases hold an active slot. */
    method ClaimActive(i: LeaseId) returns (ok: bool)
      requires Valid() && Ready(Contents(), Claim(i))
      modifies this
      ensures Valid() && Contents() == Apply(old(Contents()), Claim(i))
      ensures ok <==> |Holders(old(leases))| < SLOTS
      ensures Holders(leases) == if ok then old(Holders(leases)) + {i} else old(Holders(leases))
    {
      StepKeeps(Contents(), Claim(i));
      if active >= SLOTS {
        return false;
      }
      active := active + 1;
      HoldersAfter(leases, i, Lease(Claiming, false, 0));
      leases := leases[i := Lease(Claiming, false, 0)];
      return true;
    }

    /** Always succeeds: a lease that holds an active slot finds a pending one. */
    method ClaimPending(i: LeaseId) returns (ok: bool)
      requires Valid() && Ready(Contents(), TakePending(i))
      modifies this
      ensures Valid() && Contents() == Apply(old(Contents()), TakePending(i))
      ensures ok && In(Contents(), i, Open)
      ensures Waiters(leases) == old(Waiters(leases)) + {i}
    {
      ghost var before := Contents();
      StepKeeps(before, TakePending(i));
      ok := pending < SLOTS;
      if ok {
        pending := pending + 1;
      }
      leases := leases[i := Claimed(ok)];
      RoomForPending(before, i);
      HoldersAfter(before.leases, i, Claimed(ok));
    }

    /** A closed lease is never registered. */
    method BindConnection(i: LeaseId)
      requires Valid() && Ready(Contents(), Bind(i))
      modifies this`connections
      ensures Valid() && Contents() == Apply(old(Contents()), Bind(i))
      ensures i in connections <==> In(Contents(), i, Open)
    {
      StepKeeps(Contents(), Bind(i));
      if leases[i].stage.Open? {
        connections := connections + {i};
      }
    }

    /** Grants the growth exactly when the lease is registered and the growth of all leases stays within the budget. */
    method GrowWindow(i: LeaseId, delta: Uint64) returns (ok: bool)
      requires Valid()
      modifies this`leases, this`extra
      ensures Valid() && Contents() == Apply(old(Contents()), Grow(i, delta))
      ensures ok <==> i in connections && Sum(Grown(old(leases))) + delta <= GROWTH_BUDGET
      ensures extra == old(extra) + if ok then delta else 0
    {
      StepKeeps(Contents(), Grow(i, delta));
      GrowsExactly(Contents(), i, delta);
      if i !in connections || i !in leases || !leases[i].stage.Open? || delta > Sub64(GROWTH_BUDGET, extra) {
        return false;
      }
      extra := Add64(extra, delta);
      leases := leases[i := leases[i].(extra := Add64(leases[i].extra, delta))];
      return true;
    }

    /** The growth of the lease leaves the total without wrapping, and the lease is registered no more. */
    method CloseLease(i: LeaseId)
      requires Valid() && Ready(Contents(), Close(i))
      modifies this
      ensures Valid() && Contents() == Apply(old(Contents()), Close(i))
      ensures i !in connections && extra + old(leases[i].extra) == old(extra)
    {
      StepKeeps(Contents(), Close(i));
      GrowthIsPart(leases, i);
      extra := Sub64(extra, leases[i].extra);
      connections := connections - {i};
      leases := leases[i := leases[i].(stage := Closing)];
    }

    /**
     * The release that runs once, called by a finished attachment or by the closing
     * goroutine: the lease then holds no pending slot, and the receive never blocks.
     */
    method Release(i: LeaseId, closing: bool)
      requires Valid() && Ready(Contents(), if closing then ReleaseClosed(i) else Attached(i))
      modifies this
      ensures Valid()
      ensures var e := if closing then ReleaseClosed(i) else Attached(i);
              !Blocks(old(Contents()), e) && Contents() == Apply(old(Contents()), e)
      ensures Waiters(leases) == old(Waiters(leases)) - {i} && |Waiters(leases)| == pending
    {
      ghost var before := Contents();
      ghost var e := if closing then ReleaseClosed(i) else Attached(i);
      NoStepBlocks(before, e);
      GiveUp(i, if closing then Freeing else leases[i].stage);
      StepKeeps(before, e);
      HoldersAfter(before.leases, i, leases[i]);
    }

    method GiveUp(i: LeaseId, stage: Stage)
      requires i in leases && (leases[i].holdsPending ==> pending > 0)
      modifies this
      ensures Contents() == Released(old(Contents()), i, stage)
    {
      if leases[i].holdsPending {
        pending := pending - 1;
      }
      leases := leases[i := leases[i].(stage := stage, holdsPending := false)];
    }

    /** The active slot goes back last, and the receive never blocks. */
    method FreeActive(i: LeaseId)
      requires Valid() && Ready(Contents(), Free(i))
      modifies this
      ensures Valid()
      ensures !Blocks(old(Contents()), Free(i)) && Contents() == Apply(old(Contents()), Free(i))
      ensures Holders(leases) == old(Holders(leases)) - {i} && |Holders(leases)| == active
    {
      NoStepBlocks(Contents(), Free(i));
      StepKeeps(Contents(), Free(i));
      HoldersAfter(leases, i, leases[i].(stage := Ended));
      active := active - 1;
      leases := leases[i := leases[i].(stage := Ended)];
    }
  }
}
