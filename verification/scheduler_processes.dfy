/** Where the processes are and what they hold: the part of the invariant that moving a process could break. */
module SchedulerProcesses {
  import opened SafeQueue
  import opened ReadyOrder
  import opened Scheduler
  import opened SchedulerInvariant

  // ---------- events that move no process ----------

  predicate Quiet(e: Event) {
    || e.TakePlan? || e.Look? || e.TakePermit? || e.Interrupt? || e.PostReady? || e.TakeExit? || e.FindNoExit?
    || e.TakeBlocked? || e.TakeDevice? || e.TakeReady? || e.TakeDispatch? || e.MarkBusy?
    || e.CpuReturns? || e.ClearInterrupt? || e.PostDispatch?
  }

  predicate SameHand(m: Mover, n: Mover) {
    (m.Hand? || n.Hand?) ==> m == n
  }

  /** The same processes in the same places, and the same multiprogramming slots. */
  predicate SameProcesses(s: State, t: State) {
    && s.arrived == t.arrived && s.ready == t.ready && s.blocked == t.blocked && s.suspended == t.suspended
    && s.exit == t.exit && s.exec == t.exec && s.io == t.io && s.finished == t.finished && s.last == t.last
    && s.level == t.level && (s.ltp == PlanAndLevel <==> t.ltp == PlanAndLevel)
    && (s.exiting.ExitHand? || t.exiting.ExitHand? ==> s.exiting == t.exiting)
    && SameHand(s.movers.admission, t.movers.admission) && SameHand(s.movers.unblock, t.movers.unblock)
    && SameHand(s.movers.ret, t.movers.ret)
  }

  lemma SignalMovesNothing(c: Planner, s: State, e: Event)
    requires Enabled(c, s, e) && (e.Look? || e.TakePermit? || e.Interrupt? || e.PostReady?)
    ensures SameProcesses(s, Next(c, s, e))
  {
    match e.t
    case Admission =>
    case Unblock =>
    case Return =>
  }

  lemma QuietMovesNothing(c: Planner, s: State, e: Event)
    requires Enabled(c, s, e) && Quiet(e)
    ensures SameProcesses(s, Next(c, s, e))
  {
    if e.Look? || e.TakePermit? || e.Interrupt? || e.PostReady? {
      SignalMovesNothing(c, s, e);
    }
  }

  lemma SameKeeps(c: Planner, s: State, t: State)
    requires SameProcesses(s, t) && OnePlace(s) && Statuses(s) && Multiprogramming(c, s) && ReadySorted(c, s)
    ensures OnePlace(t) && Statuses(t) && Multiprogramming(c, t) && ReadySorted(c, t)
  {
    forall id: nat ensures Places(t, id) == One(1 <= id <= t.last) {
      assert Places(t, id) == Places(s, id);
    }
  }

  // ---------- each process is in one place ----------

  lemma {:induction false} CountJoined(q: seq<Pcb>, r: seq<Pcb>, id: nat)
    ensures CountIn(q + r, id) == CountIn(q, id) + CountIn(r, id)
  {
    if |q| == 0 {
      assert q + r == r;
    } else {
      assert (q + r)[1..] == q[1..] + r;
      CountJoined(q[1..], r, id);
    }
  }

  lemma CountMoved(q: seq<Pcb>, x: Pcb, id: nat)
    ensures CountIn(MovedToReady(q, x), id) == CountIn(q, id) + One(x.id == id)
  {
    MovedIs(q, x);
    hide MovedToReady, Position;
    var k := Position(q, x, CompareReady);
    CountJoined(q[..k], q[k..], id);
    assert q[..k] + q[k..] == q;
    CountJoined(q[..k], [Readied(x)] + q[k..], id);
    CountJoined([Readied(x)], q[k..], id);
    assert q[..k] + ([Readied(x)] + q[k..]) == MovedToReady(q, x);
  }

  lemma CountUpdated(q: seq<Pcb>, i: nat, p: Pcb, id: nat)
    requires i < |q| && q[i].id == p.id
    ensures CountIn(q[i := p], id) == CountIn(q, id)
  {
    CountJoined(q[..i], q[i..], id);
    assert q == q[..i] + q[i..];
    CountJoined(q[..i], [p] + q[i + 1..], id);
    assert q[i := p] == q[..i] + ([p] + q[i + 1..]);
    CountJoined([p], q[i + 1..], id);
    assert q[i..] == [q[i]] + q[i + 1..];
    CountJoined([q[i]], q[i + 1..], id);
  }

  lemma AdmissionMoves(c: Planner, s: State, e: Event, id: nat)
    requires Enabled(c, s, e) && Exclusion(s) && (e.Resume? || e.AdmitNew?)
    ensures Places(Next(c, s, e), id) == Places(s, id)
  {
  }

  lemma RejectionMoves(c: Planner, s: State, e: Event, id: nat)
    requires Enabled(c, s, e) && e.RejectNew?
    ensures Places(Next(c, s, e), id) == Places(s, id)
  {
    CountJoined(s.exit, [s.arrived[0].(status := Exit)], id);
    hide InHands;
  }

  lemma ArrivalMoves(c: Planner, s: State, e: Event, id: nat)
    requires Enabled(c, s, e) && e.Arrive?
    ensures Places(Next(c, s, e), id) == Places(s, id) + One(id == s.last + 1)
  {
    CountJoined(s.arrived, [Pcb(s.last + 1, e.burst, New, New)], id);
  }

  lemma HandChanges(ms: Movers, t: Thread, m: Mover, id: nat)
    ensures InHands(ms.Set(t, m), id) + CountHand(ms.Get(t), id) == InHands(ms, id) + CountHand(m, id)
    ensures Held(ms.Set(t, m)) + One(ms.Get(t).Hand?) == Held(ms) + One(m.Hand?)
  {
    match t
    case Admission =>
    case Unblock =>
    case Return =>
  }

  lemma CountInserted(c: Planner, s: State, t: Thread, p: Pcb, id: nat)
    requires s.movers.Get(t) == Hand(p)
    ensures CountIn(Inserting(c, s, t, p).ready, id) == CountIn(s.ready, id) + One(p.id == id)
  {
    hide MovedToReady;
    if c.algorithm.Fifo? {
      CountJoined(s.ready, [p.(status := Ready)], id);
    } else {
      CountMoved(s.ready, p, id);
    }
  }

  lemma InsertingMoves(c: Planner, s: State, t: Thread, p: Pcb, id: nat)
    requires s.movers.Get(t) == Hand(p)
    ensures Places(Inserting(c, s, t, p), id) == Places(s, id)
  {
    CountInserted(c, s, t, p, id);
    HandChanges(s.movers, t, Idle, id);
    HandChanges(s.movers, t, Signalling(p.id, Check), id);
    var s' := Inserting(c, s, t, p);
    assert s' == s.(ready := s'.ready, stpPlan := s'.stpPlan, movers := s'.movers);
    assert s'.movers == s.movers.Set(t, Idle) || s'.movers == s.movers.Set(t, Signalling(p.id, Check));
    hide Inserting, InHands, Movers.Set, Movers.Get, CountIn, CountOption;
  }

  lemma InsertMoves(c: Planner, s: State, e: Event, id: nat)
    requires Enabled(c, s, e) && e.Insert?
    ensures Places(Next(c, s, e), id) == Places(s, id)
  {
    var p := s.movers.Get(e.t).pcb;
    assert Next(c, s, e) == Inserting(c, s, e.t, p);
    hide Next, Inserting, Places;
    InsertingMoves(c, s, e.t, p, id);
  }

  lemma ExitMoves(c: Planner, s: State, e: Event, id: nat)
    requires Enabled(c, s, e) && (e.PopExit? || e.Finalize?)
    requires Places(s, id) <= 1
    ensures Places(Next(c, s, e), id) == Places(s, id)
  {
  }

  lemma DeviceMoves(c: Planner, s: State, e: Event, id: nat)
    requires Enabled(c, s, e) && Exclusion(s) && (e.StartIo? || e.IoDone?)
    ensures Places(Next(c, s, e), id) == Places(s, id)
  {
  }

  lemma ResumptionMoves(c: Planner, s: State, e: Event, id: nat)
    requires Enabled(c, s, e) && e.IoDoneSuspended?
    ensures Places(Next(c, s, e), id) == Places(s, id)
  {
    CountJoined(s.suspended, [s.io.value.(status := SuspendedReady)], id);
    hide InHands;
  }

  lemma SuspensionMoves(c: Planner, s: State, e: Event, id: nat)
    requires Enabled(c, s, e) && (e.SuspendBlocked? || e.SuspendInIo?)
    ensures Places(Next(c, s, e), id) == Places(s, id)
  {
    if e.SuspendBlocked? {
      CountUpdated(s.blocked, e.i, Suspended(s.blocked[e.i]), id);
    }
  }

  lemma CpuMoves(c: Planner, s: State, e: Event, id: nat)
    requires Enabled(c, s, e) && Exclusion(s) && (e.Dispatch? || e.ReturnPreempted?)
    ensures Places(Next(c, s, e), id) == Places(s, id)
  {
  }

  lemma ExitReturnMoves(c: Planner, s: State, e: Event, id: nat)
    requires Enabled(c, s, e) && e.ReturnExit?
    ensures Places(Next(c, s, e), id) == Places(s, id)
  {
    CountJoined(s.exit, [Returned(c, s).(status := Exit)], id);
    hide InHands;
  }

  lemma BlockedReturnMoves(c: Planner, s: State, e: Event, id: nat)
    requires Enabled(c, s, e) && e.ReturnIo?
    ensures Places(Next(c, s, e), id) == Places(s, id)
  {
    CountJoined(s.blocked, [Returned(c, s).(status := Blocked)], id);
    hide InHands;
  }

  lemma OnePlaceKept(c: Planner, s: State, e: Event)
    requires Enabled(c, s, e) && !Quiet(e) && !e.TakeLevel? && !e.FindNothing? && !e.IoDoneAstray?
    requires Exclusion(s) && OnePlace(s)
    ensures OnePlace(Next(c, s, e))
  {
    hide Exclusion, Places, Enabled;
    forall id: nat ensures Places(Next(c, s, e), id) == One(1 <= id <= Next(c, s, e).last) {
      assert Next(c, s, e).last == s.last + One(e.Arrive?);
      assert Places(s, id) == One(1 <= id <= s.last);
      hide Next;
      match e
      case Arrive(_) => ArrivalMoves(c, s, e, id);
      case Resume => AdmissionMoves(c, s, e, id);
      case AdmitNew => AdmissionMoves(c, s, e, id);
      case RejectNew => RejectionMoves(c, s, e, id);
      case Insert(_) => InsertMoves(c, s, e, id);
      case PopExit => ExitMoves(c, s, e, id);
      case Finalize => ExitMoves(c, s, e, id);
      case StartIo => DeviceMoves(c, s, e, id);
      case IoDone => DeviceMoves(c, s, e, id);
      case IoDoneSuspended => ResumptionMoves(c, s, e, id);
      case SuspendBlocked(_) => SuspensionMoves(c, s, e, id);
      case SuspendInIo => SuspensionMoves(c, s, e, id);
      case Dispatch => CpuMoves(c, s, e, id);
      case ReturnPreempted => CpuMoves(c, s, e, id);
      case ReturnExit => ExitReturnMoves(c, s, e, id);
      case ReturnIo => BlockedReturnMoves(c, s, e, id);
    }
  }

  // ---------- statuses ----------

  lemma AdmissionStatuses(c: Planner, s: State, e: Event)
    requires Enabled(c, s, e) && Statuses(s)
    requires e.Arrive? || e.TakeLevel? || e.Resume? || e.AdmitNew? || e.RejectNew? || e.FindNothing?
    ensures Statuses(Next(c, s, e))
  {
  }

  lemma AllMoved(q: seq<Pcb>, x: Pcb)
    requires All(q, {Ready})
    ensures All(MovedToReady(q, x), {Ready})
  {
    MovedIs(q, x);
    hide MovedToReady, Position;
  }

  lemma InsertStatuses(c: Planner, s: State, e: Event)
    requires Enabled(c, s, e) && Statuses(s) && e.Insert?
    ensures Statuses(Next(c, s, e))
  {
    var p := s.movers.Get(e.t).pcb;
    AllMoved(s.ready, p);
    assert Next(c, s, e) == Inserting(c, s, e.t, p);
    hide Next, MovedToReady;
    match e.t
    case Admission =>
    case Unblock =>
    case Return =>
  }

  lemma ExitStatuses(c: Planner, s: State, e: Event)
    requires Enabled(c, s, e) && Statuses(s) && (e.PopExit? || e.Finalize?)
    ensures Statuses(Next(c, s, e))
  {
  }

  lemma DeviceStatuses(c: Planner, s: State, e: Event)
    requires Enabled(c, s, e) && Statuses(s)
    requires e.StartIo? || e.IoDone? || e.IoDoneSuspended? || e.SuspendBlocked? || e.SuspendInIo?
    ensures Statuses(Next(c, s, e))
  {
  }

  lemma CpuStatuses(c: Planner, s: State, e: Event)
    requires Enabled(c, s, e) && Statuses(s) && (e.Dispatch? || e.ReturnPreempted?)
    ensures Statuses(Next(c, s, e))
  {
  }

  lemma ReturnStatuses(c: Planner, s: State, e: Event)
    requires Enabled(c, s, e) && Statuses(s) && (e.ReturnExit? || e.ReturnIo?)
    ensures Statuses(Next(c, s, e))
  {
  }

  // ---------- multiprogramming ----------

  lemma {:induction false} BlockedJoined(q: seq<Pcb>, r: seq<Pcb>)
    ensures BlockedIn(q + r) == BlockedIn(q) + BlockedIn(r)
  {
    if |q| == 0 {
      assert q + r == r;
    } else {
      assert (q + r)[1..] == q[1..] + r;
      BlockedJoined(q[1..], r);
    }
  }

  lemma BlockedUpdated(q: seq<Pcb>, i: nat, p: Pcb)
    requires i < |q|
    ensures BlockedIn(q[i := p]) + One(q[i].status == Blocked) == BlockedIn(q) + One(p.status == Blocked)
  {
    BlockedJoined(q[..i], q[i..]);
    assert q == q[..i] + q[i..];
    BlockedJoined(q[..i], [p] + q[i + 1..]);
    assert q[i := p] == q[..i] + ([p] + q[i + 1..]);
    BlockedJoined([p], q[i + 1..]);
    assert q[i..] == [q[i]] + q[i + 1..];
    BlockedJoined([q[i]], q[i + 1..]);
  }

  lemma AdmissionSlots(c: Planner, s: State, e: Event)
    requires Enabled(c, s, e) && Tokens(s) && Exclusion(s) && Statuses(s) && Multiprogramming(c, s)
    requires e.Arrive? || e.TakeLevel? || e.Resume? || e.AdmitNew? || e.RejectNew?
    ensures Multiprogramming(c, Next(c, s, e))
  {
  }

  lemma InsertingSlots(c: Planner, s: State, t: Thread, p: Pcb)
    requires s.movers.Get(t) == Hand(p) && Multiprogramming(c, s)
    ensures Multiprogramming(c, Inserting(c, s, t, p))
  {
    MovedLength(s.ready, p);
    HandChanges(s.movers, t, Idle, 0);
    HandChanges(s.movers, t, Signalling(p.id, Check), 0);
    hide MovedToReady, InHands, Held, Movers.Set, Movers.Get, BlockedIn;
    if c.algorithm.Fifo? {
      assert HoldingSlots(Inserting(c, s, t, p)) == HoldingSlots(s);
    } else {
      assert HoldingSlots(Inserting(c, s, t, p)) == HoldingSlots(s);
    }
  }

  lemma InsertSlots(c: Planner, s: State, e: Event)
    requires Enabled(c, s, e) && Multiprogramming(c, s) && e.Insert?
    ensures Multiprogramming(c, Next(c, s, e))
  {
    var p := s.movers.Get(e.t).pcb;
    assert Next(c, s, e) == Inserting(c, s, e.t, p);
    hide Next, Inserting, Multiprogramming;
    InsertingSlots(c, s, e.t, p);
  }

  lemma ExitSlots(c: Planner, s: State, e: Event)
    requires Enabled(c, s, e) && Multiprogramming(c, s) && (e.PopExit? || e.Finalize?)
    ensures Multiprogramming(c, Next(c, s, e))
  {
  }

  lemma DeviceSlots(c: Planner, s: State, e: Event)
    requires Enabled(c, s, e) && Statuses(s) && Exclusion(s) && Multiprogramming(c, s)
    requires e.StartIo? || e.IoDone? || e.IoDoneSuspended?
    ensures Multiprogramming(c, Next(c, s, e))
  {
  }

  lemma SuspensionSlots(c: Planner, s: State, e: Event)
    requires Enabled(c, s, e) && Multiprogramming(c, s) && (e.SuspendBlocked? || e.SuspendInIo?)
    ensures Multiprogramming(c, Next(c, s, e))
  {
    if e.SuspendBlocked? {
      BlockedUpdated(s.blocked, e.i, Suspended(s.blocked[e.i]));
    }
  }

  lemma CpuSlots(c: Planner, s: State, e: Event)
    requires Enabled(c, s, e) && Exclusion(s) && Multiprogramming(c, s) && (e.Dispatch? || e.ReturnPreempted?)
    ensures Multiprogramming(c, Next(c, s, e))
  {
  }

  lemma ReturnSlots(c: Planner, s: State, e: Event)
    requires Enabled(c, s, e) && Statuses(s) && Exclusion(s) && Multiprogramming(c, s) && (e.ReturnExit? || e.ReturnIo?)
    ensures Multiprogramming(c, Next(c, s, e))
  {
    BlockedJoined(s.blocked, [Returned(c, s).(status := Blocked)]);
  }

  // ---------- the order of the ready queue ----------

  lemma InsertSorted(c: Planner, s: State, e: Event)
    requires Enabled(c, s, e) && ReadySorted(c, s) && e.Insert?
    ensures ReadySorted(c, Next(c, s, e))
  {
    var p := s.movers.Get(e.t).pcb;
    if c.algorithm.Srt? {
      MoveKeepsOrder(s.ready, p);
      assert Next(c, s, e).ready == MovedToReady(s.ready, p);
    }
  }

  lemma OtherwiseSorted(c: Planner, s: State, e: Event)
    requires Enabled(c, s, e) && ReadySorted(c, s) && !e.Insert? && !Quiet(e)
    ensures ReadySorted(c, Next(c, s, e))
  {
    hide MayPrecede;
    if e.Dispatch? {
      assert Next(c, s, e).ready == s.ready[1..];
    } else {
      assert Next(c, s, e).ready == s.ready;
    }
  }

  // ---------- the whole invariant ----------

  lemma MovingKeeps(c: Planner, s: State, e: Event)
    requires Enabled(c, s, e) && Inv(c, s) && !Quiet(e) && !e.FindNothing? && !e.IoDoneAstray?
    ensures Statuses(Next(c, s, e)) && Multiprogramming(c, Next(c, s, e))
  {
    hide Next, Enabled, Tokens, Exclusion, Statuses, Multiprogramming, OnePlace, Permit, InterruptAnswered, NoSignals,
      ReadySorted;
    match e
    case Arrive(_) => AdmissionStatuses(c, s, e); AdmissionSlots(c, s, e);
    case TakeLevel => AdmissionStatuses(c, s, e); AdmissionSlots(c, s, e);
    case Resume => AdmissionStatuses(c, s, e); AdmissionSlots(c, s, e);
    case AdmitNew => AdmissionStatuses(c, s, e); AdmissionSlots(c, s, e);
    case RejectNew => AdmissionStatuses(c, s, e); AdmissionSlots(c, s, e);
    case Insert(_) => InsertStatuses(c, s, e); InsertSlots(c, s, e);
    case PopExit => ExitStatuses(c, s, e); ExitSlots(c, s, e);
    case Finalize => ExitStatuses(c, s, e); ExitSlots(c, s, e);
    case StartIo => DeviceStatuses(c, s, e); DeviceSlots(c, s, e);
    case IoDone => DeviceStatuses(c, s, e); DeviceSlots(c, s, e);
    case IoDoneSuspended => DeviceStatuses(c, s, e); DeviceSlots(c, s, e);
    case SuspendBlocked(_) => DeviceStatuses(c, s, e); SuspensionSlots(c, s, e);
    case SuspendInIo => DeviceStatuses(c, s, e); SuspensionSlots(c, s, e);
    case Dispatch => CpuStatuses(c, s, e); CpuSlots(c, s, e);
    case ReturnPreempted => CpuStatuses(c, s, e); CpuSlots(c, s, e);
    case ReturnExit => ReturnStatuses(c, s, e); ReturnSlots(c, s, e);
    case ReturnIo => ReturnStatuses(c, s, e); ReturnSlots(c, s, e);
  }

  /** No controller wakes up to an empty queue: the planner's branches for that case are never taken. */
  lemma NoPopMeetsAnEmptyQueue(c: Planner, s: State)
    requires Tokens(s) && Statuses(s)
    ensures s.ltp == PlanAndLevel ==> s.suspended != [] || s.arrived != []
    ensures s.exiting == ExitToken ==> s.exit != []
    ensures s.ioc == IoDevice ==> s.blocked != []
    ensures s.stp == StpPermit ==> s.ready != []
    ensures !Enabled(c, s, FindNothing) && !Enabled(c, s, FindNoExit) && !Enabled(c, s, IoDoneAstray)
  {
  }

  lemma TakeLevelKeepsPlaces(c: Planner, s: State)
    requires Enabled(c, s, TakeLevel) && OnePlace(s)
    ensures OnePlace(Next(c, s, TakeLevel))
  {
    forall id: nat ensures Places(Next(c, s, TakeLevel), id) == One(1 <= id <= s.last) {
      assert Places(Next(c, s, TakeLevel), id) == Places(s, id);
    }
  }

  /** Every step of every thread, timer, console and cpu keeps the whole invariant. */
  lemma StepKeeps(c: Planner, s: State, e: Event)
    requires Inv(c, s) && Enabled(c, s, e)
    ensures Inv(c, Next(c, s, e))
  {
    NoPopMeetsAnEmptyQueue(c, s);
    CountsKept(c, s, e);
    hide Next, Enabled, Tokens, Exclusion, Statuses, Multiprogramming, OnePlace, Permit, InterruptAnswered, NoSignals,
      ReadySorted;
    if Quiet(e) {
      QuietMovesNothing(c, s, e);
      hide SameProcesses;
      SameKeeps(c, s, Next(c, s, e));
    } else {
      MovingKeeps(c, s, e);
      if e.Insert? {
        InsertSorted(c, s, e);
      } else {
        OtherwiseSorted(c, s, e);
      }
      if e.TakeLevel? {
        TakeLevelKeepsPlaces(c, s);
      } else {
        OnePlaceKept(c, s, e);
      }
    }
  }
}
