/**
 * The planner finishes what it is given: each of its steps spends some of a finite weight, and only an arrival, or a
 * process that comes back from the cpu without having finished, puts weight back.
 */
module SchedulerLiveness {
  import opened DispatchConditions
  import opened Options
  import opened ReadyOrder
  import opened Scheduler
  import opened SchedulerInvariant
  import opened SchedulerRuns

  // ---------- the weight of a state ----------

  /** Steps that a move to READY still owes, at most. */
  function MoverWeight(m: Mover): nat {
    match m
    case Idle => 0
    case Hand(_) => 16
    case Signalling(_, phase) =>
      match phase
      case Check => 12
      case Wait => 11
      case Send => 10
      case Post => 9
  }

  function MoversWeight(ms: Movers): nat {
    MoverWeight(ms.admission) + MoverWeight(ms.unblock) + MoverWeight(ms.ret)
  }

  function AdmissionWeight(queued: nat, ltpPlan: nat, ltp: AdmissionPc): nat {
    16 * queued + 3 * ltpPlan + match ltp case NoToken => 0 case PlanToken => 2 case PlanAndLevel => 1
  }

  function ExitWeight(queued: nat, ltpExit: nat, exiting: ExitPc): nat {
    queued + 2 * ltpExit + if exiting.ExitIdle? then 0 else 1
  }

  function DeviceWeight(queued: nat, mtpPlan: nat, io: Option<Pcb>, ioc: IoPc): nat {
    20 * queued + 3 * mtpPlan + (if io.Some? then 20 else 0)
    + match ioc case IoIdle => 0 case IoToken => 2 case IoDevice => 1
  }

  /** A process that came back asking for the device, or preempted, has another round ahead. */
  function ReturnWeight(ret: ReturnPc): nat {
    match ret
    case RetIdle => 0
    case RetGot(condition, _) =>
      (match condition
       case ExitProgram => 3
       case NullCondition => 3
       case InterruptedByKernel => 16
       case IoSyscall => 23)
    case RetFlag => 2
    case RetPost => 1
  }

  function CpuWeight(queued: nat, exec: Option<Pcb>, stpPlan: nat, busy: bool, ret: ReturnPc, stp: DispatchPc): nat {
    3 * queued + (if exec.Some? then 3 else 0) + 8 * stpPlan + (if busy then 4 else 0) + ReturnWeight(ret)
    + match stp case StpIdle => 0 case StpToken => 7 case StpPermit => 6 case StpSending => 5
  }

  /** More than the steps that the planner can still take by itself. */
  function Weight(s: State): nat {
    MoversWeight(s.movers) + AdmissionWeight(|s.arrived| + |s.suspended|, s.ltpPlan, s.ltp)
    + ExitWeight(|s.exit|, s.ltpExit, s.exiting) + DeviceWeight(|s.blocked|, s.mtpPlan, s.io, s.ioc)
    + CpuWeight(|s.ready|, s.exec, s.stpPlan, s.busy, s.ret, s.stp)
  }

  /** The cpu returns a process that has not finished. */
  predicate Yields(e: Event) {
    e.CpuReturns? && (e.condition == IoSyscall || e.condition == InterruptedByKernel)
  }

  // ---------- every step spends weight ----------

  lemma MoverChanges(ms: Movers, t: Thread, m: Mover)
    ensures MoversWeight(ms.Set(t, m)) + MoverWeight(ms.Get(t)) == MoversWeight(ms) + MoverWeight(m)
  {
    match t
    case Admission =>
    case Unblock =>
    case Return =>
  }

  lemma AdmissionSpends(c: Planner, s: State, e: Event)
    requires Enabled(c, s, e) && ByAdmission(e) && !e.Arrive?
    ensures Weight(Next(c, s, e)) < Weight(s)
  {
    if e.Resume? {
      MoverChanges(s.movers, Admission, Hand(s.suspended[0]));
    } else if e.AdmitNew? {
      MoverChanges(s.movers, Admission, Hand(s.arrived[0]));
    }
    hide MoversWeight, Movers.Set, DeviceWeight, CpuWeight;
  }

  lemma InsertSpends(c: Planner, s: State, t: Thread, p: Pcb)
    requires s.movers.Get(t) == Hand(p)
    ensures Weight(Inserting(c, s, t, p)) < Weight(s)
  {
    MovedLength(s.ready, p);
    MoverChanges(s.movers, t, Idle);
    MoverChanges(s.movers, t, Signalling(p.id, Check));
    hide MovedToReady, MoversWeight, Movers.Set, Movers.Get, AdmissionWeight, ExitWeight, DeviceWeight;
  }

  lemma LookSpends(c: Planner, s: State, e: Event)
    requires Enabled(c, s, e) && e.Look?
    ensures Weight(Next(c, s, e)) < Weight(s)
  {
    var id := s.movers.Get(e.t).id;
    MoverChanges(s.movers, e.t, Signalling(id, Wait));
    MoverChanges(s.movers, e.t, Signalling(id, Post));
    hide MoversWeight, Movers.Set, Movers.Get, AdmissionWeight, ExitWeight, DeviceWeight, CpuWeight;
  }

  lemma PermitSpends(c: Planner, s: State, e: Event)
    requires Enabled(c, s, e) && (e.TakePermit? || e.Interrupt?)
    ensures Weight(Next(c, s, e)) < Weight(s)
  {
    var id := s.movers.Get(e.t).id;
    MoverChanges(s.movers, e.t, Signalling(id, if e.TakePermit? then Send else Post));
    hide MoversWeight, Movers.Set, Movers.Get, AdmissionWeight, ExitWeight, DeviceWeight, CpuWeight;
  }

  lemma PostSpends(c: Planner, s: State, e: Event)
    requires Enabled(c, s, e) && e.PostReady?
    ensures Weight(Next(c, s, e)) < Weight(s)
  {
    MoverChanges(s.movers, e.t, Idle);
    hide MoversWeight, Movers.Set, Movers.Get, AdmissionWeight, ExitWeight, DeviceWeight;
  }

  lemma MoverSpends(c: Planner, s: State, e: Event)
    requires Enabled(c, s, e) && ByMover(e)
    ensures Weight(Next(c, s, e)) < Weight(s)
  {
    hide Weight;
    if e.Insert? {
      InsertSpends(c, s, e.t, s.movers.Get(e.t).pcb);
      assert Next(c, s, e) == Inserting(c, s, e.t, s.movers.Get(e.t).pcb);
    } else if e.Look? {
      LookSpends(c, s, e);
    } else if e.PostReady? {
      PostSpends(c, s, e);
    } else {
      PermitSpends(c, s, e);
    }
  }

  lemma ExitSpends(c: Planner, s: State, e: Event)
    requires Enabled(c, s, e) && ByExit(e)
    ensures Weight(Next(c, s, e)) < Weight(s)
  {
    hide MoversWeight, AdmissionWeight, DeviceWeight, CpuWeight;
  }

  lemma DeviceSpends(c: Planner, s: State, e: Event)
    requires Enabled(c, s, e) && (e.TakeBlocked? || e.TakeDevice? || e.StartIo? || e.IoDone?)
    ensures Weight(Next(c, s, e)) < Weight(s)
  {
    if e.IoDone? {
      MoverChanges(s.movers, Unblock, Hand(s.io.value));
    }
    hide MoversWeight, Movers.Set, CpuWeight, ExitWeight, AdmissionWeight;
  }

  lemma ResumptionSpends(c: Planner, s: State, e: Event)
    requires Enabled(c, s, e) && (e.IoDoneSuspended? || e.IoDoneAstray?)
    ensures Weight(Next(c, s, e)) < Weight(s)
  {
    hide MoversWeight, CpuWeight;
  }

  lemma DispatcherSpends(c: Planner, s: State, e: Event)
    requires Enabled(c, s, e) && ByDispatcher(e)
    ensures Weight(Next(c, s, e)) < Weight(s)
  {
    hide MoversWeight, AdmissionWeight, ExitWeight, DeviceWeight;
  }

  lemma ListenerSpends(c: Planner, s: State, e: Event)
    requires Enabled(c, s, e) && (e.CpuReturns? || e.ClearInterrupt? || e.PostDispatch?)
    ensures Weight(Next(c, s, e)) < Weight(s) + if Yields(e) then 20 else 0
  {
    hide MoversWeight, AdmissionWeight, ExitWeight, DeviceWeight;
  }

  lemma ReturnSpends(c: Planner, s: State, e: Event)
    requires Enabled(c, s, e) && (e.ReturnExit? || e.ReturnIo?)
    ensures Weight(Next(c, s, e)) < Weight(s)
  {
    hide MoversWeight, AdmissionWeight;
  }

  lemma PreemptedSpends(c: Planner, s: State, e: Event)
    requires Enabled(c, s, e) && e.ReturnPreempted?
    ensures Weight(Next(c, s, e)) < Weight(s)
  {
    MoverChanges(s.movers, Return, Hand(Returned(c, s)));
    hide MoversWeight, Movers.Set, AdmissionWeight, ExitWeight, DeviceWeight;
  }

  /** Every step of the planner, the cpu and the device spends weight; a yield puts back at most nineteen more. */
  lemma StepSpends(c: Planner, s: State, e: Event)
    requires Enabled(c, s, e) && Internal(e)
    ensures Weight(Next(c, s, e)) < Weight(s) + if Yields(e) then 20 else 0
  {
    hide Enabled, Next, Weight;
    if ByAdmission(e) {
      AdmissionSpends(c, s, e);
    } else if ByMover(e) {
      MoverSpends(c, s, e);
    } else if ByExit(e) {
      ExitSpends(c, s, e);
    } else if e.IoDoneSuspended? || e.IoDoneAstray? {
      ResumptionSpends(c, s, e);
    } else if ByDevice(e) {
      DeviceSpends(c, s, e);
    } else if ByDispatcher(e) {
      DispatcherSpends(c, s, e);
    } else if e.ReturnExit? || e.ReturnIo? {
      ReturnSpends(c, s, e);
    } else if e.ReturnPreempted? {
      PreemptedSpends(c, s, e);
    } else {
      ListenerSpends(c, s, e);
    }
  }

  /** An arrival brings nineteen, and a suspension timer neither brings nor spends any. */
  lemma ArrivalBrings(c: Planner, s: State, e: Event)
    requires Enabled(c, s, e) && e.Arrive?
    ensures Weight(Next(c, s, e)) == Weight(s) + 19
  {
    hide MoversWeight, ExitWeight, DeviceWeight, CpuWeight;
  }

  lemma SuspensionSpendsNothing(c: Planner, s: State, e: Event)
    requires Enabled(c, s, e) && (e.SuspendBlocked? || e.SuspendInIo?)
    ensures Weight(Next(c, s, e)) == Weight(s)
  {
    hide MoversWeight, AdmissionWeight, ExitWeight, CpuWeight;
  }

  // ---------- runs ----------

  /** Steps that bring work from outside: an arrival, or a process that comes back unfinished. */
  function WorkBrought(es: seq<Event>): nat {
    if |es| == 0 then 0 else (if es[0].Arrive? || Yields(es[0]) then 1 else 0) + WorkBrought(es[1..])
  }

  /** How many suspension timers fire. */
  function Suspensions(es: seq<Event>): nat {
    if |es| == 0 then 0 else (if es[0].SuspendBlocked? || es[0].SuspendInIo? then 1 else 0) + Suspensions(es[1..])
  }

  /** What one step does to the weight, whichever it is. */
  lemma AnyStepSpends(c: Planner, s: State, e: Event)
    requires Enabled(c, s, e)
    ensures 1 + Weight(Next(c, s, e)) <= Weight(s)
      + (if e.Arrive? || Yields(e) then 20 else 0) + (if e.SuspendBlocked? || e.SuspendInIo? then 1 else 0)
  {
    hide Enabled, Next, Weight;
    if e.Arrive? {
      ArrivalBrings(c, s, e);
    } else if e.SuspendBlocked? || e.SuspendInIo? {
      SuspensionSpendsNothing(c, s, e);
    } else {
      StepSpends(c, s, e);
    }
  }

  /**
   * Every run is bounded by the weight it starts with, the work brought to it and the suspension timers that fire; its
   * arrivals, timers and interleaving are any.
   */
  lemma {:induction false} RunsAreBounded(c: Planner, s: State, es: seq<Event>)
    requires Possible(c, s, es)
    ensures |es| + Weight(After(c, s, es)) <= Weight(s) + 20 * WorkBrought(es) + Suspensions(es)
    decreases es
  {
    hide Enabled, Next, Weight, Yields;
    if |es| > 0 {
      AnyStepSpends(c, s, es[0]);
      RunsAreBounded(c, Next(c, s, es[0]), es[1..]);
    }
  }

  lemma {:induction false} RunReachable(c: Planner, s: State, es: seq<Event>)
    requires Reachable(c, s) && Possible(c, s, es)
    ensures Reachable(c, After(c, s, es))
    decreases es
  {
    hide Reachable, Enabled, Next;
    if |es| > 0 {
      ReachableNext(c, s, es[0]);
      RunReachable(c, Next(c, s, es[0]), es[1..]);
    }
  }

  predicate AllFinished(s: State) {
    forall id | 1 <= id <= s.last :: id in s.finished
  }

  /**
   * A run that only an arrival or a suspension timer could take further has finished every process; and it is reached,
   * because steps that bring no work and fire no timer can only be taken a bounded number of times.
   */
  lemma MaximalRunFinishes(c: Planner, s: State, es: seq<Event>)
    requires Reachable(c, s) && c.grade > 0 && Possible(c, s, es) && Stuck(c, After(c, s, es))
    ensures AllFinished(After(c, s, es))
    ensures |es| <= Weight(s) + 20 * WorkBrought(es) + Suspensions(es)
  {
    RunReachable(c, s, es);
    RunsAreBounded(c, s, es);
    ReachableHolds(c, After(c, s, es));
    hide Inv, Stuck, Reachable, Weight, After, Possible;
    forall id | 1 <= id <= After(c, s, es).last ensures id in After(c, s, es).finished {
      StuckMeansFinished(c, After(c, s, es), id);
    }
  }

  /** A step that the planner can take by itself, with the cpu finishing the process it returns. */
  lemma NextInternal(c: Planner, s: State) returns (e: Event)
    requires !Stuck(c, s)
    ensures Internal(e) && Enabled(c, s, e) && !Yields(e)
  {
    e :| Internal(e) && Enabled(c, s, e);
    if Yields(e) {
      e := CpuReturns(ExitProgram, 0);
    }
  }

  /** From every reachable state the planner can finish every process by itself: no interleaving leads to a dead end. */
  lemma CanAlwaysFinish(c: Planner, s: State) returns (es: seq<Event>)
    requires Reachable(c, s) && c.grade > 0
    ensures Possible(c, s, es) && WorkBrought(es) == 0 && Suspensions(es) == 0
    ensures |es| <= Weight(s) && AllFinished(After(c, s, es))
  {
    es := FinishingRun(c, s);
    MaximalRunFinishes(c, s, es);
  }

  lemma {:induction false} FinishingRun(c: Planner, s: State) returns (es: seq<Event>)
    ensures Possible(c, s, es) && WorkBrought(es) == 0 && Suspensions(es) == 0 && Stuck(c, After(c, s, es))
    decreases Weight(s)
  {
    hide Enabled, Next, Weight, Yields, Stuck;
    if Stuck(c, s) {
      return [];
    }
    var e := NextInternal(c, s);
    StepSpends(c, s, e);
    var rest := FinishingRun(c, Next(c, s, e));
    es := [e] + rest;
    assert es[1..] == rest;
  }
}
