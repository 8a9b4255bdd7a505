/** What holds after any run of the planner: safety, and that it never stops with a process unfinished. */
module SchedulerRuns {
  import opened DispatchConditions
  import opened ReadyOrder
  import opened Scheduler
  import opened SchedulerInvariant
  import opened SchedulerProcesses

  // ---------- runs ----------

  ghost predicate Possible(c: Planner, s: State, es: seq<Event>)
    decreases es
  {
    |es| == 0 || (Enabled(c, s, es[0]) && Possible(c, Next(c, s, es[0]), es[1..]))
  }

  ghost function After(c: Planner, s: State, es: seq<Event>): State
    requires Possible(c, s, es)
    decreases es
  {
    if |es| == 0 then s else After(c, Next(c, s, es[0]), es[1..])
  }

  ghost predicate Reachable(c: Planner, s: State) {
    exists es :: Possible(c, Initial(c), es) && After(c, Initial(c), es) == s
  }

  lemma {:induction false} RunKeeps(c: Planner, s: State, es: seq<Event>)
    requires Inv(c, s) && Possible(c, s, es)
    ensures Inv(c, After(c, s, es))
    decreases es
  {
    hide Inv, Next, Enabled;
    if |es| > 0 {
      StepKeeps(c, s, es[0]);
      RunKeeps(c, Next(c, s, es[0]), es[1..]);
    }
  }

  /** The invariant holds after every interleaving of the planner's threads. */
  lemma ReachableHolds(c: Planner, s: State)
    requires Reachable(c, s)
    ensures Inv(c, s)
  {
    hide Inv, Initial, Next, Enabled;
    InitialHolds(c);
    var es :| Possible(c, Initial(c), es) && After(c, Initial(c), es) == s;
    RunKeeps(c, Initial(c), es);
  }

  lemma {:induction false} RunAppended(c: Planner, s: State, es: seq<Event>, e: Event)
    requires Possible(c, s, es) && Enabled(c, After(c, s, es), e)
    ensures Possible(c, s, es + [e]) && After(c, s, es + [e]) == Next(c, After(c, s, es), e)
    decreases es
  {
    hide Enabled, Next;
    if |es| == 0 {
      assert es + [e] == [e] && [e][1..] == [];
      assert Possible(c, Next(c, s, e), []) && After(c, Next(c, s, e), []) == Next(c, s, e);
    } else {
      assert (es + [e])[1..] == es[1..] + [e];
      RunAppended(c, Next(c, s, es[0]), es[1..], e);
    }
  }

  /** Trying a step leads from a reachable state to a reachable state. */
  lemma ReachableNext(c: Planner, s: State, e: Event)
    requires Reachable(c, s)
    ensures Reachable(c, Tried(c, s, e))
  {
    hide Initial, Next, Enabled;
    if Enabled(c, s, e) {
      var es :| Possible(c, Initial(c), es) && After(c, Initial(c), es) == s;
      RunAppended(c, Initial(c), es, e);
    }
  }

  // ---------- safety ----------

  /** A created process is in exactly one place, and an identifier never given out is in none. */
  lemma OneProcessOnePlace(c: Planner, s: State, id: nat)
    requires Reachable(c, s)
    ensures Places(s, id) == if 1 <= id <= s.last then 1 else 0
  {
    hide Reachable, Places, Tokens, Exclusion, Statuses, Multiprogramming, Permit, InterruptAnswered, NoSignals,
      ReadySorted;
    ReachableHolds(c, s);
  }

  /** Slots are conserved, so the processes admitted never exceed the multiprogramming grade. */
  lemma SlotsAreConserved(c: Planner, s: State)
    requires Reachable(c, s)
    ensures s.level + HoldingSlots(s) == c.grade && HoldingSlots(s) <= c.grade
  {
    hide Reachable, HoldingSlots, Tokens, Exclusion, Statuses, OnePlace, Permit, InterruptAnswered, NoSignals,
      ReadySorted;
    ReachableHolds(c, s);
  }

  /** Tokens never exceed what is queued: each semaphore, with the threads past it, counts its queue exactly. */
  lemma TokensMatchQueues(c: Planner, s: State)
    requires Reachable(c, s)
    ensures s.ltpPlan + One(s.ltp != NoToken) == |s.arrived| + |s.suspended|
    ensures s.ltpExit + One(s.exiting == ExitToken) == |s.exit|
    ensures s.mtpPlan + One(s.ioc != IoIdle) == |s.blocked|
    ensures s.stpPlan + One(s.stp == StpToken || s.stp == StpPermit) + Signals(s) == |s.ready|
  {
    hide Reachable, Exclusion, Statuses, Multiprogramming, OnePlace, Permit, InterruptAnswered, NoSignals, ReadySorted;
    ReachableHolds(c, s);
  }

  /**
   * The interrupt permit is free, spent, or with the one thread that is about to interrupt; and an interruption not yet
   * acknowledged finds a process on the cpu, or a dispatch under way or promised.
   */
  lemma OnePermit(c: Planner, s: State)
    requires Reachable(c, s)
    ensures s.stpInterrupt + One(s.interrupted)
      + One(Sending(s.movers.admission)) + One(Sending(s.movers.unblock)) + One(Sending(s.movers.ret)) == 1
    ensures s.interrupted ==>
      || s.busy || s.stp != StpIdle || s.stpPlan > 0 || s.ret.RetGot? || s.ret == RetFlag
      || Posting(s.movers.admission) || Posting(s.movers.unblock) || Posting(s.movers.ret)
  {
    hide Reachable, Tokens, Exclusion, Statuses, Multiprogramming, OnePlace, NoSignals, ReadySorted;
    ReachableHolds(c, s);
  }

  /** No controller takes from an empty queue, and no event finds a process with a status it does not expect. */
  lemma NoEmptyQueueBranch(c: Planner, s: State)
    requires Reachable(c, s)
    ensures !Enabled(c, s, FindNothing) && !Enabled(c, s, FindNoExit) && !Enabled(c, s, IoDoneAstray)
    ensures (s.ioc == IoDevice ==> s.blocked != []) && (s.stp == StpPermit ==> s.ready != [])
  {
    hide Reachable, Enabled, Exclusion, Multiprogramming, OnePlace, Permit, InterruptAnswered, NoSignals, ReadySorted;
    ReachableHolds(c, s);
    NoPopMeetsAnEmptyQueue(c, s);
  }

  /** The cpu and the device are never given a second process. */
  lemma OneAtATime(c: Planner, s: State)
    requires Reachable(c, s)
    ensures Enabled(c, s, Dispatch) ==> s.exec.None? && !s.busy
    ensures Enabled(c, s, StartIo) ==> s.io.None?
    ensures s.ret.RetGot? ==> s.exec.Some? && s.exec.value.status == Exec
  {
    hide Reachable, Tokens, Multiprogramming, OnePlace, Permit, InterruptAnswered, NoSignals, ReadySorted;
    ReachableHolds(c, s);
  }

  /** Under SRT the process dispatched has the least estimate of all that are ready. */
  lemma ShortestIsDispatched(c: Planner, s: State, p: Pcb)
    requires Reachable(c, s) && c.algorithm.Srt? && Enabled(c, s, Dispatch) && p in s.ready
    ensures var t := Next(c, s, Dispatch);
      t.exec.Some? && t.exec.value.id == s.ready[0].id && t.exec.value.burst <= p.burst
  {
    hide Reachable, Tokens, Exclusion, Statuses, Multiprogramming, OnePlace, Permit, InterruptAnswered, NoSignals,
      MayPrecede;
    ReachableHolds(c, s);
    var i :| 0 <= i < |s.ready| && s.ready[i] == p;
    HeadIsShortest(s.ready, i);
  }

  lemma {:induction false} CountZero(q: seq<Pcb>, id: nat, i: nat)
    requires CountIn(q, id) == 0 && i < |q|
    ensures q[i].id != id
  {
    if i > 0 {
      CountZero(q[1..], id, i - 1);
    }
  }

  /** The process on the cpu is not blocked, at the device or being finalized: the kernel never suspends it. */
  lemma RunningIsNotTakenAway(c: Planner, s: State)
    requires Reachable(c, s) && s.exec.Some?
    ensures forall i | 0 <= i < |s.blocked| :: s.blocked[i].id != s.exec.value.id
    ensures s.io.Some? ==> s.io.value.id != s.exec.value.id
    ensures s.exiting.ExitHand? ==> s.exiting.pcb.id != s.exec.value.id
  {
    var id := s.exec.value.id;
    OneProcessOnePlace(c, s, id);
    hide Reachable, CountIn;
    forall i | 0 <= i < |s.blocked| ensures s.blocked[i].id != id {
      CountZero(s.blocked, id, i);
    }
  }

  // ---------- progress ----------

  /** Steps of the planner's own threads, of the cpu and of the device; consoles and suspension timers are left out. */
  predicate Internal(e: Event) {
    !e.Arrive? && !e.SuspendBlocked? && !e.SuspendInIo?
  }

  ghost predicate Stuck(c: Planner, s: State) {
    forall e | Internal(e) :: !Enabled(c, s, e)
  }

  predicate Waiting(m: Mover) {
    m.Signalling? && m.phase == Wait
  }

  lemma StuckMover(c: Planner, s: State, t: Thread)
    requires Stuck(c, s)
    ensures var m := s.movers.Get(t); m.Idle? || (Waiting(m) && s.stpInterrupt == 0)
  {
    assert Internal(Insert(t)) && !Enabled(c, s, Insert(t));
    assert Internal(Look(t)) && !Enabled(c, s, Look(t));
    assert Internal(TakePermit(t)) && !Enabled(c, s, TakePermit(t));
    assert Internal(Interrupt(t)) && !Enabled(c, s, Interrupt(t));
    assert Internal(PostReady(t)) && !Enabled(c, s, PostReady(t));
  }

  lemma StuckReturn(c: Planner, s: State)
    requires Stuck(c, s) && (s.ret.RetGot? ==> s.exec.Some?)
    ensures !s.ret.RetGot?
  {
    assert Internal(ReturnExit) && !Enabled(c, s, ReturnExit);
    assert Internal(ReturnIo) && !Enabled(c, s, ReturnIo);
    assert Internal(ReturnPreempted) && !Enabled(c, s, ReturnPreempted);
  }

  lemma StuckCpu(c: Planner, s: State)
    requires Stuck(c, s) && Exclusion(s) && Permit(s)
    ensures s.ret == RetIdle && !s.busy
  {
    StuckMover(c, s, Return);
    StuckReturn(c, s);
    assert Internal(ClearInterrupt) && !Enabled(c, s, ClearInterrupt);
    assert Internal(PostDispatch) && !Enabled(c, s, PostDispatch);
    var back := CpuReturns(ExitProgram, 0);
    assert Internal(back) && !Enabled(c, s, back);
    hide Stuck;
  }

  lemma StuckDispatcher(c: Planner, s: State)
    requires Stuck(c, s) && Exclusion(s) && Tokens(s) && s.ret == RetIdle && !s.busy
    ensures s.stp == StpIdle && s.stpPlan == 0
  {
    assert Internal(TakeReady) && !Enabled(c, s, TakeReady);
    assert Internal(TakeDispatch) && !Enabled(c, s, TakeDispatch);
    assert Internal(Dispatch) && !Enabled(c, s, Dispatch);
    assert Internal(MarkBusy) && !Enabled(c, s, MarkBusy);
  }

  /** The hard case: a thread that waits for the permit while the cpu is idle is not waiting for ever. */
  lemma NobodyWaits(c: Planner, s: State)
    requires Stuck(c, s) && Exclusion(s) && Tokens(s) && Permit(s) && InterruptAnswered(s)
    ensures s.movers == Movers(Idle, Idle, Idle)
    ensures s.ready == [] && s.exec.None? && s.stp == StpIdle
  {
    StuckCpu(c, s);
    StuckDispatcher(c, s);
    StuckMover(c, s, Admission);
    StuckMover(c, s, Unblock);
    StuckMover(c, s, Return);
    hide Stuck;
  }

  lemma StuckDevice(c: Planner, s: State)
    requires Stuck(c, s) && Exclusion(s) && Tokens(s) && Statuses(s) && s.movers.unblock.Idle?
    ensures s.io.None? && s.blocked == []
  {
    assert Internal(IoDone) && !Enabled(c, s, IoDone);
    assert Internal(IoDoneSuspended) && !Enabled(c, s, IoDoneSuspended);
    assert Internal(TakeBlocked) && !Enabled(c, s, TakeBlocked);
    assert Internal(TakeDevice) && !Enabled(c, s, TakeDevice);
    assert Internal(StartIo) && !Enabled(c, s, StartIo);
  }

  lemma StuckExit(c: Planner, s: State)
    requires Stuck(c, s) && Tokens(s)
    ensures !s.exiting.ExitHand? && s.exit == []
  {
    assert Internal(TakeExit) && !Enabled(c, s, TakeExit);
    assert Internal(PopExit) && !Enabled(c, s, PopExit);
    assert Internal(Finalize) && !Enabled(c, s, Finalize);
  }

  lemma StuckAdmission(c: Planner, s: State)
    requires Stuck(c, s) && Tokens(s) && Multiprogramming(c, s) && c.grade > 0
    requires s.movers == Movers(Idle, Idle, Idle) && s.ready == [] && s.exec.None? && s.io.None? && s.blocked == []
    ensures s.arrived == [] && s.suspended == []
  {
    assert Internal(TakePlan) && !Enabled(c, s, TakePlan);
    assert Internal(TakeLevel) && !Enabled(c, s, TakeLevel);
    assert Internal(Resume) && !Enabled(c, s, Resume);
    assert Internal(AdmitNew) && !Enabled(c, s, AdmitNew);
  }

  lemma StuckMeansFinished(c: Planner, s: State, id: nat)
    requires Inv(c, s) && Stuck(c, s) && c.grade > 0 && 1 <= id <= s.last
    ensures id in s.finished
  {
    hide Stuck, Tokens, Exclusion, Statuses, Multiprogramming, Permit, InterruptAnswered, NoSignals, ReadySorted;
    NobodyWaits(c, s);
    StuckDevice(c, s);
    StuckExit(c, s);
    StuckAdmission(c, s);
    assert Places(s, id) == One(id in s.finished);
  }

  /** While some process is not finished, a step of the planner, the cpu or the device is enabled: nothing deadlocks. */
  lemma Progress(c: Planner, s: State, id: nat)
    requires Reachable(c, s) && c.grade > 0 && 1 <= id <= s.last && id !in s.finished
    ensures exists e :: Internal(e) && Enabled(c, s, e)
  {
    hide Inv, Enabled, Reachable;
    ReachableHolds(c, s);
    if Stuck(c, s) {
      StuckMeansFinished(c, s, id);
    }
  }

  /** With no multiprogramming slots the first process to arrive is never admitted. */
  lemma NoSlotsNoProgress(c: Planner, burst: int)
    requires c.grade == 0
    ensures var es := [Arrive(burst), TakePlan];
      Possible(c, Initial(c), es) && Stuck(c, After(c, Initial(c), es)) && 1 !in After(c, Initial(c), es).finished
  {
    var es := [Arrive(burst), TakePlan];
    var s1 := Next(c, Initial(c), es[0]);
    var s2 := Next(c, s1, TakePlan);
    assert es[1..] == [TakePlan] && es[1..][1..] == [];
    assert Possible(c, s2, []) && After(c, s2, []) == s2;
    assert Possible(c, s1, es[1..]) && After(c, s1, es[1..]) == s2;
    hide Possible, After;
    assert forall e | Internal(e) :: !Enabled(c, s2, e);
  }
}
