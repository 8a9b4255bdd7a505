/** When SRT preempts: whether a thread that readies a process interrupts the cpu, over every interleaving. */
module SchedulerPreemption {
  import opened Scheduler
  import opened SchedulerInvariant
  import opened SchedulerProcesses
  import opened SchedulerRuns

  /** The cpu is busy with a process other than this one. */
  predicate BusyWithAnother(s: State, id: nat) {
    s.busy && !(s.exec.Some? && s.exec.value.id == id)
  }

  /** The run ends when thread `t` posts the ready token, for the first time. */
  predicate UntilPosted(es: seq<Event>, t: Thread) {
    |es| > 0 && es[|es| - 1] == PostReady(t) && PostReady(t) !in es[..|es| - 1]
  }

  /** What thread `t` found when it looked at the cpu in the run. */
  predicate Found(c: Planner, s: State, es: seq<Event>, t: Thread, id: nat)
    requires Possible(c, s, es)
    decreases es
  {
    |es| > 0 && if es[0] == Look(t) then BusyWithAnother(s, id) else Found(c, Next(c, s, es[0]), es[1..], t, id)
  }

  // ---------- what the other threads leave alone ----------

  predicate StepOf(e: Event, t: Thread) {
    e == Look(t) || e == TakePermit(t) || e == Interrupt(t) || e == PostReady(t) || e == Insert(t)
  }

  lemma MoversLeaveOthers(c: Planner, s: State, e: Event, t: Thread)
    requires Enabled(c, s, e) && ByMover(e) && !StepOf(e, t)
    ensures Next(c, s, e).movers.Get(t) == s.movers.Get(t)
  {
    match t
    case Admission =>
    case Unblock =>
    case Return =>
  }

  /** While a thread is signalling only its own steps change where it is. */
  lemma OthersLeaveSignalling(c: Planner, s: State, e: Event, t: Thread)
    requires Exclusion(s) && Enabled(c, s, e) && s.movers.Get(t).Signalling? && !StepOf(e, t)
    ensures Next(c, s, e).movers.Get(t) == s.movers.Get(t)
  {
    if ByMover(e) {
      MoversLeaveOthers(c, s, e, t);
      hide Next, Enabled;
    }
  }

  // ---------- one step of the run ----------

  predicate Checking(m: Mover) {
    m.Signalling? && m.phase == Check
  }

  /** The thread has looked at the cpu. */
  predicate PastCheck(m: Mover) {
    m.Signalling? && m.phase != Check
  }

  lemma RestOfRun(es: seq<Event>, t: Thread)
    requires UntilPosted(es, t)
    ensures forall e :: e in es <==> e == es[0] || e in es[1..]
    ensures if es[0] == PostReady(t) then es == [PostReady(t)] else UntilPosted(es[1..], t)
  {
    assert es == [es[0]] + es[1..];
    if |es| > 1 {
      assert es[0] in es[..|es| - 1];
      assert es[1..][..|es| - 2] == es[..|es| - 1][1..];
    }
  }

  /** Past the look: a thread that waits for the permit interrupts before it posts; one that need not wait does not. */
  lemma {:induction false} WaitingInterrupts(c: Planner, s: State, es: seq<Event>, t: Thread)
    requires Inv(c, s) && Possible(c, s, es) && UntilPosted(es, t)
    requires PastCheck(s.movers.Get(t))
    ensures Interrupt(t) in es <==> !Posting(s.movers.Get(t))
    decreases es
  {
    RestOfRun(es, t);
    if es[0] != PostReady(t) {
      OwnStep(c, s, es[0], t);
      StepKeeps(c, s, es[0]);
      hide Inv, Enabled, Next, UntilPosted;
      WaitingInterrupts(c, Next(c, s, es[0]), es[1..], t);
    } else {
      hide Inv;
    }
  }

  lemma OwnStep(c: Planner, s: State, e: Event, t: Thread)
    requires Exclusion(s) && Enabled(c, s, e) && e != PostReady(t) && PastCheck(s.movers.Get(t))
    ensures PastCheck(Next(c, s, e).movers.Get(t))
    ensures Posting(Next(c, s, e).movers.Get(t)) <==> e == Interrupt(t) || Posting(s.movers.Get(t))
    ensures e == Interrupt(t) ==> !Posting(s.movers.Get(t))
  {
    NotBackToCheck(c, s, t);
    hide Next, Enabled, Movers.Get, Exclusion;
    if !StepOf(e, t) {
      OthersLeaveSignalling(c, s, e, t);
    } else if e == TakePermit(t) {
      PermitSets(c, s, t);
    } else {
      assert e == Interrupt(t);
      InterruptSets(c, s, t);
    }
  }

  lemma NotBackToCheck(c: Planner, s: State, t: Thread)
    requires PastCheck(s.movers.Get(t))
    ensures !Enabled(c, s, Look(t)) && !Enabled(c, s, Insert(t))
  {
  }

  lemma PermitSets(c: Planner, s: State, t: Thread)
    requires Enabled(c, s, TakePermit(t))
    ensures !Posting(s.movers.Get(t)) && Sending(Next(c, s, TakePermit(t)).movers.Get(t))
  {
  }

  lemma InterruptSets(c: Planner, s: State, t: Thread)
    requires Enabled(c, s, Interrupt(t))
    ensures !Posting(s.movers.Get(t)) && Posting(Next(c, s, Interrupt(t)).movers.Get(t))
  {
  }

  /**
   * From the moment a thread looks at the cpu until it posts the ready token it interrupts if and only if the cpu was
   * busy with a process other than the one it inserted.
   */
  lemma LookDecides(c: Planner, s: State, es: seq<Event>, t: Thread)
    requires Reachable(c, s) && Possible(c, s, es) && UntilPosted(es, t) && es[0] == Look(t)
    ensures Interrupt(t) in es <==> BusyWithAnother(s, s.movers.Get(t).id)
  {
    ReachableHolds(c, s);
    LookDecidesInv(c, s, es, t);
  }

  lemma LookDecidesInv(c: Planner, s: State, es: seq<Event>, t: Thread)
    requires Inv(c, s) && Possible(c, s, es) && UntilPosted(es, t) && es[0] == Look(t)
    ensures s.movers.Get(t).Signalling?
    ensures Interrupt(t) in es <==> BusyWithAnother(s, s.movers.Get(t).id)
  {
    RestOfRun(es, t);
    StepKeeps(c, s, Look(t));
    LookSets(c, s, t);
    hide Inv, Enabled, Next, UntilPosted;
    WaitingInterrupts(c, Next(c, s, Look(t)), es[1..], t);
  }

  lemma LookSets(c: Planner, s: State, t: Thread)
    requires Enabled(c, s, Look(t))
    ensures var m := Next(c, s, Look(t)).movers.Get(t);
      m.Signalling? && m.phase == if BusyWithAnother(s, s.movers.Get(t).id) then Wait else Post
  {
  }

  lemma OnlyLooks(c: Planner, s: State, e: Event, t: Thread)
    requires Exclusion(s) && Enabled(c, s, e) && e != Look(t)
    requires Checking(s.movers.Get(t))
    ensures !StepOf(e, t) && Next(c, s, e).movers.Get(t) == s.movers.Get(t)
  {
    NotPastCheck(c, s, t);
    hide Next, Enabled, Movers.Get, Exclusion;
    OthersLeaveSignalling(c, s, e, t);
  }

  lemma NotPastCheck(c: Planner, s: State, t: Thread)
    requires Checking(s.movers.Get(t))
    ensures !Enabled(c, s, TakePermit(t)) && !Enabled(c, s, Interrupt(t)) && !Enabled(c, s, PostReady(t))
    ensures !Enabled(c, s, Insert(t))
  {
  }

  lemma {:induction false} CheckingLooks(c: Planner, s: State, es: seq<Event>, t: Thread, id: nat)
    requires Inv(c, s) && Possible(c, s, es) && UntilPosted(es, t) && s.movers.Get(t) == Signalling(id, Check)
    ensures Look(t) in es && (Interrupt(t) in es <==> Found(c, s, es, t, id))
    decreases es
  {
    RestOfRun(es, t);
    if es[0] == Look(t) {
      LookDecidesInv(c, s, es, t);
      hide Inv, Enabled, Next, UntilPosted;
    } else {
      OnlyLooks(c, s, es[0], t);
      StepKeeps(c, s, es[0]);
      hide Inv, Enabled, Next, UntilPosted;
      CheckingLooks(c, Next(c, s, es[0]), es[1..], t, id);
    }
  }

  /**
   * Under SRT, from the insertion of a process in READY until its token is posted, the thread looks at the cpu, and it
   * interrupts if and only if the cpu was then busy with another process.
   */
  lemma PreemptsExactly(c: Planner, s: State, es: seq<Event>, t: Thread)
    requires Reachable(c, s) && c.algorithm.Srt? && Possible(c, s, es) && UntilPosted(es, t) && es[0] == Insert(t)
    ensures s.movers.Get(t).Hand? && Look(t) in es
    ensures Interrupt(t) in es <==> Found(c, s, es, t, s.movers.Get(t).pcb.id)
  {
    ReachableHolds(c, s);
    RestOfRun(es, t);
    StepKeeps(c, s, Insert(t));
    var id := s.movers.Get(t).pcb.id;
    InsertSets(c, s, t);
    hide Inv, Reachable, Enabled, Next, UntilPosted;
    CheckingLooks(c, Next(c, s, Insert(t)), es[1..], t, id);
  }

  lemma InsertSets(c: Planner, s: State, t: Thread)
    requires Enabled(c, s, Insert(t)) && c.algorithm.Srt?
    ensures Next(c, s, Insert(t)).movers.Get(t) == Signalling(s.movers.Get(t).pcb.id, Check)
  {
  }

  /** Under FIFO no thread ever interrupts. */
  lemma FifoNeverPreempts(c: Planner, s: State, t: Thread)
    requires Reachable(c, s) && c.algorithm.Fifo?
    ensures !Enabled(c, s, Interrupt(t)) && !s.interrupted
  {
    ReachableHolds(c, s);
    hide Reachable, OnePlace, Tokens, Exclusion, Statuses, Multiprogramming, Permit, InterruptAnswered, ReadySorted;
  }
}
