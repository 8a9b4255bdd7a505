/**
 * What the events of a run say about one process, and that the planner agrees: whether it has come to its end, which
 * estimate it is planned with, and whether a suspension timer caught it blocked.
 */
module SchedulerHistories {
  import opened DispatchConditions
  import opened Options
  import opened SafeQueue
  import opened ReadyOrder
  import opened Scheduler
  import opened SchedulerInvariant
  import opened SchedulerProcesses
  import opened SchedulerRuns

  // ---------- what the events say ----------

  /**
   * The last estimate reported, whether a timer fired since the process last left the cpu, whether it was rejected or
   * returned for good, and the thread that last inserted it in READY.
   */
  datatype History = History(estimate: int, timer: bool, ended: bool, from: Thread)

  /** The conditions that end a process. */
  predicate Final(c: Planner, condition: Condition) {
    condition != IoSyscall && !(condition == InterruptedByKernel && c.algorithm.Srt?)
  }

  predicate Is(p: Option<Pcb>, id: nat) {
    p.Some? && p.value.id == id
  }

  /** What is known of a process after one event more. */
  function Told(c: Planner, s: State, e: Event, id: nat, h: History): History
    requires Enabled(c, s, e)
  {
    match e
    case Arrive(burst) => if id == s.last + 1 then History(burst, false, false, Admission) else h
    case Insert(t) => if s.movers.Get(t).pcb.id == id then h.(from := t) else h
    case RejectNew => if s.arrived[0].id == id then h.(ended := true) else h
    case CpuReturns(condition, burst) =>
      if Is(s.exec, id) then
        h.(estimate := if c.algorithm.Srt? then burst else h.estimate, timer := false,
           ended := h.ended || Final(c, condition))
      else h
    case SuspendBlocked(i) => if s.blocked[i].id == id then h.(timer := true) else h
    case SuspendInIo => if Is(s.io, id) then h.(timer := true) else h
    case _ => h
  }

  function Heard(c: Planner, s: State, es: seq<Event>, id: nat, h: History): History
    requires Possible(c, s, es)
    decreases es
  {
    if |es| == 0 then h else Heard(c, Next(c, s, es[0]), es[1..], id, Told(c, s, es[0], id, h))
  }

  const Unheard := History(0, false, false, Admission)

  // ---------- what the planner has ----------

  ghost predicate Listed(q: seq<Pcb>, id: nat) {
    exists i :: 0 <= i < |q| && q[i].id == id
  }

  /** The cpu returned the process for good and the listener has not placed it yet. */
  predicate Doomed(c: Planner, s: State, id: nat) {
    s.ret.RetGot? && Final(c, s.ret.condition) && Is(s.exec, id)
  }

  /** In the exit queue, in the hand of its controller, or finished. */
  ghost predicate Over(s: State, id: nat) {
    Listed(s.exit, id) || (s.exiting.ExitHand? && s.exiting.pcb.id == id) || id in s.finished
  }

  ghost predicate Estimated(q: seq<Pcb>, id: nat, x: int) {
    forall i | 0 <= i < |q| && q[i].id == id :: q[i].burst == x
  }

  predicate HandEstimated(m: Mover, id: nat, x: int) {
    m.Hand? && m.pcb.id == id ==> m.pcb.burst == x
  }

  /** The cpu's report replaces the estimate under SRT, also before the listener has written it down. */
  predicate CpuEstimated(c: Planner, s: State, id: nat, x: int) {
    Is(s.exec, id) ==> (if c.algorithm.Srt? && s.ret.RetGot? then s.ret.burst else s.exec.value.burst) == x
  }

  /** Wherever the process is, it has that estimate. */
  ghost predicate Estimates(c: Planner, s: State, id: nat, x: int) {
    && Estimated(s.arrived, id, x) && Estimated(s.ready, id, x) && Estimated(s.blocked, id, x)
    && Estimated(s.suspended, id, x)
    && CpuEstimated(c, s, id, x) && (Is(s.io, id) ==> s.io.value.burst == x)
    && HandEstimated(s.movers.admission, id, x) && HandEstimated(s.movers.unblock, id, x)
    && HandEstimated(s.movers.ret, id, x)
  }

  ghost predicate Caught(q: seq<Pcb>, id: nat, timer: bool) {
    forall i | 0 <= i < |q| && q[i].id == id :: q[i].status == SuspendedBlocked <==> timer
  }

  /** Blocked or at the device, it is suspended exactly when the timer caught it. */
  ghost predicate Timers(s: State, id: nat, timer: bool) {
    && Caught(s.blocked, id, timer) && (Is(s.io, id) ==> (s.io.value.status == SuspendedBlocked <==> timer))
    && (s.ret.RetGot? && Is(s.exec, id) ==> !timer)
  }

  /** In the SRT ready queue a process is marked with where it came from: the cpu, the device or neither. */
  ghost predicate Origins(c: Planner, s: State, id: nat, from: Thread) {
    c.algorithm.Srt? ==> Marked(s.ready, id, from)
  }

  ghost predicate Marked(q: seq<Pcb>, id: nat, from: Thread) {
    forall i | 0 <= i < |q| && q[i].id == id ::
      (q[i].previous == Exec <==> from == Return) && (q[i].previous == Blocked <==> from == Unblock)
  }

  ghost predicate Ends(c: Planner, s: State, id: nat, ended: bool) {
    Over(s, id) || Doomed(c, s, id) <==> ended
  }

  // ---------- one place ----------

  lemma {:induction false} ListedCounts(q: seq<Pcb>, id: nat)
    ensures Listed(q, id) <==> CountIn(q, id) >= 1
  {
    if |q| > 0 {
      ListedCounts(q[1..], id);
      assert Listed(q, id) <==> q[0].id == id || Listed(q[1..], id) by {
        if q[0].id != id && Listed(q, id) {
          var i :| 0 <= i < |q| && q[i].id == id;
          assert q[1..][i - 1].id == id;
        }
        if Listed(q[1..], id) {
          var i :| 0 <= i < |q[1..]| && q[1..][i].id == id;
          assert q[i + 1].id == id;
        }
      }
    }
  }

  predicate HandHolds(m: Mover, id: nat) {
    m.Hand? && m.pcb.id == id
  }

  /** The process is nowhere. */
  ghost predicate Absent(s: State, id: nat) {
    && !Listed(s.arrived, id) && !Listed(s.ready, id) && !Listed(s.blocked, id) && !Listed(s.suspended, id)
    && !Is(s.exec, id) && !Is(s.io, id)
    && !HandHolds(s.movers.admission, id) && !HandHolds(s.movers.unblock, id) && !HandHolds(s.movers.ret, id)
    && !Over(s, id)
  }

  lemma CountsListed(s: State, id: nat)
    ensures Listed(s.arrived, id) <==> CountIn(s.arrived, id) >= 1
    ensures Listed(s.ready, id) <==> CountIn(s.ready, id) >= 1
    ensures Listed(s.blocked, id) <==> CountIn(s.blocked, id) >= 1
    ensures Listed(s.suspended, id) <==> CountIn(s.suspended, id) >= 1
    ensures Listed(s.exit, id) <==> CountIn(s.exit, id) >= 1
  {
    ListedCounts(s.arrived, id);
    ListedCounts(s.ready, id);
    ListedCounts(s.blocked, id);
    ListedCounts(s.suspended, id);
    ListedCounts(s.exit, id);
  }

  lemma NowhereIsAbsent(s: State, id: nat)
    requires Places(s, id) == 0
    ensures Absent(s, id)
  {
    CountsListed(s, id);
    hide CountIn, Listed;
  }

  lemma OnlyOnCpu(s: State, id: nat)
    requires Places(s, id) <= 1 && Is(s.exec, id)
    ensures Absent(s.(exec := None), id)
  {
    CountsListed(s, id);
    hide CountIn, Listed;
  }

  lemma OnlyBlocked(s: State, id: nat)
    requires Places(s, id) <= 1 && Listed(s.blocked, id)
    ensures !Is(s.exec, id) && !Is(s.io, id) && CountIn(s.blocked, id) == 1
  {
    CountsListed(s, id);
    hide CountIn, Listed;
  }

  lemma OnlyAtDevice(s: State, id: nat)
    requires Places(s, id) <= 1 && Is(s.io, id)
    ensures !Is(s.exec, id) && !Listed(s.blocked, id)
  {
    CountsListed(s, id);
    hide CountIn, Listed;
  }

  lemma {:induction false} CountedOnce(q: seq<Pcb>, id: nat, i: nat, j: nat)
    requires CountIn(q, id) == 1 && i < j < |q| && q[i].id == id
    ensures q[j].id != id
  {
    if i == 0 {
      CountZero(q[1..], id, j - 1);
    } else if q[0].id == id {
      CountZero(q[1..], id, i - 1);
    } else {
      CountedOnce(q[1..], id, i - 1, j - 1);
    }
  }

  lemma AbsentTells(c: Planner, s: State, id: nat, x: int, timer: bool)
    requires Absent(s, id)
    ensures Estimates(c, s, id, x) && Timers(s, id, timer) && Ends(c, s, id, false) && Origins(c, s, id, Admission)
  {
  }

  // ---------- queues ----------

  lemma ListedPushed(q: seq<Pcb>, p: Pcb, id: nat)
    ensures Listed(q + [p], id) <==> Listed(q, id) || p.id == id
  {
    if Listed(q, id) {
      var i :| 0 <= i < |q| && q[i].id == id;
      assert (q + [p])[i].id == id;
    }
    assert (q + [p])[|q|] == p;
  }

  lemma ListedPopped(q: seq<Pcb>, id: nat)
    requires q != []
    ensures Listed(q, id) <==> q[0].id == id || Listed(q[1..], id)
  {
    if Listed(q[1..], id) {
      var i :| 0 <= i < |q[1..]| && q[1..][i].id == id;
      assert q[i + 1].id == id;
    }
    if Listed(q, id) && q[0].id != id {
      var i :| 0 <= i < |q| && q[i].id == id;
      assert q[1..][i - 1].id == id;
    }
  }

  lemma TellsPushed(q: seq<Pcb>, p: Pcb, id: nat, x: int, timer: bool)
    requires Estimated(q, id, x) && (p.id == id ==> p.burst == x)
    ensures Estimated(q + [p], id, x)
    ensures Caught(q, id, timer) && (p.id == id ==> (p.status == SuspendedBlocked <==> timer)) ==>
      Caught(q + [p], id, timer)
  {
  }

  lemma TellsPopped(q: seq<Pcb>, id: nat, x: int, timer: bool)
    requires Estimated(q, id, x) && q != []
    ensures Estimated(q[1..], id, x) && (q[0].id == id ==> q[0].burst == x)
    ensures forall from: Thread :: Marked(q, id, from) ==> Marked(q[1..], id, from)
    ensures Caught(q, id, timer) ==>
      Caught(q[1..], id, timer) && (q[0].id == id ==> (q[0].status == SuspendedBlocked <==> timer))
  {
  }

  lemma TellsMoved(q: seq<Pcb>, p: Pcb, id: nat, x: int)
    requires Estimated(q, id, x) && (p.id == id ==> p.burst == x)
    ensures Estimated(MovedToReady(q, p), id, x)
  {
    MovedIs(q, p);
    hide MovedToReady, Position;
  }

  /** A timer that fires for the `i`-th process catches that one, and no other with its identifier. */
  lemma TellsCaught(q: seq<Pcb>, i: nat, id: nat, x: int, timer: bool)
    requires i < |q| && All(q, {Blocked, SuspendedBlocked}) && Estimated(q, id, x) && Caught(q, id, timer)
    requires q[i].id == id ==> CountIn(q, id) == 1
    ensures var r := q[i := Suspended(q[i])];
      Estimated(r, id, x) && Caught(r, id, if q[i].id == id then true else timer)
  {
    assert q[i].status in {Blocked, SuspendedBlocked};
    var r := q[i := Suspended(q[i])];
    forall j | 0 <= j < |r| && r[j].id == id
      ensures r[j].burst == x && (r[j].status == SuspendedBlocked <==> if q[i].id == id then true else timer)
    {
      if q[i].id == id && i < j {
        CountedOnce(q, id, i, j);
      } else if q[i].id == id && j < i {
        CountedOnce(q, id, j, i);
      }
    }
  }

  // ---------- one step ----------

  ghost predicate Agrees(c: Planner, s: State, id: nat, h: History) {
    && Estimates(c, s, id, h.estimate) && Timers(s, id, h.timer) && Ends(c, s, id, h.ended)
    && Origins(c, s, id, h.from)
  }

  /** The same processes in the same places. */
  predicate SameTold(s: State, t: State) {
    && s.arrived == t.arrived && s.ready == t.ready && s.blocked == t.blocked && s.suspended == t.suspended
    && s.exit == t.exit && s.exec == t.exec && s.io == t.io && s.finished == t.finished
    && (s.exiting.ExitHand? || t.exiting.ExitHand? ==> s.exiting == t.exiting)
    && (s.ret.RetGot? || t.ret.RetGot? ==> s.ret == t.ret)
    && SameHand(s.movers.admission, t.movers.admission) && SameHand(s.movers.unblock, t.movers.unblock)
    && SameHand(s.movers.ret, t.movers.ret)
  }

  lemma SameToldAgrees(c: Planner, s: State, t: State, id: nat, h: History)
    requires SameTold(s, t) && Agrees(c, s, id, h)
    ensures Agrees(c, t, id, h)
  {
  }

  lemma QuietAgrees(c: Planner, s: State, e: Event, id: nat, h: History)
    requires Enabled(c, s, e) && Agrees(c, s, id, h) && Quiet(e) && !e.CpuReturns?
    ensures Agrees(c, Next(c, s, e), id, Told(c, s, e, id, h))
  {
    QuietMovesNothing(c, s, e);
    assert s.ret.RetGot? || Next(c, s, e).ret.RetGot? ==> s.ret == Next(c, s, e).ret;
    hide Agrees, Next, Enabled;
    SameToldAgrees(c, s, Next(c, s, e), id, h);
  }

  lemma WaitingAgrees(c: Planner, s: State, e: Event, id: nat, h: History)
    requires Enabled(c, s, e) && Agrees(c, s, id, h) && (e.TakeLevel? || e.FindNothing?)
    ensures Agrees(c, Next(c, s, e), id, Told(c, s, e, id, h))
  {
    hide Agrees;
    SameToldAgrees(c, s, Next(c, s, e), id, h);
  }

  lemma ArrivalAgrees(c: Planner, s: State, e: Event, id: nat, h: History)
    requires Enabled(c, s, e) && Agrees(c, s, id, h) && OnePlace(s) && e.Arrive?
    ensures Agrees(c, Next(c, s, e), id, Told(c, s, e, id, h))
  {
    var h' := Told(c, s, e, id, h);
    if id == s.last + 1 {
      assert Places(s, id) == 0;
      NowhereIsAbsent(s, id);
      AbsentTells(c, s, id, h'.estimate, h'.timer);
    }
    TellsPushed(s.arrived, Pcb(s.last + 1, e.burst, New, New), id, h'.estimate, h'.timer);
    hide Estimated, Caught, Marked, Places, Listed, Absent;
  }

  lemma ReadmissionAgrees(c: Planner, s: State, e: Event, id: nat, h: History)
    requires Enabled(c, s, e) && Agrees(c, s, id, h) && e.Resume? && Exclusion(s)
    ensures Agrees(c, Next(c, s, e), id, Told(c, s, e, id, h))
  {
    TellsPopped(s.suspended, id, h.estimate, h.timer);
    hide Estimated, Caught, Marked, Listed;
  }

  lemma AdmissionAgrees(c: Planner, s: State, e: Event, id: nat, h: History)
    requires Enabled(c, s, e) && Agrees(c, s, id, h) && e.AdmitNew? && Exclusion(s)
    ensures Agrees(c, Next(c, s, e), id, Told(c, s, e, id, h))
  {
    TellsPopped(s.arrived, id, h.estimate, h.timer);
    hide Estimated, Caught, Marked, Listed;
  }

  lemma RejectionAgrees(c: Planner, s: State, e: Event, id: nat, h: History)
    requires Enabled(c, s, e) && Agrees(c, s, id, h) && e.RejectNew?
    ensures Agrees(c, Next(c, s, e), id, Told(c, s, e, id, h))
  {
    TellsPopped(s.arrived, id, h.estimate, h.timer);
    ListedPushed(s.exit, s.arrived[0].(status := Exit), id);
    hide Estimated, Caught, Marked, Listed;
  }

  lemma InsertionAgrees(c: Planner, s: State, e: Event, id: nat, h: History)
    requires Enabled(c, s, e) && Agrees(c, s, id, h) && e.Insert? && OnePlace(s) && Statuses(s)
    ensures Agrees(c, Next(c, s, e), id, Told(c, s, e, id, h))
  {
    var p := s.movers.Get(e.t).pcb;
    InsertedEstimated(c, s, e.t, p, id, h.estimate);
    InsertedMarked(c, s, e.t, p, id, h.from);
    assert Next(c, s, e) == Inserting(c, s, e.t, p);
    hide Next, Enabled, Inserting, Estimated, Caught, Listed, Marked, OnePlace, All;
  }

  lemma MarkedMoved(q: seq<Pcb>, p: Pcb, id: nat, from: Thread, t: Thread)
    requires Marked(q, id, from) && (p.id == id ==> !Listed(q, id))
    requires (p.status == Exec <==> t == Return) && (p.status == Blocked <==> t == Unblock)
    ensures Marked(MovedToReady(q, p), id, if p.id == id then t else from)
  {
    MovedIs(q, p);
    hide MovedToReady, Position;
  }

  lemma InsertedMarked(c: Planner, s: State, t: Thread, p: Pcb, id: nat, from: Thread)
    requires OnePlace(s) && Statuses(s) && s.movers.Get(t) == Hand(p) && Origins(c, s, id, from)
    ensures Origins(c, Inserting(c, s, t, p), id, if p.id == id then t else from)
  {
    HandFrom(s, t, p);
    if p.id == id {
      HandNotReady(s, t, p);
    }
    assert c.algorithm.Srt? ==> Inserting(c, s, t, p).ready == MovedToReady(s.ready, p);
    hide Inserting, Listed, Marked, OnePlace, MovedToReady, Statuses, Movers.Get;
    if c.algorithm.Srt? {
      MarkedMoved(s.ready, p, id, from, t);
    }
  }

  lemma HandFrom(s: State, t: Thread, p: Pcb)
    requires Statuses(s) && s.movers.Get(t) == Hand(p)
    ensures (p.status == Exec <==> t == Return) && (p.status == Blocked <==> t == Unblock)
  {
    hide All;
  }

  lemma HandNotReady(s: State, t: Thread, p: Pcb)
    requires OnePlace(s) && s.movers.Get(t) == Hand(p)
    ensures !Listed(s.ready, p.id)
  {
    assert Places(s, p.id) <= 1;
    ListedCounts(s.ready, p.id);
    hide CountIn, Listed, OnePlace;
  }

  lemma InsertedEstimated(c: Planner, s: State, t: Thread, p: Pcb, id: nat, x: int)
    requires s.movers.Get(t) == Hand(p) && Estimates(c, s, id, x)
    ensures var s' := Inserting(c, s, t, p);
      && Estimated(s'.ready, id, x)
      && HandEstimated(s'.movers.admission, id, x) && HandEstimated(s'.movers.unblock, id, x)
      && HandEstimated(s'.movers.ret, id, x)
      && s' == s.(ready := s'.ready, stpPlan := s'.stpPlan, movers := s'.movers)
  {
    if c.algorithm.Fifo? {
      TellsPushed(s.ready, p.(status := Ready), id, x, false);
    } else {
      TellsMoved(s.ready, p, id, x);
    }
    hide Estimated, Caught, MovedToReady;
  }

  lemma FinishAgrees(c: Planner, s: State, e: Event, id: nat, h: History)
    requires Enabled(c, s, e) && Agrees(c, s, id, h) && (e.PopExit? || e.Finalize?)
    ensures Agrees(c, Next(c, s, e), id, Told(c, s, e, id, h))
  {
    if e.PopExit? {
      ListedPopped(s.exit, id);
    }
    hide Estimated, Caught, Marked, Listed;
  }

  lemma StartAgrees(c: Planner, s: State, e: Event, id: nat, h: History)
    requires Enabled(c, s, e) && Agrees(c, s, id, h) && e.StartIo?
    ensures Agrees(c, Next(c, s, e), id, Told(c, s, e, id, h))
  {
    TellsPopped(s.blocked, id, h.estimate, h.timer);
    hide Estimated, Caught, Marked, Listed;
  }

  lemma IoDoneAgrees(c: Planner, s: State, e: Event, id: nat, h: History)
    requires Enabled(c, s, e) && Agrees(c, s, id, h) && e.IoDone?
    ensures Agrees(c, Next(c, s, e), id, Told(c, s, e, id, h))
  {
    hide Estimated, Caught, Marked, Listed;
  }

  lemma ResumptionAgrees(c: Planner, s: State, e: Event, id: nat, h: History)
    requires Enabled(c, s, e) && Agrees(c, s, id, h) && e.IoDoneSuspended?
    ensures Agrees(c, Next(c, s, e), id, Told(c, s, e, id, h))
  {
    TellsPushed(s.suspended, s.io.value.(status := SuspendedReady), id, h.estimate, h.timer);
    hide Estimated, Caught, Marked, Listed;
  }

  lemma SuspensionAgrees(c: Planner, s: State, e: Event, id: nat, h: History)
    requires Enabled(c, s, e) && Agrees(c, s, id, h) && e.SuspendBlocked? && OnePlace(s) && Statuses(s)
    ensures Agrees(c, Next(c, s, e), id, Told(c, s, e, id, h))
  {
    if s.blocked[e.i].id == id {
      CaughtAtPlace(s, e.i, id);
    }
    TellsCaught(s.blocked, e.i, id, h.estimate, h.timer);
    hide Estimated, Caught, Marked, Listed, CountIn, OnePlace, All;
  }

  lemma CaughtAtPlace(s: State, i: nat, id: nat)
    requires OnePlace(s) && i < |s.blocked| && s.blocked[i].id == id
    ensures !Is(s.exec, id) && !Is(s.io, id) && CountIn(s.blocked, id) == 1
  {
    assert Listed(s.blocked, id) && Places(s, id) <= 1;
    OnlyBlocked(s, id);
  }

  lemma DeviceSuspensionAgrees(c: Planner, s: State, e: Event, id: nat, h: History)
    requires Enabled(c, s, e) && Agrees(c, s, id, h) && e.SuspendInIo? && OnePlace(s) && Statuses(s)
    ensures Agrees(c, Next(c, s, e), id, Told(c, s, e, id, h))
  {
    if Is(s.io, id) {
      assert Places(s, id) <= 1;
      OnlyAtDevice(s, id);
      assert Caught(s.blocked, id, true);
    }
    hide Estimated, Marked, Listed, Places;
  }

  lemma DispatchAgrees(c: Planner, s: State, e: Event, id: nat, h: History)
    requires Enabled(c, s, e) && Agrees(c, s, id, h) && e.Dispatch? && Exclusion(s)
    ensures Agrees(c, Next(c, s, e), id, Told(c, s, e, id, h))
  {
    TellsPopped(s.ready, id, h.estimate, h.timer);
    hide Estimated, Caught, Marked, Listed;
  }

  lemma ReturnAgrees(c: Planner, s: State, e: Event, id: nat, h: History)
    requires Enabled(c, s, e) && Agrees(c, s, id, h) && e.CpuReturns? && OnePlace(s)
    ensures Agrees(c, Next(c, s, e), id, Told(c, s, e, id, h))
  {
    if Is(s.exec, id) {
      var h' := Told(c, s, e, id, h);
      assert Places(s, id) <= 1;
      OnlyOnCpu(s, id);
      AbsentTells(c, s.(exec := None), id, h'.estimate, h'.timer);
    }
    hide Estimated, Caught, Marked, Listed, Places, Absent;
  }

  lemma ExitReturnAgrees(c: Planner, s: State, e: Event, id: nat, h: History)
    requires Enabled(c, s, e) && Agrees(c, s, id, h) && e.ReturnExit?
    ensures Agrees(c, Next(c, s, e), id, Told(c, s, e, id, h))
  {
    ListedPushed(s.exit, Returned(c, s).(status := Exit), id);
    hide Estimated, Caught, Marked, Listed;
  }

  lemma BlockedReturnAgrees(c: Planner, s: State, e: Event, id: nat, h: History)
    requires Enabled(c, s, e) && Agrees(c, s, id, h) && e.ReturnIo?
    ensures Agrees(c, Next(c, s, e), id, Told(c, s, e, id, h))
  {
    TellsPushed(s.blocked, Returned(c, s).(status := Blocked), id, h.estimate, h.timer);
    hide Estimated, Caught, Marked, Listed;
  }

  lemma PreemptedAgrees(c: Planner, s: State, e: Event, id: nat, h: History)
    requires Enabled(c, s, e) && Agrees(c, s, id, h) && e.ReturnPreempted? && Exclusion(s)
    ensures Agrees(c, Next(c, s, e), id, Told(c, s, e, id, h))
  {
    hide Estimated, Caught, Marked, Listed;
  }

  /** Every step does to a process what its event says. */
  lemma StepAgrees(c: Planner, s: State, e: Event, id: nat, h: History)
    requires Inv(c, s) && Enabled(c, s, e) && Agrees(c, s, id, h)
    ensures Agrees(c, Next(c, s, e), id, Told(c, s, e, id, h))
  {
    NoPopMeetsAnEmptyQueue(c, s);
    hide Enabled, Next, Told, Agrees, Tokens, Exclusion, Statuses, Multiprogramming, OnePlace, Permit,
      InterruptAnswered, NoSignals, ReadySorted;
    match e
    case Arrive(_) => ArrivalAgrees(c, s, e, id, h);
    case TakeLevel => WaitingAgrees(c, s, e, id, h);
    case Resume => ReadmissionAgrees(c, s, e, id, h);
    case AdmitNew => AdmissionAgrees(c, s, e, id, h);
    case RejectNew => RejectionAgrees(c, s, e, id, h);
    case Insert(_) => InsertionAgrees(c, s, e, id, h);
    case PopExit => FinishAgrees(c, s, e, id, h);
    case Finalize => FinishAgrees(c, s, e, id, h);
    case StartIo => StartAgrees(c, s, e, id, h);
    case IoDone => IoDoneAgrees(c, s, e, id, h);
    case IoDoneSuspended => ResumptionAgrees(c, s, e, id, h);
    case SuspendBlocked(_) => SuspensionAgrees(c, s, e, id, h);
    case SuspendInIo => DeviceSuspensionAgrees(c, s, e, id, h);
    case Dispatch => DispatchAgrees(c, s, e, id, h);
    case CpuReturns(_, _) => ReturnAgrees(c, s, e, id, h);
    case ReturnExit => ExitReturnAgrees(c, s, e, id, h);
    case ReturnIo => BlockedReturnAgrees(c, s, e, id, h);
    case ReturnPreempted => PreemptedAgrees(c, s, e, id, h);
    case _ => QuietAgrees(c, s, e, id, h);
  }

  // ---------- runs ----------

  lemma {:induction false} RunAgrees(c: Planner, s: State, es: seq<Event>, id: nat, h: History)
    requires Inv(c, s) && Possible(c, s, es) && Agrees(c, s, id, h)
    ensures Agrees(c, After(c, s, es), id, Heard(c, s, es, id, h))
    decreases es
  {
    hide Inv, Enabled, Next, Told, Agrees;
    if |es| > 0 {
      StepKeeps(c, s, es[0]);
      StepAgrees(c, s, es[0], id, h);
      RunAgrees(c, Next(c, s, es[0]), es[1..], id, Told(c, s, es[0], id, h));
    }
  }

  /** After any run from start-up the planner agrees with the history of every process. */
  lemma HistoryHolds(c: Planner, es: seq<Event>, id: nat)
    requires Possible(c, Initial(c), es)
    ensures Agrees(c, After(c, Initial(c), es), id, Heard(c, Initial(c), es, id, Unheard))
  {
    InitialHolds(c);
    assert Absent(Initial(c), id);
    AbsentTells(c, Initial(c), id, 0, false);
    hide Inv, Agrees;
    RunAgrees(c, Initial(c), es, id, Unheard);
  }

  // ---------- what follows ----------

  /**
   * After any run a process has come to its end, or is about to be placed there by the listener, if and only if its
   * creation was rejected or the cpu returned it with a condition that ends it. Input/output does not, nor, under SRT,
   * does an interruption.
   */
  lemma EndsExactly(c: Planner, es: seq<Event>, id: nat)
    requires Possible(c, Initial(c), es)
    ensures var s := After(c, Initial(c), es);
      Over(s, id) || Doomed(c, s, id) <==> Heard(c, Initial(c), es, id, Unheard).ended
  {
    HistoryHolds(c, es, id);
    hide Possible, Heard, Over, Doomed, Estimates, Timers, Origins;
  }

  /** A ready process is ordered by the last estimate that the cpu reported, or by the one it arrived with. */
  lemma ReadyByLastReport(c: Planner, es: seq<Event>, i: nat)
    requires Possible(c, Initial(c), es) && i < |After(c, Initial(c), es).ready|
    ensures var p := After(c, Initial(c), es).ready[i];
      p.burst == Heard(c, Initial(c), es, p.id, Unheard).estimate
  {
    HistoryHolds(c, es, After(c, Initial(c), es).ready[i].id);
    hide Possible, Heard, Ends, Timers, Origins;
  }

  /** A process that SRT has ready is marked as coming from the thread that inserted it, which decides ties. */
  lemma ReadyByOrigin(c: Planner, es: seq<Event>, i: nat)
    requires Possible(c, Initial(c), es) && i < |After(c, Initial(c), es).ready| && c.algorithm.Srt?
    ensures var p := After(c, Initial(c), es).ready[i]; var from := Heard(c, Initial(c), es, p.id, Unheard).from;
      (p.previous == Exec <==> from == Return) && (p.previous == Blocked <==> from == Unblock)
  {
    HistoryHolds(c, es, After(c, Initial(c), es).ready[i].id);
    hide Possible, Heard, Ends, Timers, Estimates;
  }

  /** A blocked process is suspended if and only if a timer fired for it since it last left the cpu. */
  lemma SuspendedByTimer(c: Planner, es: seq<Event>, i: nat)
    requires Possible(c, Initial(c), es) && i < |After(c, Initial(c), es).blocked|
    ensures var p := After(c, Initial(c), es).blocked[i];
      p.status == SuspendedBlocked <==> Heard(c, Initial(c), es, p.id, Unheard).timer
  {
    HistoryHolds(c, es, After(c, Initial(c), es).blocked[i].id);
    hide Possible, Heard, Ends, Estimates, Origins;
  }

  ghost predicate PushedId(q: seq<Pcb>, r: seq<Pcb>, id: nat) {
    |r| == |q| + 1 && r[..|q|] == q && r[|q|].id == id
  }

  /** When the device is done, a process that a timer caught goes to wait for readmission; any other is readied. */
  lemma DeviceDone(c: Planner, es: seq<Event>, e: Event)
    requires Possible(c, Initial(c), es) && Enabled(c, After(c, Initial(c), es), e)
    requires var s := After(c, Initial(c), es); s.io.Some? && Next(c, s, e).io.None?
    ensures var s := After(c, Initial(c), es); var t, id := Next(c, s, e), s.io.value.id;
      if Heard(c, Initial(c), es, id, Unheard).timer then
        PushedId(s.suspended, t.suspended, id) && t.movers == s.movers && t.exit == s.exit
      else
        HandHolds(t.movers.unblock, id) && t.suspended == s.suspended && t.exit == s.exit
  {
    var s := After(c, Initial(c), es);
    HistoryHolds(c, es, s.io.value.id);
    assert Reachable(c, s);
    ReachableHolds(c, s);
    hide Heard, Reachable, Possible, After, Initial, Ends, Estimates, OnePlace, Tokens, Exclusion, Multiprogramming,
      Permit, InterruptAnswered, NoSignals, ReadySorted;
    OnlyIoDone(c, s, e);
  }

  lemma OnlyIoDone(c: Planner, s: State, e: Event)
    requires Enabled(c, s, e) && s.io.Some? && Next(c, s, e).io.None?
    ensures e.IoDone? || e.IoDoneSuspended? || e.IoDoneAstray?
  {
  }

  /**
   * Whichever step places a process that came back from the cpu: one that asked for input/output goes to the end of
   * the blocked queue and keeps its slot, one that SRT interrupted goes to the listener's hand, to be readied, and any
   * other goes to EXIT and gives its slot back.
   */
  lemma ReturnedGoes(c: Planner, s: State, e: Event)
    requires Reachable(c, s) && Enabled(c, s, e) && s.ret.RetGot? && !Next(c, s, e).ret.RetGot?
    ensures s.exec.Some? && Next(c, s, e).exec.None?
    ensures var t, id := Next(c, s, e), s.exec.value.id;
      if s.ret.condition == IoSyscall then
        PushedId(s.blocked, t.blocked, id) && t.mtpPlan == s.mtpPlan + 1
        && t.exit == s.exit && t.level == s.level && t.movers == s.movers
      else if !Final(c, s.ret.condition) then
        HandHolds(t.movers.ret, id) && t.blocked == s.blocked && t.exit == s.exit && t.level == s.level
      else
        PushedId(s.exit, t.exit, id) && t.ltpExit == s.ltpExit + 1
        && t.blocked == s.blocked && t.level == s.level + 1 && t.movers == s.movers
  {
    ReachableHolds(c, s);
    hide Reachable, OnePlace, Tokens, Multiprogramming, Permit, InterruptAnswered, NoSignals, ReadySorted, All;
    OnlyPlacing(c, s, e);
  }

  lemma OnlyPlacing(c: Planner, s: State, e: Event)
    requires Enabled(c, s, e) && s.ret.RetGot? && !Next(c, s, e).ret.RetGot?
    ensures e.ReturnExit? || e.ReturnIo? || e.ReturnPreempted?
  {
  }
}
