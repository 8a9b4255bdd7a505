/**
 * The order in which the planner serves its queues, told from the places a process comes from and goes to: each queue
 * but the SRT ready queue is first in, first out over every run, and readmission comes before admission.
 */
module SchedulerQueues {
  import opened Options
  import opened ReadyOrder
  import opened Scheduler
  import opened SchedulerProcesses
  import opened SchedulerRuns

  // ---------- who joins and who leaves ----------

  datatype Queue = NewQueue | ReadyQueue | BlockedQueue | SuspendedQueue | ExitQueue

  function Ids(q: seq<Pcb>): (ids: seq<nat>)
    ensures |ids| == |q| && forall i | 0 <= i < |q| :: ids[i] == q[i].id
  {
    seq(|q|, i requires 0 <= i < |q| => q[i].id)
  }

  function Line(s: State, q: Queue): seq<nat> {
    match q
    case NewQueue => Ids(s.arrived)
    case ReadyQueue => Ids(s.ready)
    case BlockedQueue => Ids(s.blocked)
    case SuspendedQueue => Ids(s.suspended)
    case ExitQueue => Ids(s.exit)
  }

  function IdOf(p: Option<Pcb>): seq<nat> {
    if p.Some? then [p.value.id] else []
  }

  function IdIn(m: Mover): seq<nat> {
    if m.Hand? then [m.pcb.id] else []
  }

  /** The process that a step brings to a queue, found where it was: with a console, in a hand, on cpu or device. */
  function Joins(c: Planner, s: State, e: Event, q: Queue): seq<nat>
    requires Enabled(c, s, e)
  {
    match q
    case NewQueue => if e.Arrive? then [s.last + 1] else []
    case ReadyQueue => if e.Insert? then IdIn(s.movers.Get(e.t)) else []
    case BlockedQueue => if e.ReturnIo? then IdOf(s.exec) else []
    case SuspendedQueue => if e.IoDoneSuspended? then IdOf(s.io) else []
    case ExitQueue =>
      if e.RejectNew? then [s.arrived[0].id]
      else if e.ReturnExit? then IdOf(s.exec)
      else if e.IoDoneAstray? then IdOf(s.io)
      else []
  }

  /** The process that a step takes from a queue, found where it is after. */
  function Departs(c: Planner, s: State, e: Event, q: Queue): seq<nat>
    requires Enabled(c, s, e)
  {
    var t := Next(c, s, e);
    match q
    case NewQueue =>
      if e.AdmitNew? then IdIn(t.movers.admission)
      else if e.RejectNew? && t.exit != [] then [t.exit[|t.exit| - 1].id]
      else []
    case ReadyQueue => if e.Dispatch? then IdOf(t.exec) else []
    case BlockedQueue => if e.StartIo? then IdOf(t.io) else []
    case SuspendedQueue => if e.Resume? then IdIn(t.movers.admission) else []
    case ExitQueue => if e.PopExit? && t.exiting.ExitHand? then [t.exiting.pcb.id] else []
  }

  function Joined(c: Planner, s: State, es: seq<Event>, q: Queue): seq<nat>
    requires Possible(c, s, es)
    decreases es
  {
    if |es| == 0 then [] else Joins(c, s, es[0], q) + Joined(c, Next(c, s, es[0]), es[1..], q)
  }

  function Departed(c: Planner, s: State, es: seq<Event>, q: Queue): seq<nat>
    requires Possible(c, s, es)
    decreases es
  {
    if |es| == 0 then [] else Departs(c, s, es[0], q) + Departed(c, Next(c, s, es[0]), es[1..], q)
  }

  // ---------- first in, first out ----------

  /** A line nobody joins or leaves, one that a process joins, and one that its head leaves. */
  lemma LineKept(line: seq<nat>)
    ensures line + [] == [] + line
  {
  }

  lemma LinePushed(q: seq<Pcb>, p: Pcb)
    ensures Ids(q) + [p.id] == [] + Ids(q + [p]) == Ids(q + [p])
  {
  }

  lemma LinePopped(q: seq<Pcb>)
    requires q != []
    ensures Ids(q) + [] == [q[0].id] + Ids(q[1..])
  {
  }

  lemma LineUpdated(q: seq<Pcb>, i: nat, p: Pcb)
    requires i < |q| && p.id == q[i].id
    ensures Ids(q[i := p]) == Ids(q)
  {
  }

  lemma LinesKept(s: State)
    ensures forall q: Queue :: Line(s, q) + [] == [] + Line(s, q)
  {
    forall q: Queue ensures Line(s, q) + [] == [] + Line(s, q) {
      LineKept(Line(s, q));
    }
  }

  /** What one step does to the line of one queue. */
  ghost predicate Served(c: Planner, s: State, e: Event, q: Queue)
    requires Enabled(c, s, e)
  {
    Line(s, q) + Joins(c, s, e, q) == Departs(c, s, e, q) + Line(Next(c, s, e), q)
  }

  lemma QuietServes(c: Planner, s: State, e: Event, q: Queue)
    requires Enabled(c, s, e) && Quiet(e)
    ensures Served(c, s, e, q)
  {
    LinesKept(s);
    QuietMovesNothing(c, s, e);
    hide Ids, Next, Enabled;
  }

  lemma ElsewhereServes(c: Planner, s: State, e: Event, q: Queue)
    requires Enabled(c, s, e)
    requires e.TakeLevel? || e.FindNothing? || e.Finalize? || e.IoDone? || e.SuspendInIo? || e.ReturnPreempted?
    ensures Served(c, s, e, q)
  {
    LinesKept(s);
    hide Ids;
  }

  lemma ArrivalServes(c: Planner, s: State, e: Event, q: Queue)
    requires Enabled(c, s, e) && e.Arrive?
    ensures Served(c, s, e, q)
  {
    LinesKept(s);
    LinePushed(s.arrived, Pcb(s.last + 1, e.burst, New, New));
    hide Ids;
  }

  lemma ReadmissionServes(c: Planner, s: State, e: Event, q: Queue)
    requires Enabled(c, s, e) && e.Resume?
    ensures Served(c, s, e, q)
  {
    LinesKept(s);
    LinePopped(s.suspended);
    hide Ids;
  }

  lemma AdmissionServes(c: Planner, s: State, e: Event, q: Queue)
    requires Enabled(c, s, e) && e.AdmitNew?
    ensures Served(c, s, e, q)
  {
    LinesKept(s);
    LinePopped(s.arrived);
    hide Ids;
  }

  lemma RejectionServes(c: Planner, s: State, e: Event, q: Queue)
    requires Enabled(c, s, e) && e.RejectNew?
    ensures Served(c, s, e, q)
  {
    LinesKept(s);
    LinePopped(s.arrived);
    LinePushed(s.exit, s.arrived[0].(status := Exit));
    hide Ids;
  }

  lemma InsertionServes(c: Planner, s: State, e: Event, q: Queue)
    requires Enabled(c, s, e) && e.Insert? && (q.ReadyQueue? ==> c.algorithm.Fifo?)
    ensures Served(c, s, e, q)
  {
    LinesKept(s);
    LinePushed(s.ready, s.movers.Get(e.t).pcb.(status := Ready));
    hide Ids;
  }

  lemma EndServes(c: Planner, s: State, e: Event, q: Queue)
    requires Enabled(c, s, e) && e.PopExit?
    ensures Served(c, s, e, q)
  {
    LinesKept(s);
    LinePopped(s.exit);
    hide Ids;
  }

  lemma StartServes(c: Planner, s: State, e: Event, q: Queue)
    requires Enabled(c, s, e) && e.StartIo?
    ensures Served(c, s, e, q)
  {
    LinesKept(s);
    LinePopped(s.blocked);
    hide Ids;
  }

  lemma ResumptionServes(c: Planner, s: State, e: Event, q: Queue)
    requires Enabled(c, s, e) && e.IoDoneSuspended?
    ensures Served(c, s, e, q)
  {
    LinesKept(s);
    LinePushed(s.suspended, s.io.value.(status := SuspendedReady));
    hide Ids;
  }

  lemma AstrayServes(c: Planner, s: State, e: Event, q: Queue)
    requires Enabled(c, s, e) && e.IoDoneAstray?
    ensures Served(c, s, e, q)
  {
    LinesKept(s);
    LinePushed(s.exit, s.io.value.(status := Exit));
    hide Ids;
  }

  lemma SuspensionServes(c: Planner, s: State, e: Event, q: Queue)
    requires Enabled(c, s, e) && e.SuspendBlocked?
    ensures Served(c, s, e, q)
  {
    LinesKept(s);
    LineUpdated(s.blocked, e.i, Suspended(s.blocked[e.i]));
    hide Ids;
  }

  lemma DispatchServes(c: Planner, s: State, e: Event, q: Queue)
    requires Enabled(c, s, e) && e.Dispatch?
    ensures Served(c, s, e, q)
  {
    LinesKept(s);
    LinePopped(s.ready);
    hide Ids;
  }

  lemma ExitReturnServes(c: Planner, s: State, e: Event, q: Queue)
    requires Enabled(c, s, e) && e.ReturnExit?
    ensures Served(c, s, e, q)
  {
    LinesKept(s);
    LinePushed(s.exit, Returned(c, s).(status := Exit));
    hide Ids;
  }

  lemma BlockedReturnServes(c: Planner, s: State, e: Event, q: Queue)
    requires Enabled(c, s, e) && e.ReturnIo?
    ensures Served(c, s, e, q)
  {
    LinesKept(s);
    LinePushed(s.blocked, Returned(c, s).(status := Blocked));
    hide Ids;
  }

  lemma StepServes(c: Planner, s: State, e: Event, q: Queue)
    requires Enabled(c, s, e) && (q.ReadyQueue? ==> c.algorithm.Fifo?)
    ensures Served(c, s, e, q)
  {
    hide Enabled, Served;
    match e
    case Arrive(_) => ArrivalServes(c, s, e, q);
    case Resume => ReadmissionServes(c, s, e, q);
    case AdmitNew => AdmissionServes(c, s, e, q);
    case RejectNew => RejectionServes(c, s, e, q);
    case Insert(_) => InsertionServes(c, s, e, q);
    case PopExit => EndServes(c, s, e, q);
    case StartIo => StartServes(c, s, e, q);
    case IoDoneSuspended => ResumptionServes(c, s, e, q);
    case IoDoneAstray => AstrayServes(c, s, e, q);
    case SuspendBlocked(_) => SuspensionServes(c, s, e, q);
    case Dispatch => DispatchServes(c, s, e, q);
    case ReturnExit => ExitReturnServes(c, s, e, q);
    case ReturnIo => BlockedReturnServes(c, s, e, q);
    case _ =>
      if Quiet(e) {
        QuietServes(c, s, e, q);
      } else {
        ElsewhereServes(c, s, e, q);
      }
  }

  /**
   * Over every run, those who waited and those who joined, in that order, are those who left and those who still wait.
   * The ready queue is one of these queues under FIFO.
   */
  lemma {:induction false} FirstInFirstOut(c: Planner, s: State, es: seq<Event>, q: Queue)
    requires Possible(c, s, es) && (q.ReadyQueue? ==> c.algorithm.Fifo?)
    ensures Line(s, q) + Joined(c, s, es, q) == Departed(c, s, es, q) + Line(After(c, s, es), q)
    decreases es
  {
    hide Enabled, Next, Line, Joins, Departs;
    if |es| > 0 {
      var t := Next(c, s, es[0]);
      StepServes(c, s, es[0], q);
      FirstInFirstOut(c, t, es[1..], q);
      var more, less := Joined(c, t, es[1..], q), Departed(c, t, es[1..], q);
      assert Line(s, q) + (Joins(c, s, es[0], q) + more) == (Line(s, q) + Joins(c, s, es[0], q)) + more;
      assert (Departs(c, s, es[0], q) + Line(t, q)) + more == Departs(c, s, es[0], q) + (Line(t, q) + more);
      assert Departs(c, s, es[0], q) + (less + Line(After(c, t, es[1..]), q))
        == (Departs(c, s, es[0], q) + less) + Line(After(c, t, es[1..]), q);
    }
  }

  /** From start-up, the k-th process to leave a queue is the k-th that joined it. */
  lemma ServedInOrder(c: Planner, es: seq<Event>, q: Queue, k: nat)
    requires Possible(c, Initial(c), es) && (q.ReadyQueue? ==> c.algorithm.Fifo?)
    requires k < |Departed(c, Initial(c), es, q)|
    ensures k < |Joined(c, Initial(c), es, q)|
    ensures Departed(c, Initial(c), es, q)[k] == Joined(c, Initial(c), es, q)[k]
  {
    FirstInFirstOut(c, Initial(c), es, q);
    assert Line(Initial(c), q) == [];
    var joined, departed := Joined(c, Initial(c), es, q), Departed(c, Initial(c), es, q);
    assert joined == [] + joined == departed + Line(After(c, Initial(c), es), q);
    hide Joined, Departed, Possible, After, Line;
  }

  // ---------- readmission before admission ----------

  /**
   * In every state and whatever the step, a new process is taken only when none waits for readmission; the
   * head of a queue is the one taken, and it goes to the admission controller's hand or, when it is new, to EXIT.
   */
  lemma SuspendedGoFirst(c: Planner, s: State, e: Event)
    requires Enabled(c, s, e)
    ensures |Next(c, s, e).arrived| < |s.arrived| ==> s.suspended == [] && TakenFrom(s.arrived, Next(c, s, e).arrived)
    ensures |Next(c, s, e).arrived| < |s.arrived| ==>
      || Next(c, s, e).movers.admission == Hand(s.arrived[0])
      || Ids(Next(c, s, e).exit) == Ids(s.exit) + [s.arrived[0].id]
    ensures |Next(c, s, e).suspended| < |s.suspended| ==>
      TakenFrom(s.suspended, Next(c, s, e).suspended) && Next(c, s, e).movers.admission == Hand(s.suspended[0])
  {
    hide Ids;
    if e.RejectNew? {
      LinePushed(s.exit, s.arrived[0].(status := Exit));
    } else if !e.Resume? && !e.AdmitNew? {
      OthersAdmitNone(c, s, e);
      hide Next, Enabled;
    }
  }

  predicate TakenFrom(q: seq<Pcb>, rest: seq<Pcb>) {
    q != [] && rest == q[1..]
  }

  lemma OthersAdmitNone(c: Planner, s: State, e: Event)
    requires Enabled(c, s, e) && !e.Resume? && !e.AdmitNew? && !e.RejectNew?
    ensures |s.arrived| <= |Next(c, s, e).arrived| && |s.suspended| <= |Next(c, s, e).suspended|
  {
    StepServes(c, s, e, NewQueue);
    StepServes(c, s, e, SuspendedQueue);
    hide Next, Enabled;
  }
}
