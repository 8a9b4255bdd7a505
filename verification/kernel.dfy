/**
 * The planner's own queues, semaphores and flags, updated in place by the steps of its threads. Each step is proved to
 * do what module `Scheduler` says on values, so a kernel that runs any schedule stays in a reachable state.
 */
module KernelPlanner {
  import opened Options
  import opened SafeQueue
  import opened ReadyOrder
  import opened Scheduler
  import opened SchedulerRuns

  /** What the listener does with the process that came back, by its condition. */
  function Placed(c: Planner, s: State): State
    requires s.exec.Some? && s.ret.RetGot?
  {
    var p := Returned(c, s);
    var rest := s.(exec := None, ret := RetFlag);
    match s.ret.condition
    case IoSyscall => ToBlocked(rest, p)
    case InterruptedByKernel =>
      if c.algorithm.Srt? then rest.(movers := rest.movers.Set(Return, Hand(p))) else ToExit(rest, p)
    case _ => ToExit(rest, p)
  }

  lemma PlacedIs(c: Planner, s: State, e: Event)
    requires Enabled(c, s, e) && (e.ReturnExit? || e.ReturnIo? || e.ReturnPreempted?)
    ensures s.exec.Some? && s.ret.RetGot? && Tried(c, s, e) == Placed(c, s)
  {
  }

  lemma RejectionIs(c: Planner, s: State)
    requires Enabled(c, s, RejectNew)
    ensures s.arrived != []
    ensures var s1 := ToExit(s.(ltp := NoToken, arrived := s.arrived[1..]), s.arrived[0]);
      Tried(c, s, RejectNew) == s1.(level := s1.level + 1)
  {
  }

  class Kernel {
    const c: Planner
    const arrived: SQueue<Pcb>
    const ready: SQueue<Pcb>
    const blocked: SQueue<Pcb>
    const suspended: SQueue<Pcb>
    const exit: SQueue<Pcb>
    var exec: Option<Pcb>
    var io: Option<Pcb>
    var finished: set<nat>
    var last: nat
    var ltpPlan: nat
    var ltpExit: nat
    var level: nat
    var mtpPlan: nat
    var mtpIo: nat
    var stpPlan: nat
    var stpInterrupt: nat
    var stpDispatch: nat
    var busy: bool
    var interrupted: bool
    var ltp: AdmissionPc
    var exiting: ExitPc
    var ioc: IoPc
    var stp: DispatchPc
    var ret: ReturnPc
    var movers: Movers

    predicate Apart() {
      && arrived != ready && arrived != blocked && arrived != suspended && arrived != exit && ready != blocked
      && ready != suspended && ready != exit && blocked != suspended && blocked != exit && suspended != exit
    }

    function Queues(): set<object> {
      {arrived, ready, blocked, suspended, exit}
    }

    function Now(): State
      reads this, Queues()
    {
      State(arrived.elements, ready.elements, blocked.elements, suspended.elements, exit.elements,
            exec, io, finished, last,
            ltpPlan, ltpExit, level, mtpPlan, mtpIo, stpPlan, stpInterrupt, stpDispatch,
            busy, interrupted, ltp, exiting, ioc, stp, ret, movers)
    }

    constructor (c: Planner)
      ensures this.c == c && Apart() && Now() == Initial(c) && fresh(Queues())
    {
      this.c := c;
      arrived := new SQueue();
      ready := new SQueue();
      blocked := new SQueue();
      suspended := new SQueue();
      exit := new SQueue();
      exec, io, finished, last := None, None, {}, 0;
      ltpPlan, ltpExit, level, mtpPlan, mtpIo := 0, 0, c.grade, 0, 1;
      stpPlan, stpInterrupt, stpDispatch := 0, 1, 1;
      busy, interrupted := false, false;
      ltp, exiting, ioc, stp, ret := NoToken, ExitIdle, IoIdle, StpIdle, RetIdle;
      movers := Movers(Idle, Idle, Idle);
    }

    // ---------- moves between queues ----------

    method MovePcbToNew(burst: int)
      requires Apart()
      modifies this, arrived
      ensures Now() == old(Tried(c, Now(), Arrive(burst)))
    {
      hide MoverStep, ExitStep, DeviceStep, DispatcherStep, ListenerStep;
      last := last + 1;
      arrived.Push(Pcb(last, burst, New, New));
      ltpPlan := ltpPlan + 1;
    }

    method MovePcbToExit(p: Pcb)
      requires Apart()
      modifies this, exit
      ensures Now() == old(ToExit(Now(), p))
    {
      if p.status == Exec || p.status == Ready || p.status == Blocked {
        level := level + 1;
      }
      exit.Push(p.(status := Exit));
      ltpExit := ltpExit + 1;
    }

    method MovePcbToBlocked(p: Pcb)
      requires Apart()
      modifies this, blocked
      ensures Now() == old(ToBlocked(Now(), p))
    {
      blocked.Push(p.(status := Blocked));
      mtpPlan := mtpPlan + 1;
    }

    method MovePcbToSuspendedReady(p: Pcb)
      requires Apart()
      modifies this, suspended
      ensures Now() == old(ToSuspendedReady(Now(), p))
    {
      suspended.Push(p.(status := SuspendedReady));
      ltpPlan := ltpPlan + 1;
    }

    /** Inserts in order under SRT, at the end under FIFO. */
    method MovePcbToReady(t: Thread, p: Pcb)
      requires Apart()
      modifies this, ready
      ensures Now() == old(Inserting(c, Now(), t, p))
    {
      if c.algorithm == Fifo {
        ready.Push(p.(status := Ready));
        stpPlan := stpPlan + 1;
        movers := movers.Set(t, Idle);
      } else {
        var k := ready.InsertInOrder(p, CompareReady);
        ready.Update(k, Readied(p));
        movers := movers.Set(t, Signalling(p.id, Check));
      }
    }

    // ---------- the threads ----------

    /** The admission controller: two waits, and then suspended processes before new ones. */
    method WaitToAdmit(e: Event)
      requires Apart() && Enabled(c, Now(), e) && (e.TakePlan? || e.TakeLevel?)
      modifies this
      ensures Now() == old(Tried(c, Now(), e))
    {
      hide MoverStep, ExitStep, DeviceStep, DispatcherStep, ListenerStep;
      if e.TakePlan? {
        ltpPlan, ltp := ltpPlan - 1, PlanToken;
      } else {
        level, ltp := level - 1, PlanAndLevel;
      }
    }

    method Admit(e: Event)
      requires Apart() && Enabled(c, Now(), e) && (e.Resume? || e.AdmitNew? || e.FindNothing?)
      modifies this, arrived, suspended
      ensures Now() == old(Tried(c, Now(), e))
    {
      hide MoverStep, ExitStep, DeviceStep, DispatcherStep, ListenerStep;
      ltp := NoToken;
      if suspended.elements != [] {
        var p := suspended.Pop();
        movers := movers.Set(Admission, Hand(p.value));
      } else if arrived.elements != [] {
        var p := arrived.Pop();
        movers := movers.Set(Admission, Hand(p.value));
      }
    }

    /** The memory process could not create the page tables of a new process. */
    method Reject(e: Event)
      requires Apart() && Enabled(c, Now(), e) && e.RejectNew?
      modifies this, Queues()
      ensures Now() == old(Tried(c, Now(), e))
    {
      assert Tried(c, Now(), e) == AdmissionStep(c, Now(), e);
      RejectionIs(c, Now());
      hide Tried, Enabled, ToExit;
      var p := arrived.Pop();
      ltp := NoToken;
      MovePcbToExit(p.value);
      level := level + 1;
    }

    /** Under SRT, after the insertion: the thread looks at the cpu and waits for the permit if it must interrupt. */
    method Preempt(e: Event)
      requires Enabled(c, Now(), e) && (e.Look? || e.TakePermit?)
      modifies this
      ensures Now() == old(Tried(c, Now(), e))
    {
      hide AdmissionStep, ExitStep, DeviceStep, DispatcherStep, ListenerStep;
      var id := movers.Get(e.t).id;
      if e.Look? {
        var running := exec.Some? && exec.value.id == id;
        movers := movers.Set(e.t, Signalling(id, if busy && !running then Wait else Post));
      } else {
        stpInterrupt := stpInterrupt - 1;
        movers := movers.Set(e.t, Signalling(id, Send));
      }
    }

    /** Then it interrupts, and in any case posts the ready token. */
    method Signal(e: Event)
      requires Enabled(c, Now(), e) && (e.Interrupt? || e.PostReady?)
      modifies this
      ensures Now() == old(Tried(c, Now(), e))
    {
      hide AdmissionStep, ExitStep, DeviceStep, DispatcherStep, ListenerStep;
      if e.Interrupt? {
        interrupted := true;
        movers := movers.Set(e.t, Signalling(movers.Get(e.t).id, Post));
      } else {
        stpPlan := stpPlan + 1;
        movers := movers.Set(e.t, Idle);
      }
    }

    /** The exit controller takes a process out of the queue, when there is one. */
    method TakeExited(e: Event)
      requires Apart() && Enabled(c, Now(), e) && (e.TakeExit? || e.PopExit? || e.FindNoExit?)
      modifies this, exit
      ensures Now() == old(Tried(c, Now(), e))
    {
      hide AdmissionStep, MoverStep, DeviceStep, DispatcherStep, ListenerStep;
      if e.TakeExit? {
        ltpExit, exiting := ltpExit - 1, ExitToken;
      } else {
        var p := exit.Pop();
        exiting := if p.Some? then ExitHand(p.value) else ExitIdle;
      }
    }

    method Finish(e: Event)
      requires Apart() && Enabled(c, Now(), e) && e.Finalize?
      modifies this
      ensures Now() == old(Tried(c, Now(), e))
    {
      hide AdmissionStep, MoverStep, DeviceStep, DispatcherStep, ListenerStep;
      finished, exiting := finished + {exiting.pcb.id}, ExitIdle;
    }

    /** The blocked controller: two waits, and then the head of the queue goes to the device. */
    method WaitToBlock(e: Event)
      requires Apart() && Enabled(c, Now(), e) && (e.TakeBlocked? || e.TakeDevice?)
      modifies this
      ensures Now() == old(Tried(c, Now(), e))
    {
      assert Tried(c, Now(), e) == DeviceStep(c, Now(), e);
      hide Tried, AdmissionStep, MoverStep, ExitStep, DispatcherStep, ListenerStep;
      if e.TakeBlocked? {
        mtpPlan, ioc := mtpPlan - 1, IoToken;
      } else {
        mtpIo, ioc := mtpIo - 1, IoDevice;
      }
    }

    method Block(e: Event)
      requires Apart() && Enabled(c, Now(), e) && e.StartIo?
      modifies this, blocked
      ensures Now() == old(Tried(c, Now(), e))
    {
      assert Tried(c, Now(), e) == DeviceStep(c, Now(), e);
      hide Tried, AdmissionStep, MoverStep, ExitStep, DispatcherStep, ListenerStep;
      io := blocked.Pop();
      ioc := IoIdle;
    }

    /** The callback of the input/output timer: the device is free, and the process goes where its status says. */
    method Unblock()
      requires Apart() && io.Some?
      modifies this, Queues()
      ensures var s, p := old(Now().(io := None, mtpIo := mtpIo + 1)), old(io.value);
        Now() == match p.status
          case Blocked => s.(movers := s.movers.Set(Thread.Unblock, Hand(p)))
          case SuspendedBlocked => ToSuspendedReady(s, p)
          case _ => ToExit(s, p)
    {
      hide ToExit, ToSuspendedReady, Movers.Set;
      var p := io.value;
      io := None;
      mtpIo := mtpIo + 1;
      match p.status {
        case Blocked =>
          movers := movers.Set(Thread.Unblock, Hand(p));
        case SuspendedBlocked =>
          MovePcbToSuspendedReady(p);
        case _ =>
          MovePcbToExit(p);
      }
    }

    method IoTimer(e: Event)
      requires Apart() && Enabled(c, Now(), e) && (e.IoDone? || e.IoDoneSuspended? || e.IoDoneAstray?)
      modifies this, Queues()
      ensures Now() == old(Tried(c, Now(), e))
    {
      hide AdmissionStep, MoverStep, ExitStep, DispatcherStep, ListenerStep;
      Unblock();
    }

    /** The callback of the suspension timer. */
    method Suspend(e: Event)
      requires Apart() && Enabled(c, Now(), e) && (e.SuspendBlocked? || e.SuspendInIo?)
      modifies this, blocked
      ensures Now() == old(Tried(c, Now(), e))
    {
      assert Tried(c, Now(), e) == DeviceStep(c, Now(), e);
      hide Tried, AdmissionStep, MoverStep, ExitStep, DispatcherStep, ListenerStep;
      var p := if e.SuspendBlocked? then blocked.elements[e.i] else io.value;
      if p.status != Blocked {
        assert e.SuspendBlocked? ==> blocked.elements[e.i := p] == blocked.elements;
        return;
      }
      if e.SuspendBlocked? {
        blocked.Update(e.i, p.(status := SuspendedBlocked));
      } else {
        io := Some(p.(status := SuspendedBlocked));
      }
      level := level + 1;
    }

    /** The short-term controller: two waits, and then the head of the ready queue goes to the cpu. */
    method WaitToDispatch(e: Event)
      requires Apart() && Enabled(c, Now(), e) && (e.TakeReady? || e.TakeDispatch?)
      modifies this
      ensures Now() == old(Tried(c, Now(), e))
    {
      assert Tried(c, Now(), e) == DispatcherStep(c, Now(), e);
      hide Tried, AdmissionStep, MoverStep, ExitStep, DeviceStep, ListenerStep;
      if e.TakeReady? {
        stpPlan, stp := stpPlan - 1, StpToken;
      } else {
        stpDispatch, stp := stpDispatch - 1, StpPermit;
      }
    }

    method DispatchNext(e: Event)
      requires Apart() && Enabled(c, Now(), e) && (e.Dispatch? || e.MarkBusy?)
      modifies this, ready
      ensures Now() == old(Tried(c, Now(), e))
    {
      hide AdmissionStep, MoverStep, ExitStep, DeviceStep, ListenerStep;
      if e.Dispatch? {
        MovePcbToExec();
        stp := StpSending;
      } else {
        busy, stp := true, StpIdle;
      }
    }

    method MovePcbToExec()
      requires Apart() && ready.elements != []
      modifies this, ready
      ensures Now() == old(Now().(ready := ready.elements[1..], exec := Some(ready.elements[0].(status := Exec))))
    {
      var p := ready.Pop();
      exec := Some(p.value.(status := Exec));
    }

    /** The listener of the dispatch socket: a process is back. */
    method Listen(e: Event)
      requires Apart() && Enabled(c, Now(), e) && e.CpuReturns?
      modifies this
      ensures Now() == old(Tried(c, Now(), e))
    {
      hide AdmissionStep, MoverStep, ExitStep, DeviceStep, DispatcherStep;
      busy, ret := false, RetGot(e.condition, e.burst);
    }

    /** Where the process that came back goes: its condition says, and only SRT expects it interrupted. */
    method Place()
      requires Apart() && exec.Some? && ret.RetGot?
      modifies this, Queues()
      ensures Now() == old(Placed(c, Now()))
    {
      var condition := ret.condition;
      var p := TakeReturned();
      match condition {
        case IoSyscall =>
          MovePcbToBlocked(p);
        case InterruptedByKernel =>
          if c.algorithm == Srt {
            movers := movers.Set(Return, Hand(p));
          } else {
            MovePcbToExit(p);
          }
        case _ =>
          MovePcbToExit(p);
      }
    }

    method Receive(e: Event)
      requires Apart() && Enabled(c, Now(), e) && (e.ReturnExit? || e.ReturnIo? || e.ReturnPreempted?)
      modifies this, Queues()
      ensures Now() == old(Tried(c, Now(), e))
    {
      PlacedIs(c, Now(), e);
      hide Tried, Enabled, Placed;
      Place();
    }

    /** Under SRT an interruption is acknowledged once its process has gone. */
    method Acknowledge(e: Event)
      requires Apart() && Enabled(c, Now(), e) && e.ClearInterrupt?
      modifies this
      ensures Now() == old(Tried(c, Now(), e))
    {
      assert Tried(c, Now(), e) == ListenerStep(c, Now(), e);
      hide Tried, AdmissionStep, MoverStep, ExitStep, DeviceStep, DispatcherStep;
      if c.algorithm == Srt && interrupted {
        interrupted := false;
        stpInterrupt := stpInterrupt + 1;
      }
      ret := RetPost;
    }

    /** And then the cpu may be given another process. */
    method Release(e: Event)
      requires Apart() && Enabled(c, Now(), e) && e.PostDispatch?
      modifies this
      ensures Now() == old(Tried(c, Now(), e))
    {
      hide AdmissionStep, MoverStep, ExitStep, DeviceStep, DispatcherStep;
      stpDispatch, ret := stpDispatch + 1, RetIdle;
    }

    method TakeReturned() returns (p: Pcb)
      requires exec.Some? && ret.RetGot?
      modifies this
      ensures p == old(Returned(c, Now())) && Now() == old(Now().(exec := None, ret := RetFlag))
    {
      p := exec.value;
      if c.algorithm == Srt {
        p := p.(burst := ret.burst);
      }
      exec, ret := None, RetFlag;
    }

    /** A step of whichever thread it belongs to, unless that thread must wait. */
    method Step(e: Event)
      requires Apart()
      modifies this, Queues()
      ensures Now() == old(Tried(c, Now(), e))
    {
      if !Enabled(c, Now(), e) {
        return;
      }
      hide Tried, Enabled;
      match e
      case Arrive(burst) => MovePcbToNew(burst);
      case TakePlan => WaitToAdmit(e);
      case TakeLevel => WaitToAdmit(e);
      case Resume => Admit(e);
      case AdmitNew => Admit(e);
      case RejectNew => Reject(e);
      case FindNothing => Admit(e);
      case Insert(t) => Insert(t);
      case Look(_) => Preempt(e);
      case TakePermit(_) => Preempt(e);
      case Interrupt(_) => Signal(e);
      case PostReady(_) => Signal(e);
      case TakeExit => TakeExited(e);
      case PopExit => TakeExited(e);
      case FindNoExit => TakeExited(e);
      case Finalize => Finish(e);
      case TakeBlocked => WaitToBlock(e);
      case TakeDevice => WaitToBlock(e);
      case StartIo => Block(e);
      case IoDone => IoTimer(e);
      case IoDoneSuspended => IoTimer(e);
      case IoDoneAstray => IoTimer(e);
      case SuspendBlocked(_) => Suspend(e);
      case SuspendInIo => Suspend(e);
      case TakeReady => WaitToDispatch(e);
      case TakeDispatch => WaitToDispatch(e);
      case Dispatch => DispatchNext(e);
      case MarkBusy => DispatchNext(e);
      case CpuReturns(_, _) => Listen(e);
      case ReturnExit => Receive(e);
      case ReturnIo => Receive(e);
      case ReturnPreempted => Receive(e);
      case ClearInterrupt => Acknowledge(e);
      case PostDispatch => Release(e);
    }

    method Insert(t: Thread)
      requires Apart() && Enabled(c, Now(), Event.Insert(t))
      modifies this, Queues()
      ensures Now() == old(Tried(c, Now(), Event.Insert(t)))
    {
      MovePcbToReady(t, movers.Get(t).pcb);
    }
  }

  lemma StartIsReachable(c: Planner)
    ensures Reachable(c, Initial(c))
  {
    hide Initial;
    assert Possible(c, Initial(c), []) && After(c, Initial(c), []) == Initial(c);
  }

  /** A kernel that tries the steps of any schedule, from start-up, ends in a reachable state. */
  method RunSchedule(c: Planner, schedule: seq<Event>) returns (kernel: Kernel)
    ensures kernel.c == c && Reachable(c, kernel.Now())
  {
    hide Reachable, Initial, Tried;
    kernel := new Kernel(c);
    StartIsReachable(c);
    for i := 0 to |schedule|
      invariant kernel.c == c && kernel.Apart() && fresh(kernel) && fresh(kernel.Queues())
      invariant Reachable(c, kernel.Now())
    {
      ReachableNext(c, kernel.Now(), schedule[i]);
      kernel.Step(schedule[i]);
    }
  }
}
