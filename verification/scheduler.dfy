/**
 * The kernel's three-level planner as a state machine. A state has the queues, the semaphores, the two cpu flags and
 * where every thread is; an event is one step of one thread, of a timer, of the cpu or of a console.
 */
module Scheduler {
  import opened DispatchConditions
  import opened Options
  import opened ReadyOrder

  datatype Algorithm = Fifo | Srt

  datatype Planner = Planner(algorithm: Algorithm, grade: nat)

  // ---------- threads ----------

  /** The three threads that move processes to READY: admission, the input/output callback and the dispatch listener. */
  datatype Thread = Admission | Unblock | Return

  /** After the insertion, under SRT: looking at the cpu, waiting for the permit, about to interrupt, about to post. */
  datatype Phase = Check | Wait | Send | Post

  datatype Mover = Idle | Hand(pcb: Pcb) | Signalling(id: nat, phase: Phase)

  datatype Movers = Movers(admission: Mover, unblock: Mover, ret: Mover) {

    function Get(t: Thread): Mover {
      match t
      case Admission => admission
      case Unblock => unblock
      case Return => ret
    }

    function Set(t: Thread, m: Mover): Movers {
      match t
      case Admission => this.(admission := m)
      case Unblock => this.(unblock := m)
      case Return => this.(ret := m)
    }
  }

  /** The admission controller: between its two waits, or with both taken. */
  datatype AdmissionPc = NoToken | PlanToken | PlanAndLevel

  datatype ExitPc = ExitIdle | ExitToken | ExitHand(pcb: Pcb)

  datatype IoPc = IoIdle | IoToken | IoDevice

  datatype DispatchPc = StpIdle | StpToken | StpPermit | StpSending

  /** The listener: a process just returned; left to look at the interrupt flag; left to post the dispatch semaphore. */
  datatype ReturnPc = RetIdle | RetGot(condition: Condition, burst: int) | RetFlag | RetPost

  // ---------- state ----------

  datatype State = State(
    arrived: seq<Pcb>, ready: seq<Pcb>, blocked: seq<Pcb>, suspended: seq<Pcb>, exit: seq<Pcb>,
    exec: Option<Pcb>, io: Option<Pcb>, finished: set<nat>, last: nat,
    ltpPlan: nat, ltpExit: nat, level: nat, mtpPlan: nat, mtpIo: nat, stpPlan: nat, stpInterrupt: nat, stpDispatch: nat,
    busy: bool, interrupted: bool,
    ltp: AdmissionPc, exiting: ExitPc, ioc: IoPc, stp: DispatchPc, ret: ReturnPc, movers: Movers)

  function Initial(c: Planner): State {
    State([], [], [], [], [], None, None, {}, 0,
          0, 0, c.grade, 0, 1, 0, 1, 1,
          false, false,
          NoToken, ExitIdle, IoIdle, StpIdle, RetIdle, Movers(Idle, Idle, Idle))
  }

  // ---------- events ----------

  datatype Event =
    | Arrive(burst: int)
    | TakePlan | TakeLevel | Resume | AdmitNew | RejectNew | FindNothing
    | Insert(t: Thread) | Look(t: Thread) | TakePermit(t: Thread) | Interrupt(t: Thread) | PostReady(t: Thread)
    | TakeExit | PopExit | FindNoExit | Finalize
    | TakeBlocked | TakeDevice | StartIo
    | IoDone | IoDoneSuspended | IoDoneAstray | SuspendBlocked(i: nat) | SuspendInIo
    | TakeReady | TakeDispatch | Dispatch | MarkBusy
    | CpuReturns(condition: Condition, burst: int) | ReturnExit | ReturnIo | ReturnPreempted
    | ClearInterrupt | PostDispatch

  predicate Enabled(c: Planner, s: State, e: Event) {
    match e
    case Arrive(_) => true
    case TakePlan => s.ltp == NoToken && s.movers.admission.Idle? && s.ltpPlan > 0
    case TakeLevel => s.ltp == PlanToken && s.level > 0
    case Resume => s.ltp == PlanAndLevel && s.suspended != []
    case AdmitNew => s.ltp == PlanAndLevel && s.suspended == [] && s.arrived != []
    case RejectNew => s.ltp == PlanAndLevel && s.suspended == [] && s.arrived != []
    case FindNothing => s.ltp == PlanAndLevel && s.suspended == [] && s.arrived == []
    case Insert(t) => s.movers.Get(t).Hand?
    case Look(t) => s.movers.Get(t).Signalling? && s.movers.Get(t).phase == Check
    case TakePermit(t) => s.movers.Get(t).Signalling? && s.movers.Get(t).phase == Wait && s.stpInterrupt > 0
    case Interrupt(t) => s.movers.Get(t).Signalling? && s.movers.Get(t).phase == Send
    case PostReady(t) => s.movers.Get(t).Signalling? && s.movers.Get(t).phase == Post
    case TakeExit => s.exiting == ExitIdle && s.ltpExit > 0
    case PopExit => s.exiting == ExitToken && s.exit != []
    case FindNoExit => s.exiting == ExitToken && s.exit == []
    case Finalize => s.exiting.ExitHand?
    case TakeBlocked => s.ioc == IoIdle && s.mtpPlan > 0
    case TakeDevice => s.ioc == IoToken && s.mtpIo > 0
    case StartIo => s.ioc == IoDevice && s.blocked != []
    case IoDone => s.io.Some? && s.io.value.status == Blocked && s.movers.unblock.Idle?
    case IoDoneSuspended => s.io.Some? && s.io.value.status == SuspendedBlocked && s.movers.unblock.Idle?
    case IoDoneAstray => s.io.Some? && s.io.value.status !in {Blocked, SuspendedBlocked} && s.movers.unblock.Idle?
    case SuspendBlocked(i) => i < |s.blocked| && s.movers.unblock.Idle?
    case SuspendInIo => s.io.Some? && s.movers.unblock.Idle?
    case TakeReady => s.stp == StpIdle && s.stpPlan > 0
    case TakeDispatch => s.stp == StpToken && s.stpDispatch > 0
    case Dispatch => s.stp == StpPermit && s.ready != []
    case MarkBusy => s.stp == StpSending
    case CpuReturns(_, _) => s.busy && s.ret == RetIdle
    case ReturnExit =>
      s.ret.RetGot? && s.exec.Some? && (s.ret.condition in {ExitProgram, NullCondition} || UnexpectedPreemption(c, s))
    case ReturnIo => s.ret.RetGot? && s.exec.Some? && s.ret.condition == IoSyscall
    case ReturnPreempted => s.ret.RetGot? && s.exec.Some? && s.ret.condition == InterruptedByKernel && c.algorithm.Srt?
    case ClearInterrupt => s.ret == RetFlag && s.movers.ret.Idle?
    case PostDispatch => s.ret == RetPost
  }

  /** Only SRT expects an interrupted process back. */
  predicate UnexpectedPreemption(c: Planner, s: State) {
    s.ret.RetGot? && s.ret.condition == InterruptedByKernel && c.algorithm.Fifo?
  }

  /** Move to EXIT, giving the multiprogramming slot back when the process held one. */
  function ToExit(s: State, p: Pcb): State {
    s.(level := s.level + if p.status == Exec || p.status == Ready || p.status == Blocked then 1 else 0,
       exit := s.exit + [p.(status := Exit)],
       ltpExit := s.ltpExit + 1)
  }

  function ToBlocked(s: State, p: Pcb): State {
    s.(blocked := s.blocked + [p.(status := Blocked)], mtpPlan := s.mtpPlan + 1)
  }

  function ToSuspendedReady(s: State, p: Pcb): State {
    s.(suspended := s.suspended + [p.(status := SuspendedReady)], ltpPlan := s.ltpPlan + 1)
  }

  /** The suspension callback on a process that is BLOCKED; on any other it only warns. */
  function Suspended(p: Pcb): Pcb {
    if p.status == Blocked then p.(status := SuspendedBlocked) else p
  }

  function SlotFreed(p: Pcb): nat {
    if p.status == Blocked then 1 else 0
  }

  function Inserting(c: Planner, s: State, t: Thread, p: Pcb): State {
    if c.algorithm.Fifo? then
      s.(ready := s.ready + [p.(status := Ready)], stpPlan := s.stpPlan + 1, movers := s.movers.Set(t, Idle))
    else
      s.(ready := MovedToReady(s.ready, p), movers := s.movers.Set(t, Signalling(p.id, Check)))
  }

  /** The thread interrupts a busy cpu, unless the process it moved is already the one running. */
  function Looking(s: State, t: Thread, id: nat): State {
    var running := s.exec.Some? && s.exec.value.id == id;
    s.(movers := s.movers.Set(t, Signalling(id, if s.busy && !running then Wait else Post)))
  }

  /** The process the cpu returned, with its next estimate when the planner keeps one. */
  function Returned(c: Planner, s: State): Pcb
    requires s.exec.Some? && s.ret.RetGot?
  {
    if c.algorithm.Srt? then s.exec.value.(burst := s.ret.burst) else s.exec.value
  }

  /** Steps of the admission controller, and arrivals. */
  predicate ByAdmission(e: Event) {
    e.Arrive? || e.TakePlan? || e.TakeLevel? || e.Resume? || e.AdmitNew? || e.RejectNew? || e.FindNothing?
  }

  function AdmissionStep(c: Planner, s: State, e: Event): State
    requires Enabled(c, s, e) && ByAdmission(e)
  {
    match e
    case Arrive(burst) =>
      s.(last := s.last + 1, arrived := s.arrived + [Pcb(s.last + 1, burst, New, New)], ltpPlan := s.ltpPlan + 1)
    case TakePlan => s.(ltpPlan := s.ltpPlan - 1, ltp := PlanToken)
    case TakeLevel => s.(level := s.level - 1, ltp := PlanAndLevel)
    case Resume =>
      s.(ltp := NoToken, suspended := s.suspended[1..], movers := s.movers.Set(Admission, Hand(s.suspended[0])))
    case AdmitNew =>
      s.(ltp := NoToken, arrived := s.arrived[1..], movers := s.movers.Set(Admission, Hand(s.arrived[0])))
    case RejectNew =>
      var s1 := ToExit(s.(ltp := NoToken, arrived := s.arrived[1..]), s.arrived[0]);
      s1.(level := s1.level + 1)
    case FindNothing => s.(ltp := NoToken)
  }

  /** Steps of a move to READY. */
  predicate ByMover(e: Event) {
    e.Insert? || e.Look? || e.TakePermit? || e.Interrupt? || e.PostReady?
  }

  function MoverStep(c: Planner, s: State, e: Event): State
    requires Enabled(c, s, e) && ByMover(e)
  {
    match e
    case Insert(t) => Inserting(c, s, t, s.movers.Get(t).pcb)
    case Look(t) => Looking(s, t, s.movers.Get(t).id)
    case TakePermit(t) =>
      s.(stpInterrupt := s.stpInterrupt - 1, movers := s.movers.Set(t, Signalling(s.movers.Get(t).id, Send)))
    case Interrupt(t) => s.(interrupted := true, movers := s.movers.Set(t, Signalling(s.movers.Get(t).id, Post)))
    case PostReady(t) => s.(stpPlan := s.stpPlan + 1, movers := s.movers.Set(t, Idle))
  }

  /** Steps of the exit controller. */
  predicate ByExit(e: Event) {
    e.TakeExit? || e.PopExit? || e.FindNoExit? || e.Finalize?
  }

  function ExitStep(c: Planner, s: State, e: Event): State
    requires Enabled(c, s, e) && ByExit(e)
  {
    match e
    case TakeExit => s.(ltpExit := s.ltpExit - 1, exiting := ExitToken)
    case PopExit => s.(exit := s.exit[1..], exiting := ExitHand(s.exit[0]))
    case FindNoExit => s.(exiting := ExitIdle)
    case Finalize => s.(finished := s.finished + {s.exiting.pcb.id}, exiting := ExitIdle)
  }

  /** Steps of the blocked controller and of the timers. */
  predicate ByDevice(e: Event) {
    || e.TakeBlocked? || e.TakeDevice? || e.StartIo? || e.IoDone? || e.IoDoneSuspended? || e.IoDoneAstray?
    || e.SuspendBlocked? || e.SuspendInIo?
  }

  function DeviceStep(c: Planner, s: State, e: Event): State
    requires Enabled(c, s, e) && ByDevice(e)
  {
    match e
    case TakeBlocked => s.(mtpPlan := s.mtpPlan - 1, ioc := IoToken)
    case TakeDevice => s.(mtpIo := s.mtpIo - 1, ioc := IoDevice)
    case StartIo => s.(ioc := IoIdle, blocked := s.blocked[1..], io := Some(s.blocked[0]))
    case IoDone => s.(io := None, mtpIo := s.mtpIo + 1, movers := s.movers.Set(Unblock, Hand(s.io.value)))
    case IoDoneSuspended => ToSuspendedReady(s.(io := None, mtpIo := s.mtpIo + 1), s.io.value)
    case IoDoneAstray => ToExit(s.(io := None, mtpIo := s.mtpIo + 1), s.io.value)
    case SuspendBlocked(i) =>
      s.(blocked := s.blocked[i := Suspended(s.blocked[i])], level := s.level + SlotFreed(s.blocked[i]))
    case SuspendInIo => s.(io := Some(Suspended(s.io.value)), level := s.level + SlotFreed(s.io.value))
  }

  /** Steps of the short-term controller. */
  predicate ByDispatcher(e: Event) {
    e.TakeReady? || e.TakeDispatch? || e.Dispatch? || e.MarkBusy?
  }

  function DispatcherStep(c: Planner, s: State, e: Event): State
    requires Enabled(c, s, e) && ByDispatcher(e)
  {
    match e
    case TakeReady => s.(stpPlan := s.stpPlan - 1, stp := StpToken)
    case TakeDispatch => s.(stpDispatch := s.stpDispatch - 1, stp := StpPermit)
    case Dispatch => s.(stp := StpSending, ready := s.ready[1..], exec := Some(s.ready[0].(status := Exec)))
    case MarkBusy => s.(busy := true, stp := StpIdle)
  }

  /** Steps of the dispatch listener, and returns of the cpu. */
  predicate ByListener(e: Event) {
    e.CpuReturns? || e.ReturnExit? || e.ReturnIo? || e.ReturnPreempted? || e.ClearInterrupt? || e.PostDispatch?
  }

  function ListenerStep(c: Planner, s: State, e: Event): State
    requires Enabled(c, s, e) && ByListener(e)
  {
    match e
    case CpuReturns(condition, burst) => s.(busy := false, ret := RetGot(condition, burst))
    case ReturnExit => ToExit(s.(exec := None, ret := RetFlag), Returned(c, s))
    case ReturnIo => ToBlocked(s.(exec := None, ret := RetFlag), Returned(c, s))
    case ReturnPreempted => s.(exec := None, ret := RetFlag, movers := s.movers.Set(Return, Hand(Returned(c, s))))
    case ClearInterrupt =>
      if c.algorithm.Srt? && s.interrupted then
        s.(interrupted := false, stpInterrupt := s.stpInterrupt + 1, ret := RetPost)
      else s.(ret := RetPost)
    case PostDispatch => s.(stpDispatch := s.stpDispatch + 1, ret := RetIdle)
  }

  function Next(c: Planner, s: State, e: Event): State
    requires Enabled(c, s, e)
  {
    if ByAdmission(e) then AdmissionStep(c, s, e)
    else if ByMover(e) then MoverStep(c, s, e)
    else if ByExit(e) then ExitStep(c, s, e)
    else if ByDevice(e) then DeviceStep(c, s, e)
    else if ByDispatcher(e) then DispatcherStep(c, s, e)
    else ListenerStep(c, s, e)
  }

  /** A step that a thread tries: nothing changes when it must wait. */
  function Tried(c: Planner, s: State, e: Event): State {
    if Enabled(c, s, e) then Next(c, s, e) else s
  }
}
