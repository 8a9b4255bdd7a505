/** What every step of the planner keeps, and what follows in every reachable state. */
module SchedulerInvariant {
  import opened Options
  import opened ReadyOrder
  import opened Scheduler

  function One(b: bool): nat {
    if b then 1 else 0
  }

  // ---------- each process is in one place ----------

  function CountIn(q: seq<Pcb>, id: nat): nat {
    if |q| == 0 then 0 else One(q[0].id == id) + CountIn(q[1..], id)
  }

  function CountOption(p: Option<Pcb>, id: nat): nat {
    One(p.Some? && p.value.id == id)
  }

  function CountHand(m: Mover, id: nat): nat {
    One(m.Hand? && m.pcb.id == id)
  }

  function InHands(ms: Movers, id: nat): nat {
    CountHand(ms.admission, id) + CountHand(ms.unblock, id) + CountHand(ms.ret, id)
  }

  /** In how many places a process is: the five queues, the cpu, the device, the controllers' hands, or finished. */
  function Places(s: State, id: nat): nat {
    CountIn(s.arrived, id) + CountIn(s.ready, id) + CountIn(s.blocked, id) + CountIn(s.suspended, id)
    + CountIn(s.exit, id)
    + CountOption(s.exec, id) + CountOption(s.io, id)
    + InHands(s.movers, id)
    + One(s.exiting.ExitHand? && s.exiting.pcb.id == id) + One(id in s.finished)
  }

  ghost predicate OnePlace(s: State) {
    forall id: nat :: Places(s, id) == One(1 <= id <= s.last)
  }

  // ---------- tokens ----------

  function Signals(s: State): nat {
    One(s.movers.admission.Signalling?) + One(s.movers.unblock.Signalling?) + One(s.movers.ret.Signalling?)
  }

  predicate Sending(m: Mover) {
    m.Signalling? && m.phase == Send
  }

  /** Every queue has exactly the elements that its semaphore, or a thread past it, accounts for. */
  predicate Tokens(s: State) {
    && s.ltpPlan + One(s.ltp != NoToken) == |s.arrived| + |s.suspended|
    && s.ltpExit + One(s.exiting == ExitToken) == |s.exit|
    && s.mtpPlan + One(s.ioc != IoIdle) == |s.blocked|
    && s.stpPlan + One(s.stp == StpToken || s.stp == StpPermit) + Signals(s) == |s.ready|
  }

  /** One process at most uses the device, and one at most the cpu, from dispatch until its return is handled. */
  predicate Exclusion(s: State) {
    && s.mtpIo + One(s.ioc == IoDevice) + One(s.io.Some?) == 1
    && s.stpDispatch + One(s.stp == StpPermit) + One(s.stp == StpSending) + One(s.busy) + One(s.ret != RetIdle) == 1
    && (s.exec.Some? <==> s.stp == StpSending || s.busy || s.ret.RetGot?)
    && (s.ret != RetFlag ==> s.movers.ret.Idle?)
    && (s.ltp != NoToken ==> s.movers.admission.Idle?)
  }

  // ---------- statuses ----------

  ghost predicate All(q: seq<Pcb>, allowed: set<Status>) {
    forall i | 0 <= i < |q| :: q[i].status in allowed
  }

  predicate HandHas(m: Mover, allowed: set<Status>) {
    m.Hand? ==> m.pcb.status in allowed
  }

  ghost predicate Statuses(s: State) {
    && All(s.arrived, {New}) && All(s.ready, {Ready}) && All(s.blocked, {Blocked, SuspendedBlocked})
    && All(s.suspended, {SuspendedReady}) && All(s.exit, {Exit})
    && (s.exec.Some? ==> s.exec.value.status == Exec)
    && (s.io.Some? ==> s.io.value.status in {Blocked, SuspendedBlocked})
    && HandHas(s.movers.admission, {New, SuspendedReady}) && HandHas(s.movers.unblock, {Blocked})
    && HandHas(s.movers.ret, {Exec})
  }

  // ---------- multiprogramming ----------

  function BlockedIn(q: seq<Pcb>): nat {
    if |q| == 0 then 0 else One(q[0].status == Blocked) + BlockedIn(q[1..])
  }

  /** Threads with a process in hand. */
  function Held(ms: Movers): nat {
    One(ms.admission.Hand?) + One(ms.unblock.Hand?) + One(ms.ret.Hand?)
  }

  /** Processes that hold a multiprogramming slot: ready, running, blocked but not suspended, or in a hand. */
  function HoldingSlots(s: State): nat {
    |s.ready| + One(s.exec.Some?) + BlockedIn(s.blocked) + One(s.io.Some? && s.io.value.status == Blocked)
    + One(s.ltp == PlanAndLevel) + Held(s.movers)
  }

  predicate Multiprogramming(c: Planner, s: State) {
    s.level + HoldingSlots(s) == c.grade
  }

  // ---------- the interrupt permit ----------

  predicate Posting(m: Mover) {
    m.Signalling? && m.phase == Post
  }

  /** The permit is free, with a thread about to interrupt, or spent on an interruption not yet acknowledged. */
  predicate Permit(s: State) {
    && s.stpInterrupt + One(s.interrupted)
       + One(Sending(s.movers.admission)) + One(Sending(s.movers.unblock)) + One(Sending(s.movers.ret)) == 1
    && (s.movers.ret.Signalling? ==> s.movers.ret.phase == Check || s.movers.ret.phase == Post)
  }

  /** An interruption not yet acknowledged is followed by a dispatch: one is under way, granted or promised. */
  predicate InterruptAnswered(s: State) {
    s.interrupted ==>
      || s.busy || s.stp != StpIdle || s.stpPlan > 0
      || s.ret.RetGot? || s.ret == RetFlag
      || Posting(s.movers.admission) || Posting(s.movers.unblock) || Posting(s.movers.ret)
  }

  /** Under FIFO nobody looks at the cpu. */
  predicate NoSignals(c: Planner, s: State) {
    c.algorithm.Fifo? ==> Signals(s) == 0 && !s.interrupted
  }

  ghost predicate ReadySorted(c: Planner, s: State) {
    c.algorithm.Srt? ==> Ordered(s.ready)
  }

  ghost predicate Inv(c: Planner, s: State) {
    && OnePlace(s) && Tokens(s) && Exclusion(s) && Statuses(s) && Multiprogramming(c, s)
    && Permit(s) && InterruptAnswered(s) && NoSignals(c, s) && ReadySorted(c, s)
  }

  lemma InitialHolds(c: Planner)
    ensures Inv(c, Initial(c))
  {
  }

  /** The part of the invariant that counts threads and tokens. */
  predicate Counts(c: Planner, s: State) {
    Tokens(s) && Exclusion(s) && Permit(s) && NoSignals(c, s) && InterruptAnswered(s)
  }

  lemma AdmissionCounts(c: Planner, s: State, e: Event)
    requires Counts(c, s) && Enabled(c, s, e)
    requires e.Arrive? || e.TakePlan? || e.TakeLevel? || e.Resume? || e.AdmitNew? || e.RejectNew? || e.FindNothing?
    ensures Counts(c, Next(c, s, e))
  {
    match e
    case Arrive(_) => case TakePlan => case TakeLevel => case Resume =>
    case AdmitNew => case RejectNew => case FindNothing =>
  }

  lemma MovedLength(q: seq<Pcb>, x: Pcb)
    ensures |MovedToReady(q, x)| == |q| + 1
  {
  }

  lemma InsertCounts(c: Planner, s: State, e: Event)
    requires Counts(c, s) && Enabled(c, s, e) && e.Insert?
    ensures Counts(c, Next(c, s, e))
  {
    MovedLength(s.ready, s.movers.Get(e.t).pcb);
    hide MovedToReady;
    match e.t
    case Admission =>
    case Unblock =>
    case Return =>
  }

  lemma LookCounts(c: Planner, s: State, e: Event)
    requires Counts(c, s) && Enabled(c, s, e) && (e.Look?)
    ensures Counts(c, Next(c, s, e))
  {
    match e.t
    case Admission =>
    case Unblock =>
    case Return =>
  }

  lemma TakePermitCounts(c: Planner, s: State, e: Event)
    requires Counts(c, s) && Enabled(c, s, e) && (e.TakePermit?)
    ensures Counts(c, Next(c, s, e))
  {
    match e.t
    case Admission =>
    case Unblock =>
    case Return =>
  }

  lemma InterruptCounts(c: Planner, s: State, e: Event)
    requires Counts(c, s) && Enabled(c, s, e) && (e.Interrupt?)
    ensures Counts(c, Next(c, s, e))
  {
    match e.t
    case Admission =>
    case Unblock =>
    case Return =>
  }

  lemma PostReadyCounts(c: Planner, s: State, e: Event)
    requires Counts(c, s) && Enabled(c, s, e) && (e.PostReady?)
    ensures Counts(c, Next(c, s, e))
  {
    match e.t
    case Admission =>
    case Unblock =>
    case Return =>
  }

  lemma ExitCounts(c: Planner, s: State, e: Event)
    requires Counts(c, s) && Enabled(c, s, e) && (e.TakeExit? || e.PopExit? || e.FindNoExit? || e.Finalize?)
    ensures Counts(c, Next(c, s, e))
  {
    match e
    case TakeExit => case PopExit => case FindNoExit => case Finalize =>
  }

  lemma IoStartCounts(c: Planner, s: State, e: Event)
    requires Counts(c, s) && Enabled(c, s, e) && (e.TakeBlocked? || e.TakeDevice? || e.StartIo?)
    ensures Counts(c, Next(c, s, e))
  {
    match e
    case TakeBlocked => case TakeDevice => case StartIo =>
  }

  lemma IoDoneCounts(c: Planner, s: State, e: Event)
    requires Counts(c, s) && Enabled(c, s, e) && (e.IoDone? || e.IoDoneSuspended? || e.IoDoneAstray?)
    ensures Counts(c, Next(c, s, e))
  {
    match e
    case IoDone => case IoDoneSuspended => case IoDoneAstray =>
  }

  lemma SuspensionCounts(c: Planner, s: State, e: Event)
    requires Counts(c, s) && Enabled(c, s, e) && (e.SuspendBlocked? || e.SuspendInIo?)
    ensures Counts(c, Next(c, s, e))
  {
    match e
    case SuspendBlocked(_) => case SuspendInIo =>
  }

  lemma TakeReadyCounts(c: Planner, s: State, e: Event)
    requires Counts(c, s) && Enabled(c, s, e) && (e.TakeReady? || e.TakeDispatch?)
    ensures Counts(c, Next(c, s, e))
  {
    match e
    case TakeReady => case TakeDispatch =>
  }

  lemma DispatchCounts(c: Planner, s: State, e: Event)
    requires Counts(c, s) && Enabled(c, s, e) && (e.Dispatch? || e.MarkBusy?)
    ensures Counts(c, Next(c, s, e))
  {
    match e
    case Dispatch => case MarkBusy =>
  }

  lemma ReturnExitCounts(c: Planner, s: State, e: Event)
    requires Counts(c, s) && Enabled(c, s, e) && (e.ReturnExit?)
    ensures Counts(c, Next(c, s, e))
  {
  }

  lemma ReturnIoCounts(c: Planner, s: State, e: Event)
    requires Counts(c, s) && Enabled(c, s, e) && (e.ReturnIo?)
    ensures Counts(c, Next(c, s, e))
  {
  }

  lemma PreemptedCounts(c: Planner, s: State, e: Event)
    requires Counts(c, s) && Enabled(c, s, e) && (e.ReturnPreempted?)
    ensures Counts(c, Next(c, s, e))
  {
  }

  lemma CpuReturnsCounts(c: Planner, s: State, e: Event)
    requires Counts(c, s) && Enabled(c, s, e) && (e.CpuReturns?)
    ensures Counts(c, Next(c, s, e))
  {
  }

  lemma ListenerCounts(c: Planner, s: State, e: Event)
    requires Counts(c, s) && Enabled(c, s, e) && (e.ClearInterrupt? || e.PostDispatch?)
    ensures Counts(c, Next(c, s, e))
  {
    match e
    case ClearInterrupt => case PostDispatch =>
  }

  lemma CountsKept(c: Planner, s: State, e: Event)
    requires Counts(c, s) && Enabled(c, s, e)
    ensures Counts(c, Next(c, s, e))
  {
    hide Counts, Enabled, Next;
    match e
    case Arrive(_) => AdmissionCounts(c, s, e);
    case TakePlan => AdmissionCounts(c, s, e);
    case TakeLevel => AdmissionCounts(c, s, e);
    case Resume => AdmissionCounts(c, s, e);
    case AdmitNew => AdmissionCounts(c, s, e);
    case RejectNew => AdmissionCounts(c, s, e);
    case FindNothing => AdmissionCounts(c, s, e);
    case Insert(_) => InsertCounts(c, s, e);
    case Look(_) => LookCounts(c, s, e);
    case TakePermit(_) => TakePermitCounts(c, s, e);
    case Interrupt(_) => InterruptCounts(c, s, e);
    case PostReady(_) => PostReadyCounts(c, s, e);
    case TakeExit => ExitCounts(c, s, e);
    case PopExit => ExitCounts(c, s, e);
    case FindNoExit => ExitCounts(c, s, e);
    case Finalize => ExitCounts(c, s, e);
    case TakeBlocked => IoStartCounts(c, s, e);
    case TakeDevice => IoStartCounts(c, s, e);
    case StartIo => IoStartCounts(c, s, e);
    case IoDone => IoDoneCounts(c, s, e);
    case IoDoneSuspended => IoDoneCounts(c, s, e);
    case IoDoneAstray => IoDoneCounts(c, s, e);
    case SuspendBlocked(_) => SuspensionCounts(c, s, e);
    case SuspendInIo => SuspensionCounts(c, s, e);
    case TakeReady => TakeReadyCounts(c, s, e);
    case TakeDispatch => TakeReadyCounts(c, s, e);
    case Dispatch => DispatchCounts(c, s, e);
    case MarkBusy => DispatchCounts(c, s, e);
    case CpuReturns(_, _) => CpuReturnsCounts(c, s, e);
    case ReturnExit => ReturnExitCounts(c, s, e);
    case ReturnIo => ReturnIoCounts(c, s, e);
    case ReturnPreempted => PreemptedCounts(c, s, e);
    case ClearInterrupt => ListenerCounts(c, s, e);
    case PostDispatch => ListenerCounts(c, s, e);
  }
}
