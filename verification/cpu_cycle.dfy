/** The cpu's instruction cycle, sliced by interruptions and input/output, and the program it runs in the end. */
module CpuCycle {
  import opened DispatchConditions

  datatype Instruction =
    | NoOp
    | Io(burst: int)
    | ReadMemory(address: nat)
    | WriteMemory(address: nat, value: int)
    | Copy(to: nat, from: nat)
    | ExitProcess
    | Unknown

  /**
   * What happens outside the cycle. The interrupt flag is read twice for an instruction, when it is executed and when
   * the loop is left or not: `early` says that an interruption has come by the first read of the process's n-th
   * instruction, `late` that one comes between the two.
   */
  datatype Surroundings = Surroundings(early: nat -> bool, late: nat -> bool, unreadable: nat -> bool)

  /** The operand of this instruction cannot be read, so it is not executed. */
  predicate Fails(unreadable: nat -> bool, i: Instruction) {
    i.Copy? && unreadable(i.from)
  }

  // ---------- one dispatch ----------

  /** One stay in the cpu: the indices executed, where the program stopped, why, and the last input/output burst. */
  datatype Slice = Slice(executed: seq<nat>, counter: nat, condition: Condition, burst: int)

  /** An EXIT is still ahead, so the cycle does not run past the instructions. */
  ghost predicate Ends(program: seq<Instruction>, counter: nat) {
    exists e :: counter <= e < |program| && program[e].ExitProcess?
  }

  class Pcb {
    const program: seq<Instruction>
    var counter: nat
    var condition: Condition
    var burst: int

    constructor (program: seq<Instruction>)
      ensures this.program == program && counter == 0 && condition == NullCondition && burst == 0
    {
      this.program := program;
      counter, condition, burst := 0, NullCondition, 0;
    }
  }

  /** What an instruction does to the stay: it fails, it ends it with a condition and a burst, or the stay goes on. */
  datatype Outcome = Failed | Left(condition: Condition, burst: int) | Stays

  /** Input/output and EXIT win over an interruption; one that execution missed leaves no condition. */
  function OutcomeOf(i: Instruction, w: Surroundings, clock: nat, condition: Condition, burst: int): Outcome {
    if Fails(w.unreadable, i) then Failed
    else if i.Io? then Left(IoSyscall, i.burst)
    else if i.ExitProcess? then Left(ExitProgram, burst)
    else if w.early(clock) && !i.Unknown? then Left(InterruptedByKernel, burst)
    else if w.early(clock) || w.late(clock) then Left(condition, burst)
    else Stays
  }

  /** What the stay does from a counter on, before the `clock`-th instruction of the process. */
  function Stay(program: seq<Instruction>, counter: nat, w: Surroundings, clock: nat,
                condition: Condition, burst: int): (s: Slice)
    requires Ends(program, counter)
    ensures counter < s.counter <= |program|
    decreases |program| - counter
  {
    match OutcomeOf(program[counter], w, clock, condition, burst)
    case Failed => Slice([], counter + 1, condition, burst)
    case Left(condition', burst') => Slice([counter], counter + 1, condition', burst')
    case Stays =>
      var rest := Stay(program, counter + 1, w, clock + 1, condition, burst);
      rest.(executed := [counter] + rest.executed)
  }

  class Cpu {
    var interrupted: bool
    var leaving: bool
    var clock: nat

    constructor ()
      ensures clock == 0
    {
      interrupted, leaving, clock := false, false, 0;
    }

    method Fetch(pcb: Pcb) returns (i: Instruction)
      requires pcb.counter < |pcb.program|
      modifies pcb`counter
      ensures i == pcb.program[old(pcb.counter)] && pcb.counter == old(pcb.counter) + 1
    {
      i := pcb.program[pcb.counter];
      pcb.counter := pcb.counter + 1;
    }

    /** The effect of an instruction on the cycle; the memory accesses themselves are the memory unit's. */
    method Execute(pcb: Pcb, i: Instruction)
      modifies this`leaving, pcb`condition, pcb`burst
      ensures leaving == (old(leaving) || i.Io? || i.ExitProcess?)
      ensures pcb.burst == if i.Io? then i.burst else old(pcb.burst)
      ensures pcb.condition ==
        if i.Io? then IoSyscall
        else if i.ExitProcess? then ExitProgram
        else if interrupted && !leaving && !i.Unknown? then InterruptedByKernel
        else old(pcb.condition)
    {
      match i {
        case NoOp =>
        case Io(burst) =>
          pcb.condition := IoSyscall;
          pcb.burst := burst;
          leaving := true;
        case ReadMemory(_) =>
        case WriteMemory(_, _) =>
        case Copy(_, _) =>
        case ExitProcess =>
          pcb.condition := ExitProgram;
          leaving := true;
        case Unknown =>
          return;
      }
      if interrupted && !leaving {
        pcb.condition := InterruptedByKernel;
      }
    }

    method CheckInterrupt() returns (stop: bool)
      modifies this`leaving
      ensures stop == leaving == (old(leaving) || interrupted)
    {
      if interrupted {
        leaving := true;
      }
      stop := leaving;
    }

    /** One turn of the loop: `ok` unless the operand cannot be read, `stop` when the process leaves the cpu. */
    method Turn(pcb: Pcb, w: Surroundings) returns (ok: bool, stop: bool)
      requires pcb.counter < |pcb.program| && !leaving && !interrupted
      modifies this, pcb
      ensures pcb.counter == old(pcb.counter) + 1
      ensures var o := old(OutcomeOf(pcb.program[pcb.counter], w, clock, pcb.condition, pcb.burst));
        && ok == !o.Failed? && stop == !o.Stays?
        && pcb.condition == (if o.Left? then o.condition else old(pcb.condition))
        && pcb.burst == (if o.Left? then o.burst else old(pcb.burst))
        && clock == old(clock) + (if ok then 1 else 0)
      ensures !stop ==> !leaving && !interrupted
    {
      interrupted := w.early(clock);
      var i := Fetch(pcb);
      if i.Copy? && w.unreadable(i.from) {
        return false, true;
      }
      Execute(pcb, i);
      interrupted := interrupted || w.late(clock);
      clock := clock + 1;
      stop := CheckInterrupt();
      ok := true;
    }

    /** Runs a process until it leaves the cpu; `executed` records what was executed. */
    method RunPcb(pcb: Pcb, w: Surroundings) returns (ok: bool, ghost executed: seq<nat>)
      requires Ends(pcb.program, pcb.counter)
      modifies this, pcb
      ensures Slice(executed, pcb.counter, pcb.condition, pcb.burst)
        == old(Stay(pcb.program, pcb.counter, w, clock, pcb.condition, pcb.burst))
      ensures ok <==> |executed| == pcb.counter - old(pcb.counter)
      ensures clock == old(clock) + |executed| && !interrupted
    {
      ok, executed := true, [];
      interrupted, leaving := false, false;
      var stop := false;
      ghost var whole := Stay(pcb.program, pcb.counter, w, clock, pcb.condition, pcb.burst);
      while !stop
        invariant !stop ==> Ends(pcb.program, pcb.counter) && !leaving && !interrupted && ok
        invariant !stop ==>
          whole == Joined(executed, Stay(pcb.program, pcb.counter, w, clock, pcb.condition, pcb.burst))
        invariant stop ==> whole == Slice(executed, pcb.counter, pcb.condition, pcb.burst)
        invariant clock == old(clock) + |executed|
        invariant |executed| + (if ok then 0 else 1) == pcb.counter - old(pcb.counter)
        decreases !stop, |pcb.program| - pcb.counter
      {
        ghost var at := pcb.counter;
        ghost var o := OutcomeOf(pcb.program[at], w, clock, pcb.condition, pcb.burst);
        StayUnfolds(pcb.program, at, w, clock, pcb.condition, pcb.burst, executed);
        hide Stay, OutcomeOf, Joined;
        ok, stop := Turn(pcb, w);
        if ok {
          executed := executed + [at];
        }
        assert !o.Stays? ==> whole == Slice(executed, pcb.counter, pcb.condition, pcb.burst);
      }
      interrupted := false;
    }
  }

  /** A slice with what was executed before it. */
  function Joined(before: seq<nat>, s: Slice): Slice {
    s.(executed := before + s.executed)
  }

  lemma StayUnfolds(program: seq<Instruction>, counter: nat, w: Surroundings, clock: nat,
                    condition: Condition, burst: int, before: seq<nat>)
    requires Ends(program, counter)
    ensures var s := Joined(before, Stay(program, counter, w, clock, condition, burst));
      match OutcomeOf(program[counter], w, clock, condition, burst)
      case Failed => s == Slice(before, counter + 1, condition, burst)
      case Left(condition', burst') => s == Slice(before + [counter], counter + 1, condition', burst')
      case Stays =>
        && Ends(program, counter + 1)
        && s == Joined(before + [counter], Stay(program, counter + 1, w, clock + 1, condition, burst))
  {
  }

  // ---------- when a stay ends ----------

  /** The program from one index up to another. */
  function Range(from: nat, to: nat): (r: seq<nat>)
    requires from <= to
    ensures |r| == to - from && forall k | 0 <= k < |r| :: r[k] == from + k
  {
    seq(to - from, k => from + k)
  }

  lemma RangeFrom(from: nat, to: nat)
    requires from < to
    ensures Range(from, to) == [from] + Range(from + 1, to)
  {
  }

  /** A stay executes consecutive instructions; the last, and only the last, does not let it go on. */
  lemma {:induction false} StayEndsAtFirst(program: seq<Instruction>, counter: nat, w: Surroundings, clock: nat,
                                           condition: Condition, burst: int)
    requires Ends(program, counter)
    ensures var s := Stay(program, counter, w, clock, condition, burst); var last: nat := s.counter - 1;
      && (forall j | counter <= j < last :: OutcomeOf(program[j], w, clock + j - counter, condition, burst) == Stays)
      && match OutcomeOf(program[last], w, clock + last - counter, condition, burst)
         case Failed => s == Slice(Range(counter, last), last + 1, condition, burst)
         case Left(condition', burst') => s == Slice(Range(counter, last + 1), last + 1, condition', burst')
         case Stays => false
    decreases |program| - counter
  {
    if OutcomeOf(program[counter], w, clock, condition, burst) == Stays {
      StayEndsAtFirst(program, counter + 1, w, clock + 1, condition, burst);
      var rest := Stay(program, counter + 1, w, clock + 1, condition, burst);
      RangeFrom(counter, rest.counter);
      if counter + 1 < rest.counter {
        RangeFrom(counter, rest.counter - 1);
      }
      hide OutcomeOf, Range, Ends;
    }
  }

  /**
   * Why a stay that begins without a condition ends, told from its last instruction: the condition is input/output or
   * EXIT exactly for those instructions, and an interruption exactly when another instruction saw one and has a valid
   * code; the burst is the one that the instruction asks of the device.
   */
  lemma LeavesFor(program: seq<Instruction>, counter: nat, w: Surroundings, clock: nat)
    requires Ends(program, counter)
    ensures var s := Stay(program, counter, w, clock, NullCondition, 0);
      var last: nat := s.counter - 1;
      && (s.condition == IoSyscall <==> program[last].Io?)
      && (s.condition == ExitProgram <==> program[last].ExitProcess?)
      && (s.condition == InterruptedByKernel <==>
        && w.early(clock + last - counter) && !Fails(w.unreadable, program[last])
        && !program[last].Io? && !program[last].ExitProcess? && !program[last].Unknown?)
      && s.burst == (if program[last].Io? then program[last].burst else 0)
  {
    StayEndsAtFirst(program, counter, w, clock, NullCondition, 0);
    hide Stay, Range, Ends;
  }

  // ---------- the life of a process ----------

  /** What a process executed from a dispatch on, whether it reached its EXIT, and its last program counter. */
  datatype Life = Life(executed: seq<nat>, completed: bool, counter: nat)

  function Before(i: nat, rest: Life): Life {
    rest.(executed := [i] + rest.executed)
  }

  /** A process that is to be sent back has an EXIT ahead still. */
  lemma StayStops(program: seq<Instruction>, counter: nat, w: Surroundings, clock: nat)
    requires Ends(program, counter)
    ensures var s := Stay(program, counter, w, clock, NullCondition, 0);
      s.condition == IoSyscall || s.condition == InterruptedByKernel ==> Ends(program, s.counter)
    decreases |program| - counter
  {
  }

  /**
   * The kernel sends the process back after an interruption or an input/output, with its condition reset; any other
   * condition than EXIT ends it with an error.
   */
  function Lifetime(program: seq<Instruction>, counter: nat, w: Surroundings, clock: nat): Life
    requires Ends(program, counter)
    decreases |program| - counter
  {
    StayStops(program, counter, w, clock);
    var s := Stay(program, counter, w, clock, NullCondition, 0);
    match s.condition
    case ExitProgram => Life(s.executed, true, s.counter)
    case NullCondition => Life(s.executed, false, s.counter)
    case _ =>
      var rest := Lifetime(program, s.counter, w, clock + |s.executed|);
      rest.(executed := s.executed + rest.executed)
  }

  /** The program run in one go: up to its first EXIT, or to a copy whose operand cannot be read. */
  function Straight(program: seq<Instruction>, counter: nat, unreadable: nat -> bool): Life
    requires Ends(program, counter)
    decreases |program| - counter
  {
    if Fails(unreadable, program[counter]) then Life([], false, counter + 1)
    else if program[counter].ExitProcess? then Life([counter], true, counter + 1)
    else Before(counter, Straight(program, counter + 1, unreadable))
  }

  /** Where the program stops: its first EXIT, or the first copy that fails. */
  function StopOf(program: seq<Instruction>, counter: nat, unreadable: nat -> bool): (e: nat)
    requires Ends(program, counter)
    ensures counter <= e < |program| && (program[e].ExitProcess? || Fails(unreadable, program[e]))
    ensures forall j | counter <= j < e :: !program[j].ExitProcess? && !Fails(unreadable, program[j])
    decreases |program| - counter
  {
    if program[counter].ExitProcess? || Fails(unreadable, program[counter]) then counter
    else StopOf(program, counter + 1, unreadable)
  }

  /** Run in one go, each instruction up to the stop is executed once and in order. */
  lemma {:induction false} StraightIsInOrder(program: seq<Instruction>, counter: nat, unreadable: nat -> bool)
    requires Ends(program, counter)
    ensures var e := StopOf(program, counter, unreadable); var completed := program[e].ExitProcess?;
      Straight(program, counter, unreadable) == Life(Range(counter, if completed then e + 1 else e), completed, e + 1)
    decreases |program| - counter
  {
    if !program[counter].ExitProcess? && !Fails(unreadable, program[counter]) {
      StraightIsInOrder(program, counter + 1, unreadable);
      var e := StopOf(program, counter + 1, unreadable);
      RangeFrom(counter, e + 1);
      RangeFrom(counter, e);
    }
  }

  /** An interruption that ends the stay at this instruction is one that its execution saw and recorded. */
  predicate Recorded(i: Instruction, w: Surroundings, clock: nat) {
    i.Io? || (w.early(clock) || w.late(clock) ==> w.early(clock) && !i.Unknown?)
  }

  /** And so at every instruction up to the stop. */
  predicate AllRecorded(program: seq<Instruction>, counter: nat, w: Surroundings, clock: nat)
    requires Ends(program, counter)
    decreases |program| - counter
  {
    || program[counter].ExitProcess? || Fails(w.unreadable, program[counter])
    || (Recorded(program[counter], w, clock) && AllRecorded(program, counter + 1, w, clock + 1))
  }

  /** A life goes on instruction by instruction, in the same stay or in a later one. */
  lemma LifeGoesOn(program: seq<Instruction>, counter: nat, w: Surroundings, clock: nat)
    requires Ends(program, counter) && !Fails(w.unreadable, program[counter]) && !program[counter].ExitProcess?
    requires Recorded(program[counter], w, clock)
    ensures Ends(program, counter + 1)
    ensures Lifetime(program, counter, w, clock) == Before(counter, Lifetime(program, counter + 1, w, clock + 1))
  {
    if OutcomeOf(program[counter], w, clock, NullCondition, 0) == Stays {
      StayStops(program, counter + 1, w, clock + 1);
      var s := Stay(program, counter + 1, w, clock + 1, NullCondition, 0);
      assert Stay(program, counter, w, clock, NullCondition, 0) == s.(executed := [counter] + s.executed);
      if s.condition == IoSyscall || s.condition == InterruptedByKernel {
        var later := Lifetime(program, s.counter, w, clock + 1 + |s.executed|);
        assert [counter] + (s.executed + later.executed) == ([counter] + s.executed) + later.executed;
      }
      hide Stay, OutcomeOf, Ends;
    }
  }

  /** An interruption that is obeyed but was not recorded ends the process there, with an error. */
  lemma UnrecordedEnds(program: seq<Instruction>, counter: nat, w: Surroundings, clock: nat)
    requires Ends(program, counter) && !Fails(w.unreadable, program[counter]) && !program[counter].ExitProcess?
    requires !Recorded(program[counter], w, clock)
    ensures Lifetime(program, counter, w, clock) == Life([counter], false, counter + 1)
  {
  }

  /**
   * The exact condition. The slices of a program, put together, are the program run in one go, if and only if every
   * interruption that the loop obeys was seen by the execution of the instruction before it, and that instruction has a
   * valid code: otherwise the process leaves the cpu without a condition, which the kernel takes for an error.
   */
  lemma {:induction false} TransparentExactly(program: seq<Instruction>, counter: nat, w: Surroundings, clock: nat)
    requires Ends(program, counter)
    ensures Lifetime(program, counter, w, clock) == Straight(program, counter, w.unreadable)
      <==> AllRecorded(program, counter, w, clock)
    decreases |program| - counter
  {
    if !Fails(w.unreadable, program[counter]) && !program[counter].ExitProcess? {
      if Recorded(program[counter], w, clock) {
        LifeGoesOn(program, counter, w, clock);
        TransparentExactly(program, counter + 1, w, clock + 1);
        BeforeSame(counter, Lifetime(program, counter + 1, w, clock + 1), Straight(program, counter + 1, w.unreadable));
        hide Lifetime;
      } else {
        UnrecordedEnds(program, counter, w, clock);
        StraightIsInOrder(program, counter, w.unreadable);
        hide Lifetime, Straight;
      }
    }
  }

  lemma BeforeSame(i: nat, a: Life, b: Life)
    ensures Before(i, a) == Before(i, b) <==> a == b
  {
    if Before(i, a) == Before(i, b) {
      assert a.executed == ([i] + a.executed)[1..] && b.executed == ([i] + b.executed)[1..];
    }
  }

  // ---------- when the flag does not change between the reads ----------

  /** No instruction with an invalid code is met. */
  predicate Known(program: seq<Instruction>, counter: nat, unreadable: nat -> bool)
    requires Ends(program, counter)
  {
    forall j | counter <= j < StopOf(program, counter, unreadable) :: !program[j].Unknown?
  }

  lemma {:induction false} KnownIsRecorded(program: seq<Instruction>, counter: nat, w: Surroundings, clock: nat)
    requires Ends(program, counter) && Known(program, counter, w.unreadable) && forall n :: !w.late(n)
    ensures AllRecorded(program, counter, w, clock)
    decreases |program| - counter
  {
    if !Fails(w.unreadable, program[counter]) && !program[counter].ExitProcess? {
      assert !program[counter].Unknown? && Known(program, counter + 1, w.unreadable);
      KnownIsRecorded(program, counter + 1, w, clock + 1);
    }
  }

  lemma {:induction false} RecordedAt(program: seq<Instruction>, counter: nat, w: Surroundings, clock: nat, j: nat)
    requires Ends(program, counter) && AllRecorded(program, counter, w, clock)
    requires counter <= j < StopOf(program, counter, w.unreadable)
    ensures Recorded(program[j], w, clock + (j - counter))
    decreases |program| - counter
  {
    if counter < j {
      RecordedAt(program, counter + 1, w, clock + 1, j);
      assert clock + 1 + (j - (counter + 1)) == clock + (j - counter);
    }
  }

  /** Interruptions that never come between the two reads. */
  function SeenBy(early: nat -> bool, unreadable: nat -> bool): Surroundings {
    Surroundings(early, _ => false, unreadable)
  }

  /** For such interruptions, whenever they come, slicing is invisible if and only if no invalid code is met. */
  lemma TransparentWhenSeen(program: seq<Instruction>, unreadable: nat -> bool)
    requires Ends(program, 0)
    ensures Known(program, 0, unreadable) <==>
      forall early: nat -> bool ::
        Lifetime(program, 0, SeenBy(early, unreadable), 0) == Straight(program, 0, unreadable)
  {
    if Known(program, 0, unreadable) {
      forall early: nat -> bool
        ensures Lifetime(program, 0, SeenBy(early, unreadable), 0) == Straight(program, 0, unreadable)
      {
        KnownIsRecorded(program, 0, SeenBy(early, unreadable), 0);
        TransparentExactly(program, 0, SeenBy(early, unreadable), 0);
      }
    } else {
      var u: nat :| u < StopOf(program, 0, unreadable) && program[u].Unknown?;
      var w := SeenBy(n => n == u, unreadable);
      if AllRecorded(program, 0, w, 0) {
        RecordedAt(program, 0, w, 0, u);
      }
      TransparentExactly(program, 0, w, 0);
      assert Lifetime(program, 0, SeenBy(w.early, unreadable), 0) != Straight(program, 0, unreadable);
    }
  }
}
