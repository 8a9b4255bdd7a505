/** The order that SRT planning keeps in the ready queue. */
module ReadyOrder {
  import opened SafeQueue

  datatype Status = New | Ready | Blocked | Exec | Exit | SuspendedReady | SuspendedBlocked

  /** What the comparison looks at: in the queue, `previous` is the status the process came from. */
  datatype Pcb = Pcb(id: nat, burst: int, status: Status, previous: Status)

  /** Came from the cpu or from an input/output event, which outranks an admission. */
  predicate Urgent(previous: Status) {
    previous == Exec || previous == Blocked
  }

  /** 1 when the new process goes before the listed one, -1 when it goes after. */
  function CompareReady(x: Pcb, listed: Pcb): int {
    if x.burst < listed.burst then 1
    else if x.burst == listed.burst then
      if x.status == Exec then 1
      else if x.status == Blocked then
        if listed.previous == Exec || listed.previous == Blocked then -1 else 1
      else -1
    else -1
  }

  /** What moving to READY leaves in the process: the status it came from, kept for later comparisons. */
  function Readied(x: Pcb): Pcb {
    x.(previous := x.status, status := Ready)
  }

  /** The ready queue after a process is inserted in it and then marked. */
  function MovedToReady(q: seq<Pcb>, x: Pcb): seq<Pcb> {
    Inserted(q, x, CompareReady)[Position(q, x, CompareReady) := Readied(x)]
  }

  lemma MovedIs(q: seq<Pcb>, x: Pcb)
    ensures var k := Position(q, x, CompareReady); MovedToReady(q, x) == q[..k] + [Readied(x)] + q[k..]
  {
  }

  /** `a` may stand before `b`: a shorter estimate, or an equal one that is urgent unless neither is. */
  predicate MayPrecede(a: Pcb, b: Pcb) {
    a.burst < b.burst || (a.burst == b.burst && (Urgent(a.previous) || !Urgent(b.previous)))
  }

  ghost predicate Ordered(q: seq<Pcb>) {
    forall i, j | 0 <= i < j < |q| :: MayPrecede(q[i], q[j])
  }

  /** The newcomer stands where the order lets it. */
  lemma NewcomerFits(q: seq<Pcb>, x: Pcb, i: nat)
    requires Ordered(q) && i < |q|
    ensures if i < Position(q, x, CompareReady) then MayPrecede(q[i], Readied(x)) else MayPrecede(Readied(x), q[i])
  {
    var k := Position(q, x, CompareReady);
    if i > k {
      assert MayPrecede(q[k], q[i]);
    }
  }

  /** Every move to READY keeps the queue ordered, adds one process and keeps the others in their relative order. */
  lemma MoveKeepsOrder(q: seq<Pcb>, x: Pcb)
    requires Ordered(q)
    ensures var r := MovedToReady(q, x); var k := Position(q, x, CompareReady);
      Ordered(r) && r[k] == Readied(x) && r[..k] + r[k + 1..] == q
  {
    var k := Position(q, x, CompareReady);
    var r := MovedToReady(q, x);
    MovedIs(q, x);
    hide MovedToReady, Position, MayPrecede, Readied;
    assert r[..k] + r[k + 1..] == q;
    forall i, j | 0 <= i < j < |r| ensures MayPrecede(r[i], r[j]) {
      if i == k {
        NewcomerFits(q, x, j - 1);
      } else if j == k {
        NewcomerFits(q, x, i);
      }
    }
  }

  /** Among equal estimates: from the cpu, first of all; from an event, after the urgent ones; admitted, last. */
  lemma PlaceAmongEquals(q: seq<Pcb>, x: Pcb, i: nat)
    requires Ordered(q) && i < |q| && q[i].burst == x.burst
    ensures var before := Position(q, x, CompareReady) <= i;
      before <==> (x.status == Exec || (x.status == Blocked && !Urgent(q[i].previous)))
  {
    var k := Position(q, x, CompareReady);
    if k < i {
      assert MayPrecede(q[k], q[i]);
    }
  }

  /** The process at the head of an ordered queue has the least estimate. */
  lemma HeadIsShortest(q: seq<Pcb>, i: nat)
    requires Ordered(q) && i < |q|
    ensures q[0].burst <= q[i].burst
  {
    assert i > 0 ==> MayPrecede(q[0], q[i]);
  }
}
