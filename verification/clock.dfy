/** Victim selection: what one turn of the CLOCK and CLOCK-M hands decides and which use bits it clears. */
module Clock {

  datatype Entry = Entry(frame: nat, modified: bool, used: bool, present: bool)

  datatype Algorithm = Clock | ClockM

  /** How many entries the hand passed clearing their use bit, and the slot it stopped on. */
  datatype Selection = Selection(cleared: nat, victim: nat)

  /** The slot `k` places after `start` on a ring of `q` slots (`k` at most one full turn). */
  function Ring(start: nat, k: nat, q: nat): (slot: nat)
    requires start < q && k <= q
    ensures slot < q
  {
    if start + k < q then start + k else start + k - q
  }

  /** How many places after `start` a slot lies. */
  function Distance(start: nat, slot: nat, q: nat): (k: nat)
    requires start < q && slot < q
    ensures k < q && Ring(start, k, q) == slot
    ensures forall j | 0 <= j < q :: Ring(start, j, q) == slot ==> j == k
  {
    if slot >= start then slot - start else slot + q - start
  }

  /** The first place, counted from `start`, whose entry satisfies `pick`; `|marks|` when no entry does. */
  function FirstFrom(marks: seq<Entry>, start: nat, pick: Entry -> bool, k: nat := 0): (r: nat)
    requires start < |marks| && k <= |marks|
    ensures k <= r <= |marks|
    ensures forall j | k <= j < r :: !pick(marks[Ring(start, j, |marks|)])
    ensures r < |marks| ==> pick(marks[Ring(start, r, |marks|)])
    decreases |marks| - k
  {
    if k == |marks| || pick(marks[Ring(start, k, |marks|)]) then k
    else FirstFrom(marks, start, pick, k + 1)
  }

  /** `marks` after the hand has cleared the use bit of the `k` entries from `start` on. */
  function Cleared(marks: seq<Entry>, start: nat, k: nat): (r: seq<Entry>)
    requires start < |marks| && k <= |marks|
    ensures |r| == |marks|
  {
    seq(|marks|, i requires 0 <= i < |marks| =>
      if Distance(start, i, |marks|) < k then marks[i].(used := false) else marks[i])
  }

  const Unused := (e: Entry) => !e.used
  const Idle := (e: Entry) => !e.used && !e.modified
  const IdleDirty := (e: Entry) => !e.used && e.modified

  function SelectClock(marks: seq<Entry>, start: nat): Selection
    requires start < |marks|
  {
    var k := FirstFrom(marks, start, Unused);
    Selection(k, Ring(start, k, |marks|))
  }

  /** One unclearing sweep, one clearing sweep, and the same two again over cleared use bits. */
  function SelectClockM(marks: seq<Entry>, start: nat): Selection
    requires start < |marks|
  {
    var q := |marks|;
    var k1 := FirstFrom(marks, start, Idle);
    if k1 < q then Selection(0, Ring(start, k1, q))
    else
      var k2 := FirstFrom(marks, start, IdleDirty);
      if k2 < q then Selection(k2, Ring(start, k2, q))
      else Selection(q, Ring(start, FirstFrom(Cleared(marks, start, q), start, Idle), q))
  }

  function Select(algorithm: Algorithm, marks: seq<Entry>, start: nat): (s: Selection)
    requires start < |marks|
    ensures s.cleared <= |marks| && s.victim < |marks|
  {
    if algorithm.Clock? then SelectClock(marks, start) else SelectClockM(marks, start)
  }

  /** The class CLOCK-M prefers: the lower the better, use bit first and modified bit second. */
  function Class(e: Entry): nat {
    (if e.used then 2 else 0) + (if e.modified then 1 else 0)
  }

  /** `slot` holds the first entry, in circular order from `start`, among those of the smallest rank. */
  ghost predicate FirstOfLeast(marks: seq<Entry>, start: nat, slot: nat, rank: Entry -> nat)
    requires start < |marks| && slot < |marks|
  {
    forall i | 0 <= i < |marks| ::
      && rank(marks[slot]) <= rank(marks[i])
      && (rank(marks[i]) == rank(marks[slot]) ==> Distance(start, slot, |marks|) <= Distance(start, i, |marks|))
  }

  /** Every entry nearer than the place `FirstFrom` reports fails `pick`; the entry there is at that distance. */
  lemma SkippedBefore(marks: seq<Entry>, start: nat, pick: Entry -> bool)
    requires start < |marks|
    ensures var k := FirstFrom(marks, start, pick);
      && (forall i | 0 <= i < |marks| :: Distance(start, i, |marks|) < k ==> !pick(marks[i]))
      && (k < |marks| ==> Distance(start, Ring(start, k, |marks|), |marks|) == k)
      && (k == |marks| ==> Ring(start, k, |marks|) == start)
  {
    var k := FirstFrom(marks, start, pick);
    forall i | 0 <= i < |marks| && Distance(start, i, |marks|) < k ensures !pick(marks[i]) {
      assert Ring(start, Distance(start, i, |marks|), |marks|) == i;
    }
  }

  /** CLOCK takes the first entry with a clear use bit, or the starting one when every bit is set. */
  lemma ClockTakesFirstUnused(marks: seq<Entry>, start: nat)
    requires start < |marks|
    ensures FirstOfLeast(marks, start, SelectClock(marks, start).victim, (e: Entry) => if e.used then 1 else 0)
  {
    SkippedBefore(marks, start, Unused);
  }

  /** CLOCK clears the bits of the entries before the victim; of every one when all are set. No other bit changes. */
  lemma ClockClearing(marks: seq<Entry>, start: nat, i: nat)
    requires start < |marks| && i < |marks|
    ensures var s := SelectClock(marks, start);
      && s.cleared == (if marks[s.victim].used then |marks| else Distance(start, s.victim, |marks|))
      && Cleared(marks, start, s.cleared)[i] ==
        if marks[s.victim].used || Distance(start, i, |marks|) < Distance(start, s.victim, |marks|)
        then marks[i].(used := false) else marks[i]
  {
    SkippedBefore(marks, start, Unused);
  }

  /** CLOCK-M takes the first entry of the lexicographically smallest (use, modified) class, as seen on entry. */
  lemma ClockMTakesSmallestClass(marks: seq<Entry>, start: nat)
    requires start < |marks|
    ensures FirstOfLeast(marks, start, SelectClockM(marks, start).victim, Class)
  {
    var after := Cleared(marks, start, |marks|);
    SkippedBefore(marks, start, Idle);
    if FirstFrom(marks, start, Idle) == |marks| {
      SkippedBefore(marks, start, IdleDirty);
      if FirstFrom(marks, start, IdleDirty) == |marks| {
        SkippedBefore(after, start, Idle);
      }
    }
  }

  /** CLOCK-M clears no use bit for a victim of class (0,0), those before it for (0,1), and every one otherwise. */
  lemma ClockMClearing(marks: seq<Entry>, start: nat)
    requires start < |marks|
    ensures var s := SelectClockM(marks, start);
      s.cleared == match Class(marks[s.victim])
        case 0 => 0
        case 1 => Distance(start, s.victim, |marks|)
        case _ => |marks|
  {
    SkippedBefore(marks, start, Idle);
    SkippedBefore(marks, start, IdleDirty);
  }

  /** The victim's own use bit is clear once the hand has passed over the entries it clears. */
  lemma VictimIsUnusedAfterClearing(algorithm: Algorithm, marks: seq<Entry>, start: nat)
    requires start < |marks|
    ensures var s := Select(algorithm, marks, start); !Cleared(marks, start, s.cleared)[s.victim].used
  {
    var q := |marks|;
    var s := Select(algorithm, marks, start);
    if algorithm.ClockM? {
      var k3 := FirstFrom(Cleared(marks, start, q), start, Idle);
      assert k3 == q ==> Ring(start, k3, q) == start;
    } else {
      assert s.cleared == q ==> s.victim == start;
    }
  }
}
