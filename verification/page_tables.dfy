/** Page entries and first-level tables, with the two victim selectors that turn a table's hand. */
module PageTables {
  import opened Clock

  /** A page-table entry: the frame the page is in, when present, and its control bits. */
  class Page {
    var frame: nat
    var modified: bool
    var used: bool
    var present: bool
    /** The second-level table the entry is in, and its index there. */
    ghost const place: (nat, nat)

    constructor (ghost place: (nat, nat))
      ensures Value() == Entry(0, false, false, false) && this.place == place
    {
      frame, modified, used, present := 0, false, false, false;
      this.place := place;
    }

    function Value(): Entry
      reads this
    {
      Entry(frame, modified, used, present)
    }
  }

  /** A page that owns one of its process's frames. */
  datatype Resident = Resident(number: nat, page: Page)

  /** The entries of `residents`, in order. */
  function Marks(residents: seq<Resident>): (marks: seq<Entry>)
    reads set a | a in residents :: a.page
    ensures |marks| == |residents|
    ensures forall i | 0 <= i < |marks| :: marks[i] == residents[i].page.Value()
  {
    seq(|residents|, i requires 0 <= i < |residents| reads set a | a in residents :: a.page =>
      residents[i].page.Value())
  }

  ghost predicate DistinctPages(residents: seq<Resident>) {
    forall i, j | 0 <= i < j < |residents| :: residents[i].page != residents[j].page
  }

  class FirstLevel {
    const tables: seq<nat>
    var residents: seq<Resident>
    var pointer: nat
    const pcb: nat
    /** The position of this table in the list of first-level tables. */
    ghost const id: nat

    constructor (pcb: nat, tables: seq<nat>, ghost id: nat)
      ensures this.tables == tables && residents == [] && pointer == 0 && this.pcb == pcb && this.id == id
    {
      residents, pointer := [], 0;
      this.tables, this.pcb, this.id := tables, pcb, id;
    }

    /** Moves the hand one slot on, wrapping at the quota. */
    method Advance(quota: nat)
      requires pointer < quota
      modifies `pointer
      ensures pointer == Ring(old(pointer), 1, quota)
    {
      pointer := pointer + 1;
      if pointer == quota {
        pointer := 0;
      }
    }

    /** The use bit of every entry fewer than `k` places from `start` is clear; all else is as in `marks`. */
    ghost predicate Passed(marks: seq<Entry>, start: nat, k: nat)
      requires start < |marks|
      reads `residents, set a | a in residents :: a.page
    {
      && |residents| == |marks|
      && forall i | 0 <= i < |marks| ::
        residents[i].page.Value() == marks[i].(used := marks[i].used && Distance(start, i, |marks|) >= k)
    }

    /** CLOCK: the hand stops on the first entry with a clear use bit, after at most one turn and one entry. */
    method VictimClock(quota: nat) returns (ghost examined: nat)
      requires |residents| == quota && pointer < quota && DistinctPages(residents)
      modifies `pointer, set a | a in residents :: a.page
      ensures var s := old(SelectClock(Marks(residents), pointer));
        && pointer == s.victim
        && Marks(residents) == old(Cleared(Marks(residents), pointer, s.cleared))
      ensures examined <= quota + 1
    {
      ghost var start, marks := pointer, Marks(residents);
      ghost var k := 0;
      hide FirstFrom;
      while residents[pointer].page.used
        invariant k <= quota && pointer == Ring(start, k, quota)
        invariant Passed(marks, start, k)
        invariant forall j | 0 <= j < k :: marks[Ring(start, j, quota)].used
        decreases quota - k
      {
        ClearHere(quota, marks, start, k);
        Advance(quota);
        RingNext(start, k, quota);
        k := k + 1;
      }
      examined := k + 1;
      PassedIsCleared(marks, start, k);
      FirstIs(marks, start, Unused, k);
    }

    /** CLOCK-M's first sweep: looks for an unused and unmodified page and clears nothing. */
    method SweepIdle(quota: nat) returns (found: bool, ghost examined: nat)
      requires |residents| == quota && pointer < quota
      modifies `pointer
      ensures var k := old(FirstFrom(Marks(residents), pointer, Idle));
        found == (k < quota) && pointer == Ring(old(pointer), k, quota)
      ensures examined <= quota
    {
      ghost var start, marks := pointer, Marks(residents);
      examined := 0;
      for i := 0 to quota
        invariant pointer == Ring(start, i, quota) && examined == i
        invariant forall j | 0 <= j < i :: !Idle(marks[Ring(start, j, quota)])
      {
        examined := i + 1;
        if !residents[pointer].page.used && !residents[pointer].page.modified {
          FirstIs(marks, start, Idle, i);
          return true, examined;
        }
        Advance(quota);
      }
      FirstIs(marks, start, Idle, quota);
      found := false;
    }

    /** CLOCK-M's second sweep: looks for an unused page that is modified, clearing use bits on the way. */
    method SweepClearing(quota: nat) returns (found: bool, ghost examined: nat)
      requires |residents| == quota && pointer < quota && DistinctPages(residents)
      modifies `pointer, set a | a in residents :: a.page
      ensures var k := old(FirstFrom(Marks(residents), pointer, IdleDirty));
        && found == (k < quota) && pointer == Ring(old(pointer), k, quota)
        && Marks(residents) == old(Cleared(Marks(residents), pointer, k))
      ensures examined <= quota
    {
      ghost var start, marks := pointer, Marks(residents);
      assert Passed(marks, start, 0) && Ring(start, 0, quota) == start;
      assert NoneBefore(marks, start, IdleDirty, 0);
      hide FirstFrom, Cleared, Passed, Distance, Ring, NoneBefore;
      examined := 0;
      for i := 0 to quota
        invariant pointer == Ring(start, i, quota) && examined == i
        invariant |residents| == |marks| && Passed(marks, start, i) && NoneBefore(marks, start, IdleDirty, i)
      {
        PassedHere(marks, start, i);
        examined := i + 1;
        if !residents[pointer].page.used && residents[pointer].page.modified {
          PassedIsCleared(marks, start, i);
          FirstAfter(marks, start, IdleDirty, i);
          return true, examined;
        }
        NoneYet(marks, start, IdleDirty, i);
        ClearHere(quota, marks, start, i);
        Advance(quota);
        RingNext(start, i, quota);
      }
      PassedIsCleared(marks, start, quota);
      FirstAfter(marks, start, IdleDirty, quota);
      found := false;
    }

    /** CLOCK-M: alternates the two sweeps until one finds a victim; four sweeps always suffice. */
    method VictimClockM(quota: nat) returns (ghost examined: nat)
      requires |residents| == quota && pointer < quota && DistinctPages(residents)
      modifies `pointer, set a | a in residents :: a.page
      ensures var s := old(SelectClockM(Marks(residents), pointer));
        && pointer == s.victim
        && Marks(residents) == old(Cleared(Marks(residents), pointer, s.cleared))
      ensures examined <= 4 * quota
    {
      ghost var start, marks := pointer, Marks(residents);
      hide FirstFrom, Cleared, Marks, DistinctPages;
      ghost var rounds := 0;
      examined := 0;
      ClearedNothing(marks, start);
      SecondRoundFinds(marks, start);
      while true
        invariant rounds <= 1 && examined <= (if rounds == 0 then 0 else 2 * quota) && pointer == start
        invariant Marks(residents) == Cleared(marks, start, if rounds == 0 then 0 else quota)
        invariant rounds == 1 ==> FirstFrom(marks, start, Idle) == quota
        invariant rounds == 1 ==> FirstFrom(marks, start, IdleDirty) == quota
        decreases 1 - rounds
      {
        ghost var seen;
        var found;
        found, seen := SweepIdle(quota);
        examined := examined + seen;
        if found {
          return;
        }
        assert pointer == start;
        found, seen := SweepClearing(quota);
        examined := examined + seen;
        if found {
          return;
        }
        if rounds == 1 { assert false; }
        rounds := rounds + 1;
      }
    }

    /** The victim of the configured algorithm. */
    method Victim(algorithm: Algorithm, quota: nat)
      requires |residents| == quota && pointer < quota && DistinctPages(residents)
      modifies `pointer, set a | a in residents :: a.page
      ensures var s := old(Select(algorithm, Marks(residents), pointer));
        && pointer == s.victim
        && Marks(residents) == old(Cleared(Marks(residents), pointer, s.cleared))
    {
      hide SelectClock, SelectClockM, Cleared, Marks, DistinctPages;
      if algorithm.Clock? {
        ghost var _ := VictimClock(quota);
      } else {
        ghost var _ := VictimClockM(quota);
      }
    }

    /** The entry the hand has come to is still as it was. */
    lemma PassedHere(marks: seq<Entry>, start: nat, k: nat)
      requires start < |marks| && k < |marks| && Passed(marks, start, k)
      ensures residents[Ring(start, k, |marks|)].page.Value() == marks[Ring(start, k, |marks|)]
    {
      assert Distance(start, Ring(start, k, |marks|), |marks|) == k;
    }

    lemma PassedIsCleared(marks: seq<Entry>, start: nat, k: nat)
      requires start < |marks| && k <= |marks| && Passed(marks, start, k)
      ensures Marks(residents) == Cleared(marks, start, k)
    {
    }

    /** Clears the use bit under the hand, `k` places from `start`. */
    method ClearHere(quota: nat, ghost marks: seq<Entry>, ghost start: nat, ghost k: nat)
      requires |residents| == |marks| == quota && start < quota && k < quota && pointer == Ring(start, k, quota)
      requires DistinctPages(residents) && Passed(marks, start, k)
      modifies residents[pointer].page`used
      ensures Passed(marks, start, k + 1)
    {
      residents[pointer].page.used := false;
    }
  }

  lemma RingNext(start: nat, k: nat, q: nat)
    requires start < q && k < q
    ensures Ring(Ring(start, k, q), 1, q) == Ring(start, k + 1, q)
  {
  }

  lemma ClearedNothing(marks: seq<Entry>, start: nat)
    requires start < |marks|
    ensures Cleared(marks, start, 0) == marks
  {
  }

  /** After a clearing sweep that found nothing every entry is unused, and a page is found in the next two sweeps. */
  lemma SecondRoundFinds(marks: seq<Entry>, start: nat)
    requires start < |marks|
    ensures var after := Cleared(marks, start, |marks|);
      FirstFrom(after, start, Idle) == |marks| ==>
        && FirstFrom(after, start, IdleDirty) == 0
        && Cleared(after, start, 0) == after
  {
    var after := Cleared(marks, start, |marks|);
    assert !after[Ring(start, 0, |marks|)].used;
  }

  /** None of the `k` entries from `start` on is picked. */
  ghost predicate NoneBefore(marks: seq<Entry>, start: nat, pick: Entry -> bool, k: nat) {
    start < |marks| && k <= |marks| && forall j | 0 <= j < k :: !pick(marks[Ring(start, j, |marks|)])
  }

  lemma NoneYet(marks: seq<Entry>, start: nat, pick: Entry -> bool, k: nat)
    requires NoneBefore(marks, start, pick, k) && k < |marks| && !pick(marks[Ring(start, k, |marks|)])
    ensures NoneBefore(marks, start, pick, k + 1)
  {
  }

  lemma FirstAfter(marks: seq<Entry>, start: nat, pick: Entry -> bool, k: nat)
    requires NoneBefore(marks, start, pick, k)
    requires k < |marks| ==> pick(marks[Ring(start, k, |marks|)])
    ensures FirstFrom(marks, start, pick) == k
  {
    FirstIs(marks, start, pick, k);
  }

  lemma FirstIs(marks: seq<Entry>, start: nat, pick: Entry -> bool, k: nat, from: nat := 0)
    requires start < |marks| && from <= k <= |marks|
    requires forall j | from <= j < k :: !pick(marks[Ring(start, j, |marks|)])
    requires k < |marks| ==> pick(marks[Ring(start, k, |marks|)])
    ensures FirstFrom(marks, start, pick, from) == k
    decreases k - from
  {
    if from < k {
      FirstIs(marks, start, pick, k, from + 1);
    }
  }
}
