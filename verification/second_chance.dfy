/**
 * The hand of the clock as a queue: the pages of a process in the order the hand meets them. A replacement rotates the
 * queue, and under CLOCK it is the second-chance queue.
 */
module SecondChance {
  import opened Clock
  import opened MemoryModel
  import opened MemoryInvariant

  datatype Chance = Chance(page: nat, used: bool)

  ghost predicate Listed(c: Config, pr: Process) {
    && |pr.residents| <= c.quota && pr.pointer < c.quota
    && forall i | 0 <= i < |pr.residents| :: pr.residents[i] < |pr.entries|
  }

  /** The slot the queue starts at: the hand's, or the first while there are slots to fill. */
  ghost function Start(c: Config, pr: Process): nat {
    if |pr.residents| < c.quota then 0 else pr.pointer
  }

  /** The pages in memory, in the order in which the hand meets them, with their use bits. */
  ghost function Line(c: Config, pr: Process): (line: seq<Chance>)
    requires Listed(c, pr)
    ensures |line| == |pr.residents|
  {
    var n := |pr.residents|;
    seq(n, j requires 0 <= j < n && Listed(c, pr) && n == |pr.residents| =>
      var page := pr.residents[Ring(Start(c, pr), j, n)];
      Chance(page, pr.entries[page].used))
  }

  // ---------- the reference ----------

  function UsedIn(line: seq<Chance>): nat {
    if |line| == 0 then 0 else (if line[0].used then 1 else 0) + UsedIn(line[1..])
  }

  lemma {:induction false} UsedAppended(line: seq<Chance>, x: Chance)
    ensures UsedIn(line + [x]) == UsedIn(line) + if x.used then 1 else 0
  {
    if |line| > 0 {
      assert (line + [x])[1..] == line[1..] + [x];
      UsedAppended(line[1..], x);
    } else {
      assert line + [x] == [x];
    }
  }

  /** A used page at the head goes to the end with its bit cleared, until an unused one is at the head. */
  function Spared(line: seq<Chance>): (r: seq<Chance>)
    requires |line| > 0
    ensures |r| > 0
    decreases UsedIn(line)
  {
    if !line[0].used then line
    else
      UsedAppended(line[1..], line[0].(used := false));
      Spared(line[1..] + [line[0].(used := false)])
  }

  /** The queue with the bits of its first `n` pages cleared. */
  function Off(line: seq<Chance>, n: nat): (r: seq<Chance>)
    ensures |r| == |line|
    ensures forall j | 0 <= j < |line| :: r[j] == if j < n then line[j].(used := false) else line[j]
  {
    seq(|line|, j requires 0 <= j < |line| => if j < n then line[j].(used := false) else line[j])
  }

  /** Sparing the `k` used pages at the head moves them to the end. */
  lemma {:induction false} SparedIs(line: seq<Chance>, k: nat, j: nat)
    requires 0 < |line| && j <= k <= |line|
    requires (forall i | 0 <= i < k :: line[i].used) && (k < |line| ==> !line[k].used)
    ensures Spared(line[j..] + Off(line, j)[..j]) == line[k..] + Off(line, k)[..k]
    decreases k - j
  {
    var now := line[j..] + Off(line, j)[..j];
    if j < k {
      assert now[1..] + [now[0].(used := false)] == line[j + 1..] + Off(line, j + 1)[..j + 1];
      SparedIs(line, k, j + 1);
    }
  }

  // ---------- a replacement rotates the queue ----------

  /** A full process after the fault of page `p` took the slot of the victim. */
  ghost predicate Replaced(c: Config, pr: Process, pr': Process, p: nat)
    requires c.Valid() && Listed(c, pr) && |pr.residents| == c.quota
  {
    var s := Select(c.algorithm, ResidentEntries(pr), pr.pointer);
    && pr'.residents == pr.residents[s.victim := p] && pr'.pointer == Ring(s.victim, 1, c.quota)
    && Listed(c, pr') && |pr'.entries| == |pr.entries| && p < |pr.entries| && pr'.entries[p].used
    && forall i | 0 <= i < c.quota && i != s.victim ::
      pr'.entries[pr.residents[i]].used
        == Cleared(ResidentEntries(pr), pr.pointer, s.cleared)[i].used
  }

  lemma ReplaceIs(c: Config, m: Mem, t: nat, p: nat)
    requires c.Valid() && Fault(c, m, t, p) && |m.procs[t].residents| == c.quota
    ensures Sound(c, m, t, p) && Listed(c, m.procs[t])
    ensures Replaced(c, m.procs[t], Replace(c, m, t, p).procs[t], p)
  {
    InvIsSound(c, m, t, p);
    assert ProcessOk(c, m, t);
    var pr := m.procs[t];
    var r := TurnHand(c, pr);
    var v := r.residents[r.pointer];
    assert Replace(c, m, t, p).procs[t]
      == Swap(c, SetEntry(r, v, r.entries[v].(modified := false, present := false)), p, r.entries[v].frame);
    hide Replace, Inv, Sound;
    SwapIs(c, pr, p);
  }

  /** The process of a replacement: the hand turns, the victim goes and page `p` takes its slot. */
  lemma SwapIs(c: Config, pr: Process, p: nat)
    requires c.Valid() && ResidentsOk(c, pr) && |pr.residents| == c.quota && pr.pointer < c.quota
    requires p < |pr.entries| && !pr.entries[p].present
    ensures var r := TurnHand(c, pr); var v := r.residents[r.pointer];
      var gone := SetEntry(r, v, r.entries[v].(modified := false, present := false));
      Replaced(c, pr, Swap(c, gone, p, r.entries[v].frame), p)
  {
    TurnHandClears(c, pr);
    var r := TurnHand(c, pr);
    assert r.residents == pr.residents && r.pointer == Select(c.algorithm, ResidentEntries(pr), pr.pointer).victim;
    assert p !in pr.residents;
    hide Select, Cleared, TurnHand;
    forall i | 0 <= i < c.quota ensures r.entries[pr.residents[i]] == ResidentEntries(r)[i] {
    }
  }

  /** The slot `j` places after the one that follows the `k`-th is the `k + 1 + j`-th, round the ring. */
  lemma RingAfter(start: nat, k: nat, j: nat, q: nat)
    requires start < q && k < q && j < q
    ensures Ring(Ring(Ring(start, k, q), 1, q), j, q)
      == Ring(start, if k + 1 + j < q then k + 1 + j else k + 1 + j - q, q)
  {
  }

  lemma ReplacedRotates(c: Config, pr: Process, pr': Process, p: nat)
    requires c.Valid() && Listed(c, pr) && |pr.residents| == c.quota && Replaced(c, pr, pr', p)
    ensures var s := Select(c.algorithm, ResidentEntries(pr), pr.pointer);
      var k, line := Distance(pr.pointer, s.victim, c.quota), Off(Line(c, pr), s.cleared);
      Line(c, pr') == line[k + 1..] + line[..k] + [Chance(p, true)]
  {
    var q := c.quota;
    var s := Select(c.algorithm, ResidentEntries(pr), pr.pointer);
    var k, line := Distance(pr.pointer, s.victim, q), Off(Line(c, pr), s.cleared);
    forall j | 0 <= j < q
      ensures Line(c, pr')[j] == (line[k + 1..] + line[..k] + [Chance(p, true)])[j]
    {
      PlaceAfter(c, pr, pr', p, k, j);
      JoinedAt(line, k, Chance(p, true), j);
      hide Line, Off, Select, Distance, Replaced;
    }
    hide Off, Select, Distance, Replaced;
  }

  lemma JoinedAt(line: seq<Chance>, k: nat, x: Chance, j: nat)
    requires k < |line| && j < |line|
    ensures (line[k + 1..] + line[..k] + [x])[j] ==
      if j == |line| - 1 then x else line[if k + 1 + j < |line| then k + 1 + j else k + 1 + j - |line|]
  {
  }

  /** What the hand will meet after `j` places. */
  lemma PlaceAfter(c: Config, pr: Process, pr': Process, p: nat, k: nat, j: nat)
    requires c.Valid() && Listed(c, pr) && |pr.residents| == c.quota && Replaced(c, pr, pr', p) && j < c.quota
    requires k == Distance(pr.pointer, Select(c.algorithm, ResidentEntries(pr), pr.pointer).victim, c.quota)
    ensures var s := Select(c.algorithm, ResidentEntries(pr), pr.pointer);
      Line(c, pr')[j] == if j == c.quota - 1 then Chance(p, true)
        else Off(Line(c, pr), s.cleared)[if k + 1 + j < c.quota then k + 1 + j else k + 1 + j - c.quota]
  {
    var q, start := c.quota, pr.pointer;
    var d := if k + 1 + j < q then k + 1 + j else k + 1 + j - q;
    RingAfter(start, k, j, q);
    var i := Ring(start, d, q);
    assert Line(c, pr')[j] == Chance(pr'.residents[i], pr'.entries[pr'.residents[i]].used);
    assert Distance(start, i, q) == d;
    hide Select;
  }

  /**
   * Under both algorithms a replacement turns the queue until the victim is at its head, with the use bits of the pages
   * that the hand cleared; then the victim leaves, and the page brought in is the last that the hand will meet.
   */
  lemma ReplaceRotates(c: Config, m: Mem, t: nat, p: nat)
    requires c.Valid() && Fault(c, m, t, p) && |m.procs[t].residents| == c.quota
    ensures Sound(c, m, t, p) && Listed(c, m.procs[t]) && Listed(c, Replace(c, m, t, p).procs[t])
    ensures var pr := m.procs[t];
      var s := Select(c.algorithm, ResidentEntries(pr), pr.pointer);
      var k, line := Distance(pr.pointer, s.victim, c.quota), Off(Line(c, pr), s.cleared);
      line[k].page == Victim(c, pr)
      && Line(c, Replace(c, m, t, p).procs[t]) == line[k + 1..] + line[..k] + [Chance(p, true)]
  {
    ReplaceIs(c, m, t, p);
    ReplacedRotates(c, m.procs[t], Replace(c, m, t, p).procs[t], p);
    hide Replace, Replaced, Select, Cleared;
  }

  // ---------- CLOCK is second chance ----------

  lemma MarksAreLine(c: Config, pr: Process, j: nat)
    requires c.Valid() && Listed(c, pr) && |pr.residents| == c.quota && j < c.quota
    ensures Line(c, pr)[j].used == ResidentEntries(pr)[Ring(pr.pointer, j, c.quota)].used
  {
  }

  /** Rotating to the victim that CLOCK selects is sparing every used page before it. */
  lemma ClockSpares(c: Config, pr: Process)
    requires c.Valid() && Listed(c, pr) && |pr.residents| == c.quota
    ensures var s := SelectClock(ResidentEntries(pr), pr.pointer);
      var k, line := Distance(pr.pointer, s.victim, c.quota), Off(Line(c, pr), s.cleared);
      Spared(Line(c, pr)) == line[k..] + line[..k]
  {
    var marks, start, q := ResidentEntries(pr), pr.pointer, c.quota;
    var n := FirstFrom(marks, start, Unused);
    var line := Line(c, pr);
    forall j | 0 <= j < q ensures line[j].used == marks[Ring(start, j, q)].used {
      MarksAreLine(c, pr, j);
    }
    SparedIs(line, n, 0);
    assert line[0..] + Off(line, 0)[..0] == line;
    assert Distance(start, Ring(start, n, q), q) == if n < q then n else 0;
    hide Spared, Line, FirstFrom;
    if n < q {
      assert line[n..] == Off(line, n)[n..];
    } else {
      assert line[q..] + Off(line, q)[..q] == Off(line, q)[0..] + Off(line, q)[..0];
    }
  }

  lemma Rotated(line: seq<Chance>, k: nat)
    requires k < |line|
    ensures (line[k..] + line[..k])[0] == line[k] && (line[k..] + line[..k])[1..] == line[k + 1..] + line[..k]
  {
  }

  lemma ReplaceSpares(c: Config, m: Mem, t: nat, p: nat)
    requires c.Valid() && Fault(c, m, t, p) && |m.procs[t].residents| == c.quota && c.algorithm.Clock?
    ensures Sound(c, m, t, p) && Listed(c, m.procs[t]) && Listed(c, Replace(c, m, t, p).procs[t])
    ensures var line := Line(c, m.procs[t]);
      && Line(c, Replace(c, m, t, p).procs[t]) == Spared(line)[1..] + [Chance(p, true)]
      && Victim(c, m.procs[t]) == Spared(line)[0].page
  {
    var pr := m.procs[t];
    ReplaceRotates(c, m, t, p);
    ClockSpares(c, pr);
    var s := SelectClock(ResidentEntries(pr), pr.pointer);
    assert s == Select(c.algorithm, ResidentEntries(pr), pr.pointer);
    var k := Distance(pr.pointer, s.victim, c.quota);
    hide Replace, Line, Spared, Select, SelectClock, Inv, Sound, Victim, Fault, Listed, Distance;
    Rotated(Off(Line(c, pr), s.cleared), k);
  }

  /**
   * Under CLOCK a fault serves the pages of a process as a second-chance queue: while there are slots to fill the page
   * joins the queue; then the first page that is not spared leaves it, and the page brought in joins.
   */
  lemma ClockIsSecondChance(c: Config, m: Mem, t: nat, p: nat)
    requires c.Valid() && Fault(c, m, t, p) && c.algorithm.Clock?
    ensures Sound(c, m, t, p) && Listed(c, m.procs[t]) && Listed(c, Load(c, m, t, p).procs[t])
    ensures var line := Line(c, m.procs[t]);
      Line(c, Load(c, m, t, p).procs[t])
        == (if |line| < c.quota then line else Spared(line)[1..]) + [Chance(p, true)]
    ensures |m.procs[t].residents| == c.quota ==> Victim(c, m.procs[t]) == Spared(Line(c, m.procs[t]))[0].page
  {
    InvIsSound(c, m, t, p);
    assert ProcessOk(c, m, t) && HandOk(c, m.procs[t]);
    var pr := m.procs[t];
    if |pr.residents| < c.quota {
      ClaimJoins(c, m, t, p);
    } else {
      ReplaceSpares(c, m, t, p);
    }
    hide Line, Spared, Victim, Claim, Replace, Inv, Sound, Listed;
  }

  /** While there are slots to fill, a page brought in is the last that the hand will meet. */
  lemma ClaimJoins(c: Config, m: Mem, t: nat, p: nat)
    requires c.Valid() && Fault(c, m, t, p) && |m.procs[t].residents| < c.quota
    ensures Sound(c, m, t, p) && Listed(c, m.procs[t]) && Listed(c, Claim(c, m, t, p).procs[t])
    ensures Line(c, Claim(c, m, t, p).procs[t]) == Line(c, m.procs[t]) + [Chance(p, true)]
  {
    InvIsSound(c, m, t, p);
    assert ProcessOk(c, m, t) && HandOk(c, m.procs[t]);
    var pr, pr' := m.procs[t], Claim(c, m, t, p).procs[t];
    assert pr' == Admit(c, pr, p, FreeFrame(m));
    assert p !in pr.residents;
    hide Claim, Inv, Sound;
    forall j | 0 <= j <= |pr.residents| ensures Line(c, pr')[j] == (Line(c, pr) + [Chance(p, true)])[j] {
      assert Ring(Start(c, pr'), j, |pr.residents| + 1) == j;
      if j < |pr.residents| {
        assert Ring(Start(c, pr), j, |pr.residents|) == j && pr.residents[j] in pr.residents;
      }
    }
  }
}
