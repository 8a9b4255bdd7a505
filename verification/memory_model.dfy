/**
 * Demand-paged memory on values: what each request of the memory process does to the page tables,
 * the frame table, the frames and the swap files. A second-level lookup is already resolved here, so a
 * process is the sequence of its page entries; module `PagedMemory` holds the tables, entries and buffer themselves.
 */
module MemoryModel {
  import opened Words
  import opened Clock

  datatype Config = Config(memorySize: nat, pageSize: nat, entries: nat, quota: nat, algorithm: Algorithm) {

    predicate Valid() {
      pageSize >= 1 && entries >= 1 && quota >= 1
    }

    function Frames(): nat
      requires Valid()
    {
      memorySize / pageSize
    }

    /** The slot of the swap file that the two readers use for a page. */
    function ReadSlot(page: nat): nat
      requires Valid()
    {
      page / entries * entries + page % entries
    }

    /** The slot that the two write-back calls use: they pass the page number where the readers pass its remainder. */
    function WriteSlot(page: nat): nat
      requires Valid()
    {
      page / entries * entries + page
    }

    /** Pages needed for a process of `size` bytes. */
    function Pages(size: nat): nat
      requires Valid()
    {
      (size + pageSize - 1) / pageSize
    }
  }

  /** A page-sized run of bytes. */
  type Bytes = seq<byte>

  function Zeros(n: nat): (z: Bytes)
    ensures |z| == n
  {
    seq(n, _ => 0)
  }

  /** A frame-table record. Its page and table are meaningful while the frame is taken. */
  datatype FrameInfo = FrameInfo(taken: bool, table: nat, page: nat)

  /** A first-level table: the entry of every page, the pages that own a frame, and the hand of the clock. */
  datatype Process = Process(pcb: nat, entries: seq<Entry>, residents: seq<nat>, pointer: nat)

  /** `live` are the processes created and not finished; the program does not store it. */
  datatype Mem = Mem(procs: seq<Process>, registry: seq<FrameInfo>, frames: seq<Bytes>,
                     files: map<nat, seq<Bytes>>, live: set<nat>)

  // ---------- swap files ----------

  /** A page written at `slot`; a write past the end extends the file, with zeros in between. */
  function WriteFile(file: seq<Bytes>, slot: nat, data: Bytes): seq<Bytes> {
    if slot < |file| then file[slot := data]
    else file + seq(slot - |file|, _ => Zeros(|data|)) + [data]
  }

  // ---------- pages and frames ----------

  ghost predicate HasPage(m: Mem, t: nat, p: nat) {
    t < |m.procs| && p < |m.procs[t].entries|
  }

  function SetEntry(pr: Process, p: nat, e: Entry): Process
    requires p < |pr.entries|
  {
    pr.(entries := pr.entries[p := e])
  }

  function FreeFrom(registry: seq<FrameInfo>, i: nat): (f: nat)
    requires i <= |registry|
    ensures i <= f <= |registry|
    ensures f < |registry| ==> !registry[f].taken
    ensures forall j | i <= j < f :: registry[j].taken
    decreases |registry| - i
  {
    if i == |registry| || !registry[i].taken then i else FreeFrom(registry, i + 1)
  }

  /** The lowest free frame; the number of frames when none is free. */
  function FreeFrame(m: Mem): nat {
    FreeFrom(m.registry, 0)
  }

  // ---------- page faults ----------

  /** What the code needs of its state to serve a fault of process `t` at page `p`. */
  ghost predicate Sound(c: Config, m: Mem, t: nat, p: nat)
    requires c.Valid()
  {
    && HasPage(m, t, p)
    && |m.frames| == |m.registry|
    && var pr := m.procs[t];
    && pr.pointer < c.quota && |pr.residents| <= c.quota
    && (forall i | 0 <= i < |pr.residents| ::
      pr.residents[i] < |pr.entries| && pr.entries[pr.residents[i]].frame < |m.registry|)
    && pr.pcb in m.files && c.ReadSlot(p) < |m.files[pr.pcb]|
    && forall s | 0 <= s < |m.files[pr.pcb]| :: |m.files[pr.pcb][s]| == c.pageSize
  }

  /** The process once page `p` is its next resident, in frame `f`; the hand moves on. */
  function Admit(c: Config, pr: Process, p: nat, f: nat): Process
    requires c.Valid() && p < |pr.entries| && pr.pointer < c.quota
  {
    Process(pr.pcb,
            pr.entries[p := pr.entries[p].(frame := f, used := true, present := true)],
            pr.residents + [p],
            Ring(pr.pointer, 1, c.quota))
  }

  /** A fault while the process still has frames to claim. */
  function Claim(c: Config, m: Mem, t: nat, p: nat): Mem
    requires c.Valid() && Sound(c, m, t, p) && FreeFrame(m) < |m.registry|
  {
    var f := FreeFrame(m);
    var pr := m.procs[t];
    m.(procs := m.procs[t := Admit(c, pr, p, f)],
       registry := m.registry[f := FrameInfo(true, t, p)],
       frames := m.frames[f := m.files[pr.pcb][c.ReadSlot(p)]])
  }

  /** The entries of the pages that own a frame, in the order the hand turns over them. */
  function ResidentEntries(pr: Process): (marks: seq<Entry>)
    requires forall i | 0 <= i < |pr.residents| :: pr.residents[i] < |pr.entries|
    ensures |marks| == |pr.residents|
  {
    seq(|pr.residents|, i requires 0 <= i < |pr.residents| => pr.entries[pr.residents[i]])
  }

  /** The pages in the `k` slots from `start` on. */
  function PassedPages(residents: seq<nat>, start: nat, k: nat): set<nat>
    requires start < |residents| && k <= |residents|
  {
    set j | 0 <= j < k :: residents[Ring(start, j, |residents|)]
  }

  function ClearUse(entries: seq<Entry>, pages: set<nat>): (r: seq<Entry>)
    ensures |r| == |entries|
    ensures forall p | 0 <= p < |r| :: r[p] == if p in pages then entries[p].(used := false) else entries[p]
  {
    seq(|entries|, p requires 0 <= p < |entries| => if p in pages then entries[p].(used := false) else entries[p])
  }

  /** Turns the hand to the victim's slot, clearing the use bits it passes. */
  function TurnHand(c: Config, pr: Process): (r: Process)
    requires c.Valid() && |pr.residents| == c.quota && pr.pointer < c.quota
    requires forall i | 0 <= i < |pr.residents| :: pr.residents[i] < |pr.entries|
    ensures r.pcb == pr.pcb && r.residents == pr.residents && |r.entries| == |pr.entries| && r.pointer < c.quota
  {
    var s := Select(c.algorithm, ResidentEntries(pr), pr.pointer);
    pr.(entries := ClearUse(pr.entries, PassedPages(pr.residents, pr.pointer, s.cleared)), pointer := s.victim)
  }

  /** Writes the page in the slot under the hand back to swap when it is modified, and marks it absent. */
  function Evict(c: Config, m: Mem, t: nat): Mem
    requires c.Valid() && t < |m.procs| && m.procs[t].pcb in m.files && |m.frames| == |m.registry|
    requires var pr := m.procs[t];
      && pr.pointer < |pr.residents| && pr.residents[pr.pointer] < |pr.entries|
      && pr.entries[pr.residents[pr.pointer]].frame < |m.frames|
  {
    var pr := m.procs[t];
    var v := pr.residents[pr.pointer];
    var e := pr.entries[v];
    m.(procs := m.procs[t := SetEntry(pr, v, e.(modified := false, present := false))],
       files := if e.modified then m.files[pr.pcb := WriteFile(m.files[pr.pcb], c.WriteSlot(v), m.frames[e.frame])]
                else m.files)
  }

  /** The process once page `p` has the slot under the hand and frame `f`; the hand moves on. */
  function Swap(c: Config, pr: Process, p: nat, f: nat): Process
    requires c.Valid() && p < |pr.entries| && pr.pointer < |pr.residents| && pr.pointer < c.quota
  {
    Process(pr.pcb,
            pr.entries[p := pr.entries[p].(frame := f, used := true, present := true)],
            pr.residents[pr.pointer := p],
            Ring(pr.pointer, 1, c.quota))
  }

  /** Loads page `p` into frame `f`, which the slot under the hand owns, and advances the hand. */
  function Install(c: Config, m: Mem, t: nat, p: nat, f: nat): Mem
    requires c.Valid() && HasPage(m, t, p) && f < |m.frames| == |m.registry|
    requires var pr := m.procs[t];
      && pr.pointer < |pr.residents| && pr.pointer < c.quota
      && pr.pcb in m.files && c.ReadSlot(p) < |m.files[pr.pcb]|
  {
    var pr := m.procs[t];
    m.(procs := m.procs[t := Swap(c, pr, p, f)],
       registry := m.registry[f := FrameInfo(m.registry[f].taken, t, p)],
       frames := m.frames[f := m.files[pr.pcb][c.ReadSlot(p)]])
  }

  /** A fault when the process already holds its quota of frames. */
  function Replace(c: Config, m: Mem, t: nat, p: nat): Mem
    requires c.Valid() && Sound(c, m, t, p) && |m.procs[t].residents| == c.quota
  {
    var pr := TurnHand(c, m.procs[t]);
    var m1 := m.(procs := m.procs[t := pr]);
    var f := pr.entries[pr.residents[pr.pointer]].frame;
    Install(c, Evict(c, m1, t), t, p, f)
  }

  /** A frame can be found for process `t`: it holds its quota, or some frame is free. */
  ghost predicate Room(c: Config, m: Mem, t: nat) {
    t < |m.procs| && (|m.procs[t].residents| < c.quota ==> FreeFrame(m) < |m.registry|)
  }

  function Load(c: Config, m: Mem, t: nat, p: nat): Mem
    requires c.Valid() && Sound(c, m, t, p) && Room(c, m, t)
  {
    if |m.procs[t].residents| < c.quota then Claim(c, m, t, p) else Replace(c, m, t, p)
  }

  /** Makes page `p` present. */
  function Touch(c: Config, m: Mem, t: nat, p: nat): Mem
    requires c.Valid() && Sound(c, m, t, p)
    requires !m.procs[t].entries[p].present ==> Room(c, m, t)
  {
    if m.procs[t].entries[p].present then m else Load(c, m, t, p)
  }

  // ---------- requests ----------

  /** Setting the use bit, and the modified bit or not, of a present page. */
  function Marked(m: Mem, t: nat, p: nat, modified: bool): Mem
    requires HasPage(m, t, p)
  {
    var e := m.procs[t].entries[p];
    m.(procs := m.procs[t := SetEntry(m.procs[t], p, e.(used := true, modified := modified))])
  }

  /** Stores the word at offset `d` of page `p`, faulting the page in when it is absent. */
  function Store(c: Config, m: Mem, t: nat, p: nat, d: nat, w: u32): Mem
    requires c.Valid() && Sound(c, m, t, p) && d + 4 <= c.pageSize
    requires !m.procs[t].entries[p].present ==> Room(c, m, t)
    requires var m1 := Touch(c, m, t, p);
      && HasPage(m1, t, p) && m1.procs[t].entries[p].frame < |m1.frames|
      && |m1.frames[m1.procs[t].entries[p].frame]| == c.pageSize
  {
    var m1 := Marked(Touch(c, m, t, p), t, p, true);
    var f := m1.procs[t].entries[p].frame;
    m1.(frames := m1.frames[f := Patch(m1.frames[f], d, WordBytes(w))])
  }

  /** State after a read at an offset inside the page: the page is present and used. */
  function Fetch(c: Config, m: Mem, t: nat, p: nat): Mem
    requires c.Valid() && Sound(c, m, t, p)
    requires !m.procs[t].entries[p].present ==> Room(c, m, t)
    requires HasPage(Touch(c, m, t, p), t, p)
  {
    var m1 := Touch(c, m, t, p);
    Marked(m1, t, p, m1.procs[t].entries[p].modified)
  }

  /** Takes the first resident page out of memory, writing it back whether or not it was modified. */
  function SuspendFirst(c: Config, m: Mem, t: nat): Mem
    requires c.Valid() && t < |m.procs| && m.procs[t].pcb in m.files && |m.frames| == |m.registry|
    requires var pr := m.procs[t];
      |pr.residents| > 0 && pr.residents[0] < |pr.entries| && pr.entries[pr.residents[0]].frame < |m.frames|
  {
    var pr := m.procs[t];
    var v := pr.residents[0];
    var e := pr.entries[v];
    m.(procs := m.procs[t := SetEntry(pr, v, Entry(e.frame, false, false, false)).(residents := pr.residents[1..])],
       registry := m.registry[e.frame := m.registry[e.frame].(taken := false)],
       files := m.files[pr.pcb := WriteFile(m.files[pr.pcb], c.WriteSlot(v), m.frames[e.frame])])
  }

  /** Frees the frame of the first resident page and deletes the swap file; the entry itself is left as it was. */
  function FinishFirst(m: Mem, t: nat): Mem
    requires t < |m.procs|
    requires var pr := m.procs[t];
      |pr.residents| > 0 && pr.residents[0] < |pr.entries| && pr.entries[pr.residents[0]].frame < |m.registry|
  {
    var pr := m.procs[t];
    var f := pr.entries[pr.residents[0]].frame;
    m.(procs := m.procs[t := pr.(residents := pr.residents[1..])],
       registry := m.registry[f := m.registry[f].(taken := false)],
       files := m.files - {pr.pcb})
  }

  ghost predicate ResidentsHaveFrames(m: Mem, t: nat) {
    && t < |m.procs| && |m.frames| == |m.registry|
    && forall i | 0 <= i < |m.procs[t].residents| ::
      && m.procs[t].residents[i] < |m.procs[t].entries|
      && m.procs[t].entries[m.procs[t].residents[i]].frame < |m.registry|
  }

  function SuspendPages(c: Config, m: Mem, t: nat): Mem
    requires c.Valid() && ResidentsHaveFrames(m, t) && m.procs[t].pcb in m.files
    decreases |m.procs[t].residents|
  {
    if |m.procs[t].residents| == 0 then m else SuspendPages(c, SuspendFirst(c, m, t), t)
  }

  function Suspend(c: Config, m: Mem, t: nat): Mem
    requires c.Valid() && ResidentsHaveFrames(m, t) && m.procs[t].pcb in m.files
  {
    SuspendPages(c, m.(procs := m.procs[t := m.procs[t].(pointer := 0)]), t)
  }

  function FinishPages(m: Mem, t: nat): Mem
    requires ResidentsHaveFrames(m, t)
    decreases |m.procs[t].residents|
  {
    if |m.procs[t].residents| == 0 then m else FinishPages(FinishFirst(m, t), t)
  }

  function Finish(m: Mem, t: nat): Mem
    requires ResidentsHaveFrames(m, t)
  {
    FinishPages(m, t).(live := m.live - {t})
  }

  /** A new process: no page present, and a swap file of zeros with a slot for every page. */
  function Create(c: Config, m: Mem, size: nat, pcb: nat): Mem
    requires c.Valid()
  {
    var n := c.Pages(size);
    m.(procs := m.procs + [Process(pcb, seq(n, _ => Entry(0, false, false, false)), [], 0)],
       files := m.files[pcb := seq(n, _ => Zeros(c.pageSize))],
       live := m.live + {|m.procs|})
  }

  /** Memory as configured at start-up, with no process and every frame free. */
  function Boot(c: Config, frames: seq<Bytes>): Mem {
    Mem([], seq(|frames|, _ => FrameInfo(false, 0, 0)), frames, map[], {})
  }
}
