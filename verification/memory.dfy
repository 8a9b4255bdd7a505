/**
 * The memory process: page tables, frame table, user buffer and swap files, all updated in place. Every request
 * is proved to do what module `MemoryModel` says on values.
 */
module PagedMemory {
  import opened Words
  import opened Clock
  import opened MemoryModel
  import opened MemoryInvariant
  import opened MemoryRefinement
  import opened UserSpace
  import opened PageDirectory

  class Memory {
    const c: Config
    const user: Buffer
    const registry: array<FrameInfo>
    const dir: Directory
    var files: map<nat, seq<Bytes>>
    ghost var live: set<nat>

    ghost predicate Sizes() {
      && c.Valid() && dir.c == c && user.pageSize == c.pageSize && user.bytes.Length == c.memorySize
      && registry.Length == c.Frames()
    }

    ghost predicate Shape()
      reads dir, dir.firstLevel
    {
      Sizes() && dir.Shape()
    }

    ghost function State(): (m: Mem)
      requires Shape()
      reads this, dir, dir.firstLevel, dir.pages, user.bytes, registry
      ensures |m.frames| == |m.registry| == registry.Length && |m.procs| == |dir.firstLevel|
    {
      Mem(dir.Procs(), registry[..], user.Frames(), files, live)
    }

    ghost predicate Valid()
      reads this, dir, dir.firstLevel, dir.pages, user.bytes, registry
    {
      Shape() && Inv(c, State()) && Clean(c, State())
    }

    constructor (c: Config)
      requires c.Valid()
      ensures this.c == c && Valid() && State() == Boot(c, user.Frames())
      ensures fresh(user.bytes) && fresh(registry) && fresh(dir) && fresh(dir.Objects())
    {
      this.c := c;
      user := new Buffer(c.memorySize, c.pageSize);
      registry := new FrameInfo[c.memorySize / c.pageSize](_ => FrameInfo(false, 0, 0));
      dir := new Directory(c);
      files, live := map[], {};
      new;
      assert registry[..] == seq(|registry[..]|, _ => FrameInfo(false, 0, 0));
      BootHolds(c, user.Frames());
    }

    // ---------- frames ----------

    /** Takes the lowest free frame, or answers -1. */
    method TakeFreeFrame() returns (f: int)
      requires Shape()
      modifies registry
      ensures Shape()
      ensures var m := old(State()); var free := FreeFrame(m);
        if free < |m.registry| then
          f == free && State() == m.(registry := m.registry[free := m.registry[free].(taken := true)])
        else f == -1 && State() == m
    {
      ghost var before := registry[..];
      for i := 0 to registry.Length
        invariant registry[..] == before
        invariant forall j | 0 <= j < i :: registry[j].taken
      {
        if !registry[i].taken {
          FreeIs(before, i);
          registry[i] := registry[i].(taken := true);
          assert registry[..] == before[i := before[i].(taken := true)];
          return i;
        }
      }
      FreeIs(before, registry.Length);
      f := -1;
    }

    /** Overwrites the frame-table record of frame `f`. */
    method PutInfo(f: nat, info: FrameInfo)
      requires Shape() && f < registry.Length
      modifies registry
      ensures Shape() && State() == old(State().(registry := registry[..][f := info]))
    {
      registry[f] := info;
      assert registry[..] == old(registry[..])[f := info];
    }

    // ---------- swap files ----------

    /** The slot of a process's swap file that the arguments of a read or a write name. */
    function Slot(table: nat, page: nat): nat {
      table * c.entries + page
    }

    method ReadPageSwap(pcb: nat, table: nat, page: nat) returns (data: Bytes)
      requires pcb in files && Slot(table, page) < |files[pcb]|
      ensures data == files[pcb][Slot(table, page)]
    {
      data := files[pcb][Slot(table, page)];
    }

    method WritePageSwap(pcb: nat, table: nat, page: nat, data: Bytes)
      requires pcb in files
      modifies `files
      ensures files == old(files)[pcb := WriteFile(old(files)[pcb], Slot(table, page), data)]
    {
      files := files[pcb := WriteFile(files[pcb], Slot(table, page), data)];
    }

    method DeleteFile(pcb: nat)
      requires Shape()
      modifies `files
      ensures Shape() && State() == old(State().(files := files - {pcb}))
    {
      files := files - {pcb};
    }

    /** Reads a page from the slot that both readers use into frame `f`. */
    method LoadFrame(pcb: nat, p: nat, f: nat)
      requires Shape() && f < registry.Length
      requires pcb in files && c.ReadSlot(p) < |files[pcb]| && |files[pcb][c.ReadSlot(p)]| == c.pageSize
      modifies user.bytes
      ensures Shape() && State() == old(State().(frames := user.Frames()[f := files[pcb][c.ReadSlot(p)]]))
    {
      assert c.ReadSlot(p) == Slot(p / c.entries, p % c.entries);
      var data := ReadPageSwap(pcb, p / c.entries, p % c.entries);
      user.WriteFrame(f, data);
    }

    /** Writes frame `f` to the slot that both write-backs use. */
    method WriteBack(pcb: nat, p: nat, f: nat)
      requires Shape() && pcb in files && f < registry.Length
      modifies `files
      ensures Shape()
      ensures State() == old(State().(files := files[pcb := WriteFile(files[pcb], c.WriteSlot(p), user.Frames()[f])]))
    {
      var data := user.ReadFrame(f);
      assert c.WriteSlot(p) == Slot(p / c.entries, p);
      WritePageSwap(pcb, p / c.entries, p, data);
    }

    // ---------- page tables ----------

    method AppendRecord(t: nat, p: nat, f: nat)
      requires Shape() && t < |dir.firstLevel| && p < dir.PageCount(t) && dir.firstLevel[t].pointer < c.quota
      modifies dir.Objects()
      ensures Shape() && State() == old(State().(procs := State().procs[t := Admit(c, State().procs[t], p, f)]))
    {
      dir.AppendRecord(t, p, f);
    }

    method ReplaceRecord(t: nat, p: nat, f: nat)
      requires Shape() && t < |dir.firstLevel| && p < dir.PageCount(t)
      requires dir.firstLevel[t].pointer < c.quota && dir.firstLevel[t].pointer < |dir.firstLevel[t].residents|
      modifies dir.Objects()
      ensures Shape() && State() == old(State().(procs := State().procs[t := Swap(c, State().procs[t], p, f)]))
    {
      dir.ReplaceRecord(t, p, f);
    }

    method PutEntry(t: nat, p: nat, e: Entry)
      requires Shape() && t < |dir.firstLevel| && p < dir.PageCount(t)
      modifies dir.Objects()
      ensures Shape() && State() == old(State().(procs := State().procs[t := SetEntry(State().procs[t], p, e)]))
    {
      dir.PutEntry(t, p, e);
    }

    method TurnHand(t: nat)
      requires Shape() && t < |dir.firstLevel| && ResidentsOk(c, State().procs[t])
      requires |dir.firstLevel[t].residents| == c.quota && dir.firstLevel[t].pointer < c.quota
      modifies dir.Objects()
      ensures Shape()
      ensures State() == old(State().(procs := State().procs[t := MemoryModel.TurnHand(c, State().procs[t])]))
    {
      dir.ResidentsAtHome(t);
      dir.TurnHand(t);
    }

    method PopRecord(t: nat)
      requires Shape() && t < |dir.firstLevel| && |dir.firstLevel[t].residents| > 0
      modifies dir.Objects()
      ensures Shape()
      ensures var pr := old(State().procs[t]);
        State() == old(State()).(procs := old(State()).procs[t := pr.(residents := pr.residents[1..])])
    {
      dir.PopRecord(t);
    }

    method ResetHand(t: nat)
      requires Shape() && t < |dir.firstLevel|
      modifies dir.Objects()
      ensures Shape() && State() == old(State().(procs := State().procs[t := State().procs[t].(pointer := 0)]))
    {
      dir.ResetHand(t);
    }

    // ---------- page faults ----------

    /** A fault of a process that has not filled its quota. */
    method ClaimFrame(t: nat, p: nat)
      requires Shape() && Sound(c, State(), t, p) && FreeFrame(State()) < registry.Length
      modifies user.bytes, registry, dir.Objects()
      ensures Shape() && State() == old(Claim(c, State(), t, p))
    {
      ghost var m := State();
      var f := TakeFreeFrame();
      PutInfo(f, registry[f].(page := p, table := t));
      AppendRecord(t, p, f);
      LoadFrame(dir.firstLevel[t].pcb, p, f);
      assert State() == Claim(c, m, t, p);
    }

    /** Writes the page in the slot under the hand back when it is modified, and marks it absent. */
    method Evict(t: nat) returns (f: nat)
      requires Shape() && t < |dir.firstLevel| && dir.firstLevel[t].pcb in files
      requires var pr := State().procs[t];
        && pr.pointer < |pr.residents| && pr.residents[pr.pointer] < |pr.entries|
        && pr.entries[pr.residents[pr.pointer]].frame < registry.Length
      modifies `files, dir.Objects()
      ensures Shape() && State() == old(MemoryModel.Evict(c, State(), t))
      ensures var pr := old(State().procs[t]); f == pr.entries[pr.residents[pr.pointer]].frame
    {
      ghost var m := State();
      dir.RecordAt(t, dir.firstLevel[t].pointer);
      var victim := dir.firstLevel[t].residents[dir.firstLevel[t].pointer];
      f := victim.page.frame;
      if victim.page.modified {
        WriteBack(dir.firstLevel[t].pcb, victim.number, f);
      }
      PutEntry(t, victim.number, victim.page.Value().(modified := false, present := false));
      assert State() == MemoryModel.Evict(c, m, t);
    }

    /** Puts page `p` in frame `f` and in the slot under the hand, and moves the hand on. */
    method Install(t: nat, p: nat, f: nat)
      requires Shape() && t < |dir.firstLevel| && p < dir.PageCount(t) && f < registry.Length
      requires Installable(c, State(), t, p)
      modifies user.bytes, registry, dir.Objects()
      ensures Shape() && State() == old(MemoryModel.Install(c, State(), t, p, f))
    {
      ghost var m := State();
      LoadFrame(dir.firstLevel[t].pcb, p, f);
      ReplaceRecord(t, p, f);
      PutInfo(f, registry[f].(page := p, table := t));
      assert State() == MemoryModel.Install(c, m, t, p, f);
    }

    /** A fault of a process whose quota is full: the clock's victim makes way. */
    method Replace(t: nat, p: nat)
      requires Shape() && Sound(c, State(), t, p) && |State().procs[t].residents| == c.quota
        && ResidentsOk(c, State().procs[t])
      modifies `files, user.bytes, registry, dir.Objects()
      ensures Shape() && State() == old(MemoryModel.Replace(c, State(), t, p))
    {
      ghost var m := State();
      TurnHand(t);
      assert State() == m.(procs := m.procs[t := MemoryModel.TurnHand(c, m.procs[t])]);
      TurnedIsSound(c, m, t, p);
      hide MemoryModel.TurnHand, MemoryModel.Evict, MemoryModel.Install, ResidentsOk, Sound;
      MakeWay(t, p);
    }

    /** The page under the hand leaves its frame to page `p`. */
    method MakeWay(t: nat, p: nat)
      requires Shape() && Sound(c, State(), t, p) && State().procs[t].pointer < |State().procs[t].residents|
      modifies `files, user.bytes, registry, dir.Objects()
      ensures Shape()
      ensures var m := old(State()); var pr := m.procs[t]; var f := pr.entries[pr.residents[pr.pointer]].frame;
        Installable(c, MemoryModel.Evict(c, m, t), t, p)
        && State() == MemoryModel.Install(c, MemoryModel.Evict(c, m, t), t, p, f)
    {
      EvictThenInstall(c, State(), t, p);
      hide MemoryModel.Evict, MemoryModel.Install, Installable;
      var f := Evict(t);
      Install(t, p, f);
    }

    method LoadPage(t: nat, p: nat)
      requires Shape() && Fault(c, State(), t, p)
      modifies `files, user.bytes, registry, dir.Objects()
      ensures Shape()
      ensures var m := old(State()); Sound(c, m, t, p) && State() == Load(c, m, t, p)
    {
      InvIsSound(c, State(), t, p);
      assert ProcessOk(c, State(), t);
      if |dir.firstLevel[t].residents| < c.quota {
        ClaimFrame(t, p);
      } else {
        Replace(t, p);
      }
    }

    // ---------- requests ----------

    /** Writes a word of a present page and sets its bits. */
    method StoreWord(t: nat, p: nat, d: nat, w: u32)
      requires Shape() && t < |dir.firstLevel| && p < dir.PageCount(t) && d + 4 <= c.pageSize
      requires State().procs[t].entries[p].frame < registry.Length
      modifies user.bytes, dir.Objects()
      ensures Shape()
      ensures var m := old(State()); var f := m.procs[t].entries[p].frame;
        State() == Marked(m, t, p, true).(frames := m.frames[f := Patch(m.frames[f], d, WordBytes(w))])
    {
      var page := dir.PageAt(t, p);
      user.WriteWord(page.frame, d, w);
      PutEntry(t, p, page.Value().(used := true, modified := true));
    }

    /** Reads a word of a present page and sets its use bit. */
    method FetchWord(t: nat, p: nat, d: nat) returns (w: u32)
      requires Shape() && t < |dir.firstLevel| && p < dir.PageCount(t) && d + 4 <= c.pageSize
      requires State().procs[t].entries[p].frame < registry.Length
      modifies dir.Objects()
      ensures Shape()
      ensures var m := old(State()); var e := m.procs[t].entries[p];
        |m.frames[e.frame]| == c.pageSize && w == WordAt(m.frames[e.frame], d) && State() == Marked(m, t, p, e.modified)
    {
      var page := dir.PageAt(t, p);
      w := user.ReadWord(page.frame, d);
      PutEntry(t, p, page.Value().(used := true));
    }

    /** Faults the page in when it is absent. */
    method TouchPage(t: nat, p: nat)
      requires Shape() && Accessible(c, State(), t, p)
      modifies `files, user.bytes, registry, dir.Objects()
      ensures Shape()
      ensures var m := old(State()); Sound(c, m, t, p) && State() == Touch(c, m, t, p)
    {
      InvIsSound(c, State(), t, p);
      if !dir.PageAt(t, p).present {
        LoadPage(t, p);
      }
    }

    /** Writes a word; fails when the offset is past the page. */
    method WriteInPage(t: nat, p: nat, d: nat, w: u32) returns (ok: bool)
      requires Shape() && Servable(c, State(), Write(t, p, d, w))
      modifies `files, user.bytes, registry, dir.Objects()
      ensures Shape() && ok == (d < c.pageSize)
      ensures State() == Step(c, old(State()), Write(t, p, d, w)).0
    {
      hide MemoryModel.Touch, MemoryModel.Load, MemoryInvariant.Inv, MemoryInvariant.Clean;
      if d >= c.pageSize {
        return false;
      }
      AccessReady(c, State(), t, p);
      TouchPage(t, p);
      StoreWord(t, p, d, w);
      ok := true;
    }

    /** Reads a word; an offset past the page answers the word that stands for -1. */
    method ReadInPage(t: nat, p: nat, d: nat) returns (w: u32)
      requires Shape() && Servable(c, State(), Read(t, p, d))
      modifies `files, user.bytes, registry, dir.Objects()
      ensures Shape() && (State(), Word(w)) == Step(c, old(State()), Read(t, p, d))
    {
      hide MemoryModel.Touch, MemoryModel.Load, MemoryInvariant.Inv, MemoryInvariant.Clean;
      if d >= c.pageSize {
        return NoWord;
      }
      AccessReady(c, State(), t, p);
      TouchPage(t, p);
      w := FetchWord(t, p, d);
    }

    method FrameOfPage(t: nat, p: nat) returns (f: nat)
      requires Shape() && Servable(c, State(), Locate(t, p))
      modifies `files, user.bytes, registry, dir.Objects()
      ensures Shape() && (State(), Frame(f)) == Step(c, old(State()), Locate(t, p))
    {
      AccessReady(c, State(), t, p);
      TouchPage(t, p);
      f := dir.PageAt(t, p).frame;
    }

    /** Clears the bits of the first resident page and drops its record. */
    method DropFirst(t: nat)
      requires Shape() && t < |dir.firstLevel| && |dir.firstLevel[t].residents| > 0
      modifies dir.Objects()
      ensures Shape()
      ensures var m := old(State()); var pr := m.procs[t]; var v := pr.residents[0];
        v < |pr.entries| && State() == m.(procs := m.procs[t :=
          SetEntry(pr, v, Entry(pr.entries[v].frame, false, false, false)).(residents := pr.residents[1..])])
    {
      ghost var procs := State().procs;
      dir.RecordAt(t, 0);
      var r := dir.firstLevel[t].residents[0];
      PutEntry(t, r.number, Entry(r.page.frame, false, false, false));
      assert State().procs[t].residents == procs[t].residents;
      PopRecord(t);
    }

    /** Takes the first resident page out of memory and writes it back. */
    method SuspendFirstPage(t: nat)
      requires Shape() && ResidentsHaveFrames(State(), t) && |State().procs[t].residents| > 0
        && State().procs[t].pcb in files
      modifies `files, registry, dir.Objects()
      ensures Shape() && State() == old(SuspendFirst(c, State(), t))
    {
      ghost var m := State();
      var pcb := dir.firstLevel[t].pcb;
      dir.RecordAt(t, 0);
      var r := dir.firstLevel[t].residents[0];
      var f := r.page.frame;
      WriteBack(pcb, r.number, f);
      DropFirst(t);
      PutInfo(f, registry[f].(taken := false));
      assert State() == SuspendFirst(c, m, t);
    }

    method SuspendAllPages(t: nat)
      requires Shape() && ResidentsHaveFrames(State(), t) && State().procs[t].pcb in files
      modifies `files, registry, dir.Objects()
      ensures Shape() && State() == old(SuspendPages(c, State(), t))
    {
      ghost var m := State();
      while |dir.firstLevel[t].residents| > 0
        invariant Shape() && ResidentsHaveFrames(State(), t) && State().procs[t].pcb in files
        invariant SuspendPages(c, State(), t) == SuspendPages(c, m, t)
        decreases |State().procs[t].residents|
      {
        SuspendOne(c, State(), t);
        hide SuspendFirst, SuspendPages, ResidentsHaveFrames;
        SuspendFirstPage(t);
      }
    }

    /** Suspends a process: every resident page is written back and its frame freed. */
    method Suspend(t: nat)
      requires Shape() && ResidentsHaveFrames(State(), t) && State().procs[t].pcb in files
      modifies `files, registry, dir.Objects()
      ensures Shape() && State() == old(MemoryModel.Suspend(c, State(), t))
    {
      ResetHand(t);
      SuspendAllPages(t);
    }

    /** Frees the frame of the first resident page and deletes the swap file. */
    method FinishFirstPage(t: nat)
      requires Shape() && ResidentsHaveFrames(State(), t) && |State().procs[t].residents| > 0
      modifies `files, registry, dir.Objects()
      ensures Shape() && State() == old(FinishFirst(State(), t))
    {
      ghost var m := State();
      dir.RecordAt(t, 0);
      var f := dir.firstLevel[t].residents[0].page.frame;
      PutInfo(f, registry[f].(taken := false));
      PopRecord(t);
      DeleteFile(dir.firstLevel[t].pcb);
      assert State() == FinishFirst(m, t);
    }

    method FinishAllPages(t: nat)
      requires Shape() && ResidentsHaveFrames(State(), t)
      modifies `files, registry, dir.Objects()
      ensures Shape() && State() == old(FinishPages(State(), t))
    {
      ghost var m := State();
      while |dir.firstLevel[t].residents| > 0
        invariant Shape() && ResidentsHaveFrames(State(), t)
        invariant FinishPages(State(), t) == FinishPages(m, t)
        decreases |State().procs[t].residents|
      {
        FinishOne(State(), t);
        hide FinishFirst, FinishPages, ResidentsHaveFrames;
        FinishFirstPage(t);
      }
    }

    /** Finishes a process: its frames are freed and, if it had any, its swap file is deleted. */
    method Finish(t: nat)
      requires Shape() && ResidentsHaveFrames(State(), t)
      modifies `files, `live, registry, dir.Objects()
      ensures Shape() && State() == MemoryModel.Finish(old(State()), t)
    {
      FinishPagesForm(State(), t);
      hide FinishPages, ResidentsHaveFrames;
      FinishAllPages(t);
      live := live - {t};
    }

    /** Creates a process of `size` bytes: its tables and its swap file. */
    method Create(size: nat, pcb: nat) returns (t: nat)
      requires Shape() && Servable(c, State(), NewProcess(size, pcb))
      modifies `files, `live, dir
      ensures Shape() && fresh(dir.Objects() - old(dir.Objects()))
      ensures (State(), Table(t)) == Step(c, old(State()), NewProcess(size, pcb))
    {
      ghost var m := State();
      var n := c.Pages(size);
      t := dir.AddProcess(pcb, n);
      files := files[pcb := seq(n, _ => Zeros(c.pageSize))];
      live := live + {t};
      assert State() == MemoryModel.Create(c, m, size, pcb);
    }

    // ---------- the request switch ----------

    /** Serves one request. */
    method Serve(r: Request) returns (a: Answer)
      requires Shape() && Servable(c, State(), r)
      modifies `files, `live, user.bytes, registry, dir, dir.Objects()
      ensures Shape() && fresh(dir.Objects() - old(dir.Objects()))
      ensures (State(), a) == Step(c, old(State()), r)
    {
      match r
      case NewProcess(size, pcb) =>
        var t := Create(size, pcb);
        a := Table(t);
      case Write(t, p, d, w) =>
        var ok := WriteInPage(t, p, d, w);
        a := if ok then Done else Failed;
      case Read(t, p, d) =>
        var w := ReadInPage(t, p, d);
        a := Word(w);
      case Locate(t, p) =>
        var f := FrameOfPage(t, p);
        a := Frame(f);
      case SuspendProcess(t) =>
        LiveHaveFrames(c, State(), t);
        Suspend(t);
        a := Done;
      case FinishProcess(t) =>
        LiveHaveFrames(c, State(), t);
        Finish(t);
        a := Done;
    }
  }

  /** Page `p` can take the slot under the hand of process `t`, and its own slot of the swap file can be read. */
  ghost predicate Installable(c: Config, m: Mem, t: nat, p: nat)
    requires c.Valid()
  {
    && HasPage(m, t, p) && |m.frames| == |m.registry|
    && var pr := m.procs[t];
    && pr.pointer < c.quota && pr.pointer < |pr.residents|
    && pr.pcb in m.files && c.ReadSlot(p) < |m.files[pr.pcb]| && |m.files[pr.pcb][c.ReadSlot(p)]| == c.pageSize
  }

  lemma SuspendOne(c: Config, m: Mem, t: nat)
    requires c.Valid() && ResidentsHaveFrames(m, t) && m.procs[t].pcb in m.files && |m.procs[t].residents| > 0
    ensures var m1 := SuspendFirst(c, m, t);
      && ResidentsHaveFrames(m1, t) && m1.procs[t].pcb in m1.files
      && |m1.procs[t].residents| < |m.procs[t].residents|
      && SuspendPages(c, m, t) == SuspendPages(c, m1, t)
  {
  }

  lemma FinishOne(m: Mem, t: nat)
    requires ResidentsHaveFrames(m, t) && |m.procs[t].residents| > 0
    ensures var m1 := FinishFirst(m, t);
      && ResidentsHaveFrames(m1, t) && |m1.procs[t].residents| < |m.procs[t].residents|
      && FinishPages(m, t) == FinishPages(m1, t)
  {
  }

  lemma TurnedIsSound(c: Config, m: Mem, t: nat, p: nat)
    requires c.Valid() && Sound(c, m, t, p) && |m.procs[t].residents| == c.quota
    ensures Sound(c, m.(procs := m.procs[t := TurnHand(c, m.procs[t])]), t, p)
  {
  }

  lemma EvictThenInstall(c: Config, m: Mem, t: nat, p: nat)
    requires c.Valid() && Sound(c, m, t, p) && m.procs[t].pointer < |m.procs[t].residents|
    requires forall f | 0 <= f < |m.frames| :: |m.frames[f]| == c.pageSize
    ensures Installable(c, Evict(c, m, t), t, p)
  {
    var pr := m.procs[t];
    var v := pr.residents[pr.pointer];
    WriteFileSlots(m.files[pr.pcb], c.WriteSlot(v), m.frames[pr.entries[v].frame]);
  }

  lemma FreeIs(registry: seq<FrameInfo>, i: nat, k: nat := 0)
    requires k <= i <= |registry|
    requires forall j | k <= j < i :: registry[j].taken
    requires i < |registry| ==> !registry[i].taken
    ensures FreeFrom(registry, k) == i
    decreases i - k
  {
    if k < i {
      FreeIs(registry, i, k + 1);
    }
  }
}
