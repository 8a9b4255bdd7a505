/** The cpu's memory unit over the memory process: addresses are split, and looked up in the cache or in the tables. */
module Mmu {
  import opened Words
  import opened Options
  import opened MemoryRefinement
  import opened PagedMemory
  import opened Tlb
  import opened Translation

  datatype PhysicalAddress = PhysicalAddress(page: nat, frame: int, offset: nat, hit: bool)

  class MemoryUnit {
    const tlb: Cache
    const pageSize: nat

    constructor (pageSize: nat, capacity: nat, replacement: Replacement)
      ensures this.pageSize == pageSize && fresh(tlb)
      ensures tlb.list == [] && tlb.capacity == capacity && tlb.replacement == replacement
    {
      this.pageSize := pageSize;
      tlb := new Cache(capacity, replacement);
    }

    /** The cpu and the memory it asks agree on the page size, and are separate objects. */
    ghost predicate Connected(memory: Memory)
      reads memory.dir, memory.dir.firstLevel
    {
      memory.Shape() && pageSize == memory.c.pageSize && tlb.capacity >= 1 && tlb !in memory.dir.Objects()
    }

    ghost function TheSetup(memory: Memory): Setup {
      Setup(memory.c, tlb.replacement, tlb.capacity)
    }

    ghost function TheMachine(memory: Memory, t: nat, target: Option<nat>): Machine
      requires memory.Shape()
      reads tlb, memory, memory.dir, memory.dir.firstLevel, memory.dir.pages, memory.user.bytes, memory.registry
    {
      Machine(memory.State(), Some(t), tlb.list, target)
    }

    /** Splits a logical address and finds its frame; `t` is the first-level table of the process on the cpu. */
    method Translate(memory: Memory, t: nat, logical: nat, ghost target: Option<nat>) returns (a: PhysicalAddress)
      requires Connected(memory)
      requires Ready(TheSetup(memory), TheMachine(memory, t, target), Event.Translate(logical / pageSize))
      modifies tlb, memory`files, memory.user.bytes, memory.registry, memory.dir.Objects()
      ensures memory.Shape()
      ensures logical == a.page * pageSize + a.offset && a.offset < pageSize && a.hit && a.frame >= 0
      ensures var (s, answer) :=
        old(Move(TheSetup(memory), TheMachine(memory, t, target), Event.Translate(logical / pageSize)));
        TheMachine(memory, t, Some(a.frame)) == s && answer == Frame(a.frame)
    {
      hide Step, Servable, FrameIn, Looked, Added;
      var page := logical / pageSize;
      var offset := logical - page * pageSize;
      var frame := tlb.FindFrame(page);
      if frame >= 0 {
        return PhysicalAddress(page, frame, offset, true);
      }
      frame := memory.FrameOfPage(t, page);
      tlb.ReplaceEntry(TlbEntry(page, frame));
      return PhysicalAddress(page, frame, offset, true);
    }
  }

  /** Reads a word of a frame: of whatever page the frame table names. */
  method ReadByFrame(memory: Memory, f: nat, d: nat) returns (w: u32)
    requires memory.Shape() && f < memory.registry.Length
      && Servable(memory.c, memory.State(), Named(memory.State(), f, d))
    modifies memory`files, memory.user.bytes, memory.registry, memory.dir.Objects()
    ensures memory.Shape()
    ensures (memory.State(), Word(w)) == old(Step(memory.c, memory.State(), Named(memory.State(), f, d)))
  {
    var page := memory.registry[f].page;
    var table := memory.registry[f].table;
    w := memory.ReadInPage(table, page, d);
  }

  /** Writes a word of a frame. */
  method WriteByFrame(memory: Memory, f: nat, d: nat, w: u32) returns (ok: bool)
    requires memory.Shape() && f < memory.registry.Length
      && Servable(memory.c, memory.State(), NamedWrite(memory.State(), f, d, w))
    modifies memory`files, memory.user.bytes, memory.registry, memory.dir.Objects()
    ensures memory.Shape() && ok == (d < memory.c.pageSize)
    ensures memory.State() == old(Step(memory.c, memory.State(), NamedWrite(memory.State(), f, d, w)).0)
  {
    var page := memory.registry[f].page;
    var table := memory.registry[f].table;
    ok := memory.WriteInPage(table, page, d, w);
  }
}
