/** What every request keeps: page tables and frame table stay inverse, and frames and swap agree on clean pages. */
module MemoryInvariant {
  import opened Words
  import opened Clock
  import opened MemoryModel

  // ---------- the invariant ----------

  ghost predicate ResidentsOk(c: Config, pr: Process) {
    && |pr.residents| <= c.quota
    && (forall i, j | 0 <= i < j < |pr.residents| :: pr.residents[i] != pr.residents[j])
    && (forall i | 0 <= i < |pr.residents| :: pr.residents[i] < |pr.entries|)
    && (forall p | 0 <= p < |pr.entries| :: pr.entries[p].present <==> p in pr.residents)
    && (forall p | 0 <= p < |pr.entries| && !pr.entries[p].present :: !pr.entries[p].used && !pr.entries[p].modified)
  }

  /** The hand is on a slot; until the quota is full it is on the next slot to fill. */
  ghost predicate HandOk(c: Config, pr: Process) {
    pr.pointer < c.quota && (|pr.residents| < c.quota ==> pr.pointer == |pr.residents|)
  }

  /** The swap file has a page-sized slot for every page. */
  ghost predicate FileOk(c: Config, m: Mem, pr: Process) {
    && pr.pcb in m.files && 1 <= |pr.entries| <= |m.files[pr.pcb]|
    && forall s | 0 <= s < |m.files[pr.pcb]| :: |m.files[pr.pcb][s]| == c.pageSize
  }

  /** Every present page owns a frame, and the frame table names that process and page. */
  ghost predicate FramesNamePages(m: Mem, t: nat)
    requires t < |m.procs|
  {
    forall p | 0 <= p < |m.procs[t].entries| && m.procs[t].entries[p].present ::
      && m.procs[t].entries[p].frame < |m.registry|
      && m.registry[m.procs[t].entries[p].frame] == FrameInfo(true, t, p)
  }

  /** A taken frame is the frame of the present page of the live process that the frame table names. */
  ghost predicate PagesNameFrames(m: Mem) {
    forall f | 0 <= f < |m.registry| && m.registry[f].taken ::
      var t, p := m.registry[f].table, m.registry[f].page;
      && t in m.live && HasPage(m, t, p)
      && m.procs[t].entries[p].present && m.procs[t].entries[p].frame == f
  }

  ghost predicate ProcessOk(c: Config, m: Mem, t: nat)
    requires t < |m.procs|
  {
    ResidentsOk(c, m.procs[t]) && FileOk(c, m, m.procs[t]) && FramesNamePages(m, t)
  }

  ghost predicate MemoryOk(c: Config, m: Mem)
    requires c.Valid()
  {
    && |m.frames| == |m.registry| == c.Frames()
    && (forall f | 0 <= f < |m.frames| :: |m.frames[f]| == c.pageSize)
    && (forall t | t in m.live :: t < |m.procs|)
    && (forall t, u | t in m.live && u in m.live && m.procs[t].pcb == m.procs[u].pcb :: t == u)
  }

  /** The invariant without the hands, which hold it only between requests. */
  ghost predicate Structure(c: Config, m: Mem)
    requires c.Valid()
  {
    && MemoryOk(c, m)
    && PagesNameFrames(m)
    && forall t | t in m.live :: ProcessOk(c, m, t)
  }

  ghost predicate Inv(c: Config, m: Mem)
    requires c.Valid()
  {
    Structure(c, m) && forall t | t in m.live :: HandOk(c, m.procs[t])
  }

  /** Pages whose write-back slot is the slot they are read from: those of the first second-level table. */
  predicate Exact(c: Config, p: nat) {
    p < c.entries
  }

  /** An unmodified present page has the bytes of its swap slot. */
  ghost predicate Clean(c: Config, m: Mem)
    requires c.Valid() && Structure(c, m)
  {
    forall t, p | t in m.live && HasPage(m, t, p) && Exact(c, p) :: CleanPage(m, t, p)
  }

  ghost predicate CleanPage(m: Mem, t: nat, p: nat)
    requires HasPage(m, t, p) && FramesNamePages(m, t) && |m.frames| == |m.registry|
    requires m.procs[t].pcb in m.files && p < |m.files[m.procs[t].pcb]|
  {
    var e := m.procs[t].entries[p];
    e.present && !e.modified ==> m.frames[e.frame] == m.files[m.procs[t].pcb][p]
  }

  /** What a page holds: its frame when present, its swap slot when not. */
  ghost function Contents(m: Mem, t: nat, p: nat): Bytes
    requires HasPage(m, t, p) && FramesNamePages(m, t) && |m.frames| == |m.registry|
    requires m.procs[t].pcb in m.files && p < |m.files[m.procs[t].pcb]|
  {
    var e := m.procs[t].entries[p];
    if e.present then m.frames[e.frame] else m.files[m.procs[t].pcb][p]
  }

  // ---------- slots ----------

  lemma SlotsCoincide(c: Config, p: nat)
    requires c.Valid()
    ensures c.ReadSlot(p) == p
    ensures c.WriteSlot(p) == c.ReadSlot(p) <==> Exact(c, p)
    ensures !Exact(c, p) ==> c.WriteSlot(p) >= 2 * c.entries
  {
    var q := p / c.entries;
    assert p == q * c.entries + p % c.entries;
    if Exact(c, p) {
      assert q == 0;
    } else {
      assert q >= 1;
      assert q * c.entries >= c.entries;
    }
  }

  // ---------- a change confined to one process and one frame ----------

  ghost predicate SameShape(m: Mem, m': Mem) {
    && m'.live == m.live && |m'.procs| == |m.procs|
    && |m'.registry| == |m.registry| && |m'.frames| == |m.frames|
    && forall t | 0 <= t < |m.procs| ::
      |m'.procs[t].entries| == |m.procs[t].entries| && m'.procs[t].pcb == m.procs[t].pcb
  }

  /** Nothing changes but process `t`, its swap file and frame `f`, which is free or belongs to `t`. */
  ghost predicate Confined(m: Mem, m': Mem, t: nat, f: nat) {
    && SameShape(m, m') && t < |m.procs| && f < |m.registry|
    && (m.registry[f].taken ==> m.registry[f].table == t)
    && (forall u | 0 <= u < |m.procs| && u != t :: m'.procs[u] == m.procs[u])
    && (forall g | 0 <= g < |m.registry| && g != f :: m'.registry[g] == m.registry[g])
    && (forall g | 0 <= g < |m.frames| && g != f :: m'.frames[g] == m.frames[g])
    && (forall k | k in m.files && k != m.procs[t].pcb :: k in m'.files && m'.files[k] == m.files[k])
  }

  /** A process other than `t` cannot tell a confined change. */
  lemma OthersKeep(c: Config, m: Mem, m': Mem, t: nat, f: nat, u: nat)
    requires c.Valid() && Structure(c, m) && Confined(m, m', t, f) && u in m.live && u != t
    requires m.procs[u].pcb != m.procs[t].pcb
    ensures ProcessOk(c, m', u)
    ensures forall p | 0 <= p < |m.procs[u].entries| ::
      |m'.frames| == |m'.registry| && Contents(m', u, p) == Contents(m, u, p)
        && (CleanPage(m, u, p) ==> CleanPage(m', u, p))
  {
    assert ProcessOk(c, m, u);
    forall p | 0 <= p < |m.procs[u].entries| && m.procs[u].entries[p].present ensures m.procs[u].entries[p].frame != f {
    }
  }

  /** A confined change keeps the structure when it keeps it for its own process and frame. */
  lemma ConfinedKeeps(c: Config, m: Mem, m': Mem, t: nat, f: nat)
    requires c.Valid() && Structure(c, m) && Confined(m, m', t, f) && t in m.live
    requires |m'.frames[f]| == c.pageSize && ProcessOk(c, m', t)
    requires m'.registry[f].taken ==>
      var p := m'.registry[f].page;
      && m'.registry[f].table == t && p < |m'.procs[t].entries|
      && m'.procs[t].entries[p].present && m'.procs[t].entries[p].frame == f
    requires forall p |
        0 <= p < |m.procs[t].entries| && m.procs[t].entries[p].present && m.procs[t].entries[p].frame != f ::
      m'.procs[t].entries[p].present && m'.procs[t].entries[p].frame == m.procs[t].entries[p].frame
    ensures Structure(c, m')
  {
    forall u | u in m'.live ensures ProcessOk(c, m', u) {
      if u != t {
        OthersKeep(c, m, m', t, f, u);
      }
    }
  }

  /** Every page of a process other than `t` holds what it held. */
  ghost predicate OthersSame(c: Config, m: Mem, m': Mem, t: nat)
    requires c.Valid() && Structure(c, m) && Structure(c, m') && SameShape(m, m')
  {
    forall u, p | u in m.live && u != t && HasPage(m, u, p) :: Contents(m', u, p) == Contents(m, u, p)
  }

  /** Every page of every process holds what it held. */
  ghost predicate AllSame(c: Config, m: Mem, m': Mem)
    requires c.Valid() && Structure(c, m) && Structure(c, m') && SameShape(m, m')
  {
    forall u, p | u in m.live && HasPage(m, u, p) :: Contents(m', u, p) == Contents(m, u, p)
  }

  lemma ConfinedView(c: Config, m: Mem, m': Mem, t: nat, f: nat)
    requires c.Valid() && Structure(c, m) && Structure(c, m') && Confined(m, m', t, f) && t in m.live
    requires Clean(c, m)
    requires forall p | 0 <= p < |m.procs[t].entries| && Exact(c, p) :: ProcessOk(c, m', t) && CleanPage(m', t, p)
    ensures Clean(c, m') && OthersSame(c, m, m', t)
  {
    forall u, p | u in m.live && HasPage(m, u, p) && u != t
      ensures ProcessOk(c, m', u) && Contents(m', u, p) == Contents(m, u, p)
      ensures Exact(c, p) ==> CleanPage(m', u, p)
    {
      OthersKeep(c, m, m', t, f, u);
      assert Exact(c, p) ==> CleanPage(m, u, p);
    }
    forall u, p | u in m'.live && HasPage(m', u, p) && Exact(c, p) ensures ProcessOk(c, m', u) && CleanPage(m', u, p) {
      if u == t {
        assert CleanPage(m', t, p);
      }
    }
  }

  // ---------- what a fault keeps ----------

  /** No process can tell the two states apart through its exact pages. */
  ghost predicate SameContents(c: Config, m: Mem, m': Mem)
    requires c.Valid() && Structure(c, m) && Structure(c, m') && SameShape(m, m')
  {
    forall t, p | t in m.live && HasPage(m, t, p) && Exact(c, p) :: Contents(m', t, p) == Contents(m, t, p)
  }

  /** What a fault needs: a live process, an absent page of it, and a frame to put it in. */
  ghost predicate Fault(c: Config, m: Mem, t: nat, p: nat)
    requires c.Valid()
  {
    Inv(c, m) && t in m.live && HasPage(m, t, p) && !m.procs[t].entries[p].present && Room(c, m, t)
  }

  lemma InvIsSound(c: Config, m: Mem, t: nat, p: nat)
    requires c.Valid() && Inv(c, m) && t in m.live && HasPage(m, t, p)
    ensures Sound(c, m, t, p) && c.ReadSlot(p) == p
  {
    SlotsCoincide(c, p);
    assert ProcessOk(c, m, t) && HandOk(c, m.procs[t]);
  }

  lemma AdmitOk(c: Config, pr: Process, p: nat, f: nat)
    requires c.Valid() && ResidentsOk(c, pr) && HandOk(c, pr) && |pr.residents| < c.quota
    requires p < |pr.entries| && !pr.entries[p].present
    ensures ResidentsOk(c, Admit(c, pr, p, f)) && HandOk(c, Admit(c, pr, p, f))
  {
    assert p !in pr.residents;
  }

  lemma ClaimOwn(c: Config, m: Mem, t: nat, p: nat)
    requires c.Valid() && Fault(c, m, t, p) && |m.procs[t].residents| < c.quota
    ensures Sound(c, m, t, p) && c.ReadSlot(p) == p
    ensures var m' := Claim(c, m, t, p);
      && Confined(m, m', t, FreeFrame(m)) && ProcessOk(c, m', t) && HandOk(c, m'.procs[t])
  {
    InvIsSound(c, m, t, p);
    assert ProcessOk(c, m, t) && HandOk(c, m.procs[t]);
    AdmitOk(c, m.procs[t], p, FreeFrame(m));
    hide ResidentsOk, FreeFrame;
  }

  lemma ClaimKeeps(c: Config, m: Mem, t: nat, p: nat)
    requires c.Valid() && Fault(c, m, t, p) && |m.procs[t].residents| < c.quota && Clean(c, m)
    ensures Sound(c, m, t, p)
    ensures var m' := Claim(c, m, t, p);
      Inv(c, m') && SameShape(m, m') && Clean(c, m') && AllSame(c, m, m')
  {
    ClaimOwn(c, m, t, p);
    var m' := Claim(c, m, t, p);
    var f := FreeFrame(m);
    ConfinedKeeps(c, m, m', t, f);
    forall q | 0 <= q < |m.procs[t].entries|
      ensures Contents(m', t, q) == Contents(m, t, q)
      ensures Exact(c, q) ==> CleanPage(m', t, q)
    {
      assert ProcessOk(c, m, t);
      if q != p && m.procs[t].entries[q].present {
        assert m.procs[t].entries[q].frame != f;
      }
      assert Exact(c, q) ==> CleanPage(m, t, q);
    }
    ConfinedView(c, m, m', t, f);
  }

  lemma WriteFileSlots(file: seq<Bytes>, slot: nat, data: Bytes)
    ensures var r := WriteFile(file, slot, data);
      && |file| <= |r| && slot < |r| && r[slot] == data
      && (forall s | 0 <= s < |file| && s != slot :: r[s] == file[s])
      && (forall s | |file| <= s < |r| && s != slot :: r[s] == Zeros(|data|))
  {
  }

  /** Turning the hand clears exactly the use bits the selection prescribes, and leaves the victim's clear. */
  lemma TurnHandClears(c: Config, pr: Process)
    requires c.Valid() && ResidentsOk(c, pr) && |pr.residents| == c.quota && pr.pointer < c.quota
    ensures var r := TurnHand(c, pr);
      && (forall q | 0 <= q < |pr.entries| ::
        r.entries[q] == pr.entries[q] || (pr.entries[q].present && r.entries[q] == pr.entries[q].(used := false)))
      && ResidentEntries(r)
        == Cleared(ResidentEntries(pr), pr.pointer, Select(c.algorithm, ResidentEntries(pr), pr.pointer).cleared)
      && !r.entries[r.residents[r.pointer]].used
  {
    var marks := ResidentEntries(pr);
    var s := Select(c.algorithm, marks, pr.pointer);
    var r := TurnHand(c, pr);
    VictimIsUnusedAfterClearing(c.algorithm, marks, pr.pointer);
    PassedArePresent(c, pr, s.cleared);
    ClearedEntries(c, pr, s.cleared);
    hide Select, ResidentsOk, PassedPages, Cleared, Distance, Ring;
    assert ResidentEntries(r) == ResidentEntries(pr.(entries := r.entries));
    assert r.entries[r.residents[r.pointer]] == ResidentEntries(r)[r.pointer];
  }

  lemma PassedArePresent(c: Config, pr: Process, k: nat)
    requires c.Valid() && ResidentsOk(c, pr) && |pr.residents| == c.quota && pr.pointer < c.quota && k <= c.quota
    ensures forall p | p in PassedPages(pr.residents, pr.pointer, k) :: p < |pr.entries| && pr.entries[p].present
  {
    forall p | p in PassedPages(pr.residents, pr.pointer, k) ensures p < |pr.entries| && pr.entries[p].present {
      assert p in pr.residents;
    }
  }

  /** Clearing the pages passed clears the same entries seen in the order of the hand. */
  lemma ClearedEntries(c: Config, pr: Process, k: nat)
    requires c.Valid() && ResidentsOk(c, pr) && |pr.residents| == c.quota && pr.pointer < c.quota && k <= c.quota
    ensures var passed := PassedPages(pr.residents, pr.pointer, k);
      ResidentEntries(pr.(entries := ClearUse(pr.entries, passed))) == Cleared(ResidentEntries(pr), pr.pointer, k)
  {
    var q := c.quota;
    var passed := PassedPages(pr.residents, pr.pointer, k);
    forall i | 0 <= i < q ensures pr.residents[i] in passed <==> Distance(pr.pointer, i, q) < k {
      assert Ring(pr.pointer, Distance(pr.pointer, i, q), q) == i;
      if pr.residents[i] in passed {
        var j :| 0 <= j < k && pr.residents[Ring(pr.pointer, j, q)] == pr.residents[i];
        assert Ring(pr.pointer, j, q) == i;
      }
    }
    hide PassedPages, Ring, Distance, ResidentsOk;
  }

  /** The page whose frame a replacement takes. */
  ghost function Victim(c: Config, pr: Process): (v: nat)
    requires c.Valid() && |pr.residents| == c.quota && pr.pointer < c.quota
    requires forall i | 0 <= i < |pr.residents| :: pr.residents[i] < |pr.entries|
    ensures v in pr.residents
  {
    var r := TurnHand(c, pr);
    r.residents[r.pointer]
  }

  /** A process before and after page `p` has taken the victim's slot and frame, use bits aside. */
  ghost predicate SlotPassed(c: Config, pr: Process, pr': Process, p: nat, victim: nat)
    requires p < |pr.entries| && victim < |pr.entries|
  {
    && pr'.pcb == pr.pcb && |pr'.entries| == |pr.entries| && victim != p && pr'.pointer < c.quota
    && pr'.entries[p] == Entry(pr.entries[victim].frame, false, true, true)
    && pr'.entries[victim] == Entry(pr.entries[victim].frame, false, false, false)
    && (forall q | 0 <= q < |pr.entries| && q != p && q != victim ::
      pr'.entries[q] == pr.entries[q] || (pr.entries[q].present && pr'.entries[q] == pr.entries[q].(used := false)))
    && exists i | 0 <= i < |pr.residents| :: pr.residents[i] == victim && pr'.residents == pr.residents[i := p]
  }

  /** The rest of the memory: frame `f` passes from the victim to `p`, after a write-back if it was modified. */
  ghost predicate FramePassed(c: Config, m: Mem, m': Mem, t: nat, p: nat, victim: nat, f: nat)
    requires c.Valid() && HasPage(m, t, p) && HasPage(m, t, victim) && m.procs[t].pcb in m.files
    requires f < |m.frames| == |m.registry|
  {
    var pr := m.procs[t];
    && m'.live == m.live && |m'.procs| == |m.procs|
    && (forall u | 0 <= u < |m.procs| && u != t :: m'.procs[u] == m.procs[u])
    && m'.registry == m.registry[f := FrameInfo(m.registry[f].taken, t, p)]
    && m'.files == (if pr.entries[victim].modified
       then m.files[pr.pcb := WriteFile(m.files[pr.pcb], c.WriteSlot(victim), m.frames[f])] else m.files)
    && c.ReadSlot(p) < |m'.files[pr.pcb]|
    && m'.frames == m.frames[f := m'.files[pr.pcb][c.ReadSlot(p)]]
  }

  lemma ReplaceForm(c: Config, m: Mem, t: nat, p: nat)
    requires c.Valid() && Fault(c, m, t, p) && |m.procs[t].residents| == c.quota
    ensures Sound(c, m, t, p) && ProcessOk(c, m, t)
    ensures var m' := Replace(c, m, t, p); var v := Victim(c, m.procs[t]);
      && t < |m'.procs| && SlotPassed(c, m.procs[t], m'.procs[t], p, v)
      && FramePassed(c, m, m', t, p, v, m.procs[t].entries[v].frame)
  {
    InvIsSound(c, m, t, p);
    assert ProcessOk(c, m, t);
    TurnHandClears(c, m.procs[t]);
    var v := Victim(c, m.procs[t]);
    WriteFileSlots(m.files[m.procs[t].pcb], c.WriteSlot(v), m.frames[m.procs[t].entries[v].frame]);
  }

  lemma SlotPassedResidents(c: Config, pr: Process, pr': Process, p: nat, victim: nat)
    requires ResidentsOk(c, pr) && p < |pr.entries| && !pr.entries[p].present && victim in pr.residents
    requires SlotPassed(c, pr, pr', p, victim)
    ensures ResidentsOk(c, pr')
  {
    var i :| 0 <= i < |pr.residents| && pr.residents[i] == victim && pr'.residents == pr.residents[i := p];
    assert p !in pr.residents;
    forall q | 0 <= q < |pr'.entries| ensures pr'.entries[q].present <==> q in pr'.residents {
      if q == p {
        assert pr'.residents[i] == p;
      } else if q in pr.residents && q != victim {
        var j :| 0 <= j < |pr.residents| && pr.residents[j] == q;
        assert pr'.residents[j] == q;
      }
    }
  }

  lemma PassedStructure(c: Config, m: Mem, m': Mem, t: nat, p: nat, v: nat, f: nat)
    requires c.Valid() && Structure(c, m) && t in m.live && HasPage(m, t, p) && ProcessOk(c, m, t)
    requires !m.procs[t].entries[p].present && v in m.procs[t].residents && f == m.procs[t].entries[v].frame
    requires FramePassed(c, m, m', t, p, v, f) && SlotPassed(c, m.procs[t], m'.procs[t], p, v)
    ensures Confined(m, m', t, f) && Structure(c, m')
  {
    assert m.registry[f] == FrameInfo(true, t, v);
    SlotPassedResidents(c, m.procs[t], m'.procs[t], p, v);
    WriteFileSlots(m.files[m.procs[t].pcb], c.WriteSlot(v), m.frames[f]);
    ConfinedKeeps(c, m, m', t, f);
  }

  lemma ReplaceStructure(c: Config, m: Mem, t: nat, p: nat)
    requires c.Valid() && Fault(c, m, t, p) && |m.procs[t].residents| == c.quota
    ensures Sound(c, m, t, p) && ProcessOk(c, m, t)
    ensures var m' := Replace(c, m, t, p);
      && Confined(m, m', t, m.procs[t].entries[Victim(c, m.procs[t])].frame) && Inv(c, m')
  {
    ReplaceForm(c, m, t, p);
    var v := Victim(c, m.procs[t]);
    PassedStructure(c, m, Replace(c, m, t, p), t, p, v, m.procs[t].entries[v].frame);
  }

  /** Writing a victim back reaches its own slot when the page is exact, and never the slot of another exact page. */
  lemma WriteBackSlots(c: Config, file: seq<Bytes>, victim: nat, data: Bytes, q: nat)
    requires c.Valid() && Exact(c, q) && q < |file|
    ensures WriteFile(file, c.WriteSlot(victim), data)[q] == if q == victim then data else file[q]
  {
    SlotsCoincide(c, victim);
    SlotsCoincide(c, q);
    WriteFileSlots(file, c.WriteSlot(victim), data);
  }

  lemma ReplaceKeeps(c: Config, m: Mem, t: nat, p: nat)
    requires c.Valid() && Fault(c, m, t, p) && |m.procs[t].residents| == c.quota && Clean(c, m)
    ensures Sound(c, m, t, p)
    ensures var m' := Replace(c, m, t, p);
      && Inv(c, m') && SameShape(m, m') && Clean(c, m') && SameContents(c, m, m') && OthersSame(c, m, m', t)
  {
    ReplaceForm(c, m, t, p);
    ReplaceStructure(c, m, t, p);
    SlotsCoincide(c, p);
    var m' := Replace(c, m, t, p);
    var v := Victim(c, m.procs[t]);
    var f := m.procs[t].entries[v].frame;
    assert ProcessOk(c, m', t);
    hide Replace, Victim, Sound, ResidentsOk, WriteFile;
    forall q | 0 <= q < |m.procs[t].entries| && Exact(c, q)
      ensures Contents(m', t, q) == Contents(m, t, q) && CleanPage(m', t, q)
    {
      assert CleanPage(m, t, q);
      WriteBackSlots(c, m.files[m.procs[t].pcb], v, m.frames[f], q);
      if q != v && m.procs[t].entries[q].present {
        assert m.procs[t].entries[q].frame != f;
      }
    }
    ConfinedView(c, m, m', t, f);
  }

  // ---------- what a request keeps ----------

  /** What an access to page `p` needs: a live process that has it, and a frame for it if it is absent. */
  ghost predicate Accessible(c: Config, m: Mem, t: nat, p: nat)
    requires c.Valid()
  {
    Inv(c, m) && Clean(c, m) && t in m.live && HasPage(m, t, p) && (!m.procs[t].entries[p].present ==> Room(c, m, t))
  }

  /** Bringing a page in is invisible: no exact page of any process changes. */
  lemma TouchKeeps(c: Config, m: Mem, t: nat, p: nat)
    requires c.Valid() && Accessible(c, m, t, p)
    ensures Sound(c, m, t, p)
    ensures var m' := Touch(c, m, t, p);
      && Inv(c, m') && SameShape(m, m') && Clean(c, m') && SameContents(c, m, m') && OthersSame(c, m, m', t)
      && (m.procs[t].entries[p].present || |m.procs[t].residents| < c.quota ==> AllSame(c, m, m'))
      && m'.procs[t].entries[p].present && (!m.procs[t].entries[p].present ==> m'.procs[t].entries[p].used)
      && forall u | 0 <= u < |m.procs| && u != t :: m'.procs[u] == m.procs[u]
  {
    InvIsSound(c, m, t, p);
    if !m.procs[t].entries[p].present {
      if |m.procs[t].residents| < c.quota {
        ClaimKeeps(c, m, t, p);
      } else {
        ReplaceForm(c, m, t, p);
        ReplaceKeeps(c, m, t, p);
      }
    }
  }

  /** Setting control bits of a present page, other than clearing the modified bit, keeps everything. */
  lemma MarkKeeps(c: Config, m: Mem, t: nat, p: nat, modified: bool)
    requires c.Valid() && Inv(c, m) && Clean(c, m) && t in m.live && HasPage(m, t, p) && m.procs[t].entries[p].present
    requires m.procs[t].entries[p].modified ==> modified
    ensures var e := m.procs[t].entries[p].(used := true, modified := modified);
      var m' := m.(procs := m.procs[t := SetEntry(m.procs[t], p, e)]);
      && Inv(c, m') && SameShape(m, m') && Clean(c, m') && AllSame(c, m, m')
  {
    var e := m.procs[t].entries[p].(used := true, modified := modified);
    var m' := m.(procs := m.procs[t := SetEntry(m.procs[t], p, e)]);
    assert ProcessOk(c, m, t);
    assert ProcessOk(c, m', t);
    ConfinedKeeps(c, m, m', t, e.frame);
    forall q | 0 <= q < |m.procs[t].entries|
      ensures Contents(m', t, q) == Contents(m, t, q)
      ensures Exact(c, q) ==> CleanPage(m', t, q)
    {
      assert Exact(c, q) ==> CleanPage(m, t, q);
    }
    ConfinedView(c, m, m', t, e.frame);
  }

  /** Patching the frame of a present, modified page changes that page alone. */
  lemma PatchKeeps(c: Config, m: Mem, t: nat, p: nat, d: nat, bytes: seq<byte>)
    requires c.Valid() && Inv(c, m) && Clean(c, m) && t in m.live && HasPage(m, t, p)
    requires m.procs[t].entries[p].present && m.procs[t].entries[p].modified && d + |bytes| <= c.pageSize
    ensures m.procs[t].entries[p].frame < |m.frames| && |m.frames[m.procs[t].entries[p].frame]| == c.pageSize
    ensures var f := m.procs[t].entries[p].frame;
      var m' := m.(frames := m.frames[f := Patch(m.frames[f], d, bytes)]);
      && Inv(c, m') && SameShape(m, m') && Clean(c, m')
      && Contents(m', t, p) == Patch(m.frames[f], d, bytes)
      && OthersSame(c, m, m', t)
      && forall q | 0 <= q < |m.procs[t].entries| && q != p :: Contents(m', t, q) == Contents(m, t, q)
  {
    assert ProcessOk(c, m, t);
    var f := m.procs[t].entries[p].frame;
    var m' := m.(frames := m.frames[f := Patch(m.frames[f], d, bytes)]);
    assert ProcessOk(c, m', t);
    ConfinedKeeps(c, m, m', t, f);
    forall q | 0 <= q < |m.procs[t].entries|
      ensures q != p ==> Contents(m', t, q) == Contents(m, t, q)
      ensures Exact(c, q) ==> CleanPage(m', t, q)
    {
      if q != p && m.procs[t].entries[q].present {
        assert m.procs[t].entries[q].frame != f;
      }
      assert Exact(c, q) ==> CleanPage(m, t, q);
    }
    ConfinedView(c, m, m', t, f);
  }

  lemma LiveHaveFrames(c: Config, m: Mem, t: nat)
    requires c.Valid() && Structure(c, m) && t in m.live
    ensures ResidentsHaveFrames(m, t) && ProcessOk(c, m, t)
  {
    assert ProcessOk(c, m, t);
  }

  lemma DropFirstResident(c: Config, pr: Process)
    requires ResidentsOk(c, pr) && |pr.residents| > 0
    ensures var v := pr.residents[0];
      ResidentsOk(c, SetEntry(pr, v, Entry(pr.entries[v].frame, false, false, false)).(residents := pr.residents[1..]))
  {
    assert pr.residents == [pr.residents[0]] + pr.residents[1..];
  }

  lemma SuspendFirstStructure(c: Config, m: Mem, t: nat)
    requires c.Valid() && Structure(c, m) && t in m.live && |m.procs[t].residents| > 0
    ensures ResidentsHaveFrames(m, t) && ProcessOk(c, m, t)
    ensures var m' := SuspendFirst(c, m, t);
      Structure(c, m') && Confined(m, m', t, m.procs[t].entries[m.procs[t].residents[0]].frame)
  {
    LiveHaveFrames(c, m, t);
    var pr := m.procs[t];
    var v := pr.residents[0];
    var f := pr.entries[v].frame;
    var m' := SuspendFirst(c, m, t);
    WriteFileSlots(m.files[pr.pcb], c.WriteSlot(v), m.frames[f]);
    DropFirstResident(c, pr);
    assert m.registry[f] == FrameInfo(true, t, v) && v in pr.residents;
    assert forall q | 0 <= q < |pr.entries| && pr.entries[q].present && q != v :: pr.entries[q].frame != f;
    hide ResidentsOk, WriteFile;
    assert FramesNamePages(m', t);
    ConfinedKeeps(c, m, m', t, f);
  }

  /** Writing one resident page back and freeing its frame is invisible too, as long as its slot is the right one. */
  lemma SuspendFirstKeeps(c: Config, m: Mem, t: nat)
    requires c.Valid() && Structure(c, m) && Clean(c, m) && t in m.live && |m.procs[t].residents| > 0
    ensures ResidentsHaveFrames(m, t) && ProcessOk(c, m, t)
    ensures var m' := SuspendFirst(c, m, t);
      Structure(c, m') && SameShape(m, m') && Clean(c, m') && SameContents(c, m, m') && OthersSame(c, m, m', t)
  {
    SuspendFirstStructure(c, m, t);
    var pr := m.procs[t];
    var v := pr.residents[0];
    var f := pr.entries[v].frame;
    var m' := SuspendFirst(c, m, t);
    assert ProcessOk(c, m', t);
    forall q | 0 <= q < |pr.entries| && Exact(c, q)
      ensures Contents(m', t, q) == Contents(m, t, q) && CleanPage(m', t, q)
    {
      assert CleanPage(m, t, q);
      WriteBackSlots(c, m.files[pr.pcb], v, m.frames[f], q);
      if q != v && pr.entries[q].present {
        assert pr.entries[q].frame != f;
      }
    }
    ConfinedView(c, m, m', t, f);
  }

  lemma {:induction false} SuspendPagesKeeps(c: Config, m: Mem, t: nat)
    requires c.Valid() && Structure(c, m) && Clean(c, m) && t in m.live
    ensures ResidentsHaveFrames(m, t) && ProcessOk(c, m, t)
    ensures var m' := SuspendPages(c, m, t);
      && Structure(c, m') && SameShape(m, m') && Clean(c, m') && SameContents(c, m, m') && OthersSame(c, m, m', t)
      && (forall u | 0 <= u < |m.procs| && u != t :: m'.procs[u] == m.procs[u])
      && m'.procs[t].residents == [] && m'.procs[t].pointer == m.procs[t].pointer
    decreases |m.procs[t].residents|
  {
    LiveHaveFrames(c, m, t);
    if |m.procs[t].residents| > 0 {
      SuspendFirstKeeps(c, m, t);
      SuspendPagesKeeps(c, SuspendFirst(c, m, t), t);
    }
  }

  lemma ResetHandKeeps(c: Config, m: Mem, t: nat)
    requires c.Valid() && Structure(c, m) && Clean(c, m) && t in m.live
    ensures var m' := m.(procs := m.procs[t := m.procs[t].(pointer := 0)]);
      && Structure(c, m') && SameShape(m, m') && Clean(c, m') && AllSame(c, m, m')
  {
    var m' := m.(procs := m.procs[t := m.procs[t].(pointer := 0)]);
    forall u | u in m'.live ensures ProcessOk(c, m', u) {
      assert ProcessOk(c, m, u);
    }
    forall u, q | u in m.live && HasPage(m, u, q) && Exact(c, q) ensures CleanPage(m', u, q) {
      assert CleanPage(m, u, q);
    }
  }

  /** Suspension empties the process's share of memory and shows no process a different exact page. */
  lemma SuspendKeeps(c: Config, m: Mem, t: nat)
    requires c.Valid() && Inv(c, m) && Clean(c, m) && t in m.live
    ensures ResidentsHaveFrames(m, t) && m.procs[t].pcb in m.files
    ensures var m' := Suspend(c, m, t);
      && Inv(c, m') && SameShape(m, m') && Clean(c, m') && SameContents(c, m, m') && OthersSame(c, m, m', t)
      && m'.procs[t].residents == []
      && forall u | 0 <= u < |m.procs| && u != t :: m'.procs[u] == m.procs[u]
  {
    LiveHaveFrames(c, m, t);
    ResetHandKeeps(c, m, t);
    SuspendPagesKeeps(c, m.(procs := m.procs[t := m.procs[t].(pointer := 0)]), t);
  }

  lemma {:induction false} FinishPagesForm(m: Mem, t: nat)
    requires ResidentsHaveFrames(m, t)
    ensures var m' := FinishPages(m, t); var pr := m.procs[t];
      && m'.procs == m.procs[t := pr.(residents := [])]
      && m'.frames == m.frames && m'.live == m.live && |m'.registry| == |m.registry|
      && (forall k | k in m.files && k != pr.pcb :: k in m'.files && m'.files[k] == m.files[k])
      && forall f | 0 <= f < |m.registry| ::
        m'.registry[f] == if exists i :: 0 <= i < |pr.residents| && pr.entries[pr.residents[i]].frame == f
                          then m.registry[f].(taken := false) else m.registry[f]
    decreases |m.procs[t].residents|
  {
    var pr := m.procs[t];
    if |pr.residents| > 0 {
      FinishPagesForm(FinishFirst(m, t), t);
      assert pr.residents == [pr.residents[0]] + pr.residents[1..];
    }
  }

  /** Finishing frees the frames of `t`, and none that another process's page is in. */
  lemma FinishFrees(c: Config, m: Mem, t: nat)
    requires c.Valid() && Inv(c, m) && t in m.live
    ensures ResidentsHaveFrames(m, t)
    ensures var r := Finish(m, t).registry;
      && |r| == |m.registry|
      && forall f | 0 <= f < |r| :: r[f] == if m.registry[f].taken && m.registry[f].table == t
                                            then m.registry[f].(taken := false) else m.registry[f]
  {
    LiveHaveFrames(c, m, t);
    FinishPagesForm(m, t);
    var pr := m.procs[t];
    forall f | 0 <= f < |m.registry|
      ensures (exists i :: 0 <= i < |pr.residents| && pr.entries[pr.residents[i]].frame == f)
        <==> m.registry[f].taken && m.registry[f].table == t
    {
      if m.registry[f].taken && m.registry[f].table == t {
        assert m.registry[f].page in pr.residents;
      }
    }
  }

  /** Finishing frees exactly the process's frames; what the other processes hold does not change. */
  lemma FinishKeeps(c: Config, m: Mem, t: nat)
    requires c.Valid() && Inv(c, m) && Clean(c, m) && t in m.live
    ensures ResidentsHaveFrames(m, t)
    ensures var m' := Finish(m, t);
      && Inv(c, m') && Clean(c, m') && m'.live == m.live - {t} && |m'.procs| == |m.procs|
      && (forall u | 0 <= u < |m.procs| && u != t :: m'.procs[u] == m.procs[u])
      && forall u, p | u in m'.live && HasPage(m, u, p) ::
        ProcessOk(c, m, u) && ProcessOk(c, m', u) && Contents(m', u, p) == Contents(m, u, p)
  {
    FinishFrees(c, m, t);
    FinishPagesForm(m, t);
    OthersFinished(c, m, t, Finish(m, t));
  }

  lemma OthersFinished(c: Config, m: Mem, t: nat, m': Mem)
    requires c.Valid() && Inv(c, m) && Clean(c, m) && t in m.live
    requires m'.live == m.live - {t} && |m'.procs| == |m.procs| && m'.frames == m.frames
      && |m'.registry| == |m.registry|
    requires forall u | 0 <= u < |m.procs| && u != t :: m'.procs[u] == m.procs[u]
    requires forall k | k in m.files && k != m.procs[t].pcb :: k in m'.files && m'.files[k] == m.files[k]
    requires forall f | 0 <= f < |m.registry| ::
      m'.registry[f] ==
        if m.registry[f].taken && m.registry[f].table == t then m.registry[f].(taken := false) else m.registry[f]
    ensures Inv(c, m') && Clean(c, m')
    ensures forall u, p | u in m'.live && HasPage(m, u, p) ::
      ProcessOk(c, m, u) && ProcessOk(c, m', u) && Contents(m', u, p) == Contents(m, u, p)
  {
    forall u | u in m'.live ensures ProcessOk(c, m, u) && ProcessOk(c, m', u) {
      assert ProcessOk(c, m, u);
    }
    forall u, q | u in m'.live && HasPage(m', u, q) && Exact(c, q) ensures CleanPage(m', u, q) {
      assert CleanPage(m, u, q);
    }
  }

  /** A new process holds zeros in every page; the others keep what they hold. */
  lemma CreateKeeps(c: Config, m: Mem, size: nat, pcb: nat)
    requires c.Valid() && Inv(c, m) && Clean(c, m) && size >= 1
    requires forall u | u in m.live :: m.procs[u].pcb != pcb
    ensures var m' := Create(c, m, size, pcb);
      && Inv(c, m') && Clean(c, m') && m'.live == m.live + {|m.procs|}
      && m'.procs == m.procs + [m'.procs[|m.procs|]] && |m'.procs[|m.procs|].entries| == c.Pages(size)
      && (forall u, p | u in m.live && HasPage(m, u, p) ::
        ProcessOk(c, m, u) && ProcessOk(c, m', u) && Contents(m', u, p) == Contents(m, u, p))
      && forall p | 0 <= p < c.Pages(size) ::
        ProcessOk(c, m', |m.procs|) && Contents(m', |m.procs|, p) == Zeros(c.pageSize)
  {
    var m' := Create(c, m, size, pcb);
    assert c.Pages(size) >= 1;
    forall u | u in m.live ensures ProcessOk(c, m, u) && ProcessOk(c, m', u) {
      assert ProcessOk(c, m, u);
    }
    assert ProcessOk(c, m', |m.procs|);
    forall u, q | u in m'.live && HasPage(m', u, q) && Exact(c, q) ensures CleanPage(m', u, q) {
      if u in m.live {
        assert CleanPage(m, u, q);
      }
    }
  }

  lemma BootHolds(c: Config, frames: seq<Bytes>)
    requires c.Valid() && |frames| == c.Frames() && forall f | 0 <= f < |frames| :: |frames[f]| == c.pageSize
    ensures Inv(c, Boot(c, frames)) && Clean(c, Boot(c, frames))
  {
  }
}
