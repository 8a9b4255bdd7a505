/** What requests leave behind besides the bytes of the pages: the use and modified bits, and the swap files. */
module MemoryEffects {
  import opened MemoryModel
  import opened MemoryInvariant
  import opened MemoryRefinement
  import opened MemoryRuns

  // ---------- control bits ----------

  /** The request stores a word in the page. */
  predicate Stores(c: Config, r: Request, t: nat, p: nat) {
    r.Write? && r.t == t && r.p == p && r.d < c.pageSize
  }

  /** The request reads or stores a word of the page. */
  predicate Serves(c: Config, r: Request, t: nat, p: nat) {
    Stores(c, r, t, p) || (r.Read? && r.t == t && r.p == p && r.d < c.pageSize)
  }

  ghost predicate Present(m: Mem, t: nat, p: nat) {
    t in m.live && HasPage(m, t, p) && m.procs[t].entries[p].present
  }

  ghost predicate Modified(m: Mem, t: nat, p: nat) {
    Present(m, t, p) && m.procs[t].entries[p].modified
  }

  ghost predicate Used(m: Mem, t: nat, p: nat) {
    Present(m, t, p) && m.procs[t].entries[p].used
  }

  /** Bringing page `p` in: it comes unmodified and used, and no other page gains a bit. */
  ghost predicate BitsTouched(m: Mem, m': Mem, t: nat, p: nat, u: nat, q: nat) {
    && (Modified(m', u, q) <==> Present(m', u, q) && Modified(m, u, q))
    && (Used(m', u, q) ==> Used(m, u, q) || (u == t && q == p && !Present(m, t, p)))
    && (Present(m', u, q) ==> Present(m, u, q) || (u == t && q == p))
  }

  lemma ClaimBits(c: Config, m: Mem, t: nat, p: nat, u: nat, q: nat)
    requires c.Valid() && Fault(c, m, t, p) && |m.procs[t].residents| < c.quota
    ensures Sound(c, m, t, p) && BitsTouched(m, Claim(c, m, t, p), t, p, u, q)
  {
    InvIsSound(c, m, t, p);
    assert ProcessOk(c, m, t);
    hide Inv, Sound, Structure;
  }

  lemma PassedBits(c: Config, m: Mem, m': Mem, t: nat, p: nat, v: nat, u: nat, q: nat)
    requires HasPage(m, t, p) && HasPage(m, t, v) && !m.procs[t].entries[p].present && t in m.live
    requires m'.live == m.live && |m'.procs| == |m.procs|
    requires forall x | 0 <= x < |m.procs| && x != t :: m'.procs[x] == m.procs[x]
    requires SlotPassed(c, m.procs[t], m'.procs[t], p, v)
    ensures BitsTouched(m, m', t, p, u, q)
  {
  }

  lemma TouchBits(c: Config, m: Mem, t: nat, p: nat, u: nat, q: nat)
    requires c.Valid() && Accessible(c, m, t, p)
    ensures Sound(c, m, t, p) && BitsTouched(m, Touch(c, m, t, p), t, p, u, q)
    ensures Present(m, t, p) ==> Touch(c, m, t, p) == m
  {
    InvIsSound(c, m, t, p);
    assert ProcessOk(c, m, t);
    if !m.procs[t].entries[p].present {
      if |m.procs[t].residents| < c.quota {
        ClaimBits(c, m, t, p, u, q);
      } else {
        ReplaceForm(c, m, t, p);
        var v := Victim(c, m.procs[t]);
        hide Inv, Clean, Sound, Replace, Victim, SlotPassed, ProcessOk, BitsTouched;
        PassedBits(c, m, Replace(c, m, t, p), t, p, v, u, q);
      }
    }
    hide Inv, Clean, Sound, Replace, Claim, ProcessOk;
  }

  /**
   * What a request does to the bits of a page: stored words set the modified bit of a page that stays, losing its frame
   * clears both, a page read or written is used afterwards, and no other request sets a bit.
   */
  ghost predicate BitsAfter(c: Config, m: Mem, r: Request, m': Mem, u: nat, q: nat) {
    && (Modified(m', u, q) <==> Present(m', u, q) && (Stores(c, r, u, q) || Modified(m, u, q)))
    && (Serves(c, r, u, q) ==> Used(m', u, q))
    && (Used(m', u, q) ==> Used(m, u, q) || Serves(c, r, u, q) || (r == Locate(u, q) && !Present(m, u, q)))
  }

  /** Marking a present page used, and modified or not, after it was brought in. */
  lemma MarkBits(m: Mem, m1: Mem, m2: Mem, t: nat, p: nat, modified: bool, u: nat, q: nat)
    requires BitsTouched(m, m1, t, p, u, q) && Present(m1, t, p)
    requires m2.live == m1.live && m2.procs == Marked(m1, t, p, modified).procs
    ensures Used(m2, t, p) && (Present(m2, u, q) <==> Present(m1, u, q))
    ensures Modified(m2, u, q) <==> if u == t && q == p then modified else Modified(m1, u, q)
    ensures Used(m2, u, q) ==> Used(m, u, q) || (u == t && q == p)
  {
  }

  lemma WriteBits(c: Config, m: Mem, r: Request, u: nat, q: nat)
    requires c.Valid() && Servable(c, m, r) && r.Write? && r.d < c.pageSize
    ensures BitsAfter(c, m, r, Step(c, m, r).0, u, q)
  {
    TouchBits(c, m, r.t, r.p, u, q);
    TouchKeeps(c, m, r.t, r.p);
    AccessReady(c, m, r.t, r.p);
    var m1 := Touch(c, m, r.t, r.p);
    var m2 := Step(c, m, r).0;
    assert m2.procs == Marked(m1, r.t, r.p, true).procs && m2.live == m1.live;
    hide Inv, Clean, Sound, Touch, Step, Servable, BitsTouched, Marked, Structure, SameContents, OthersSame, AllSame;
    MarkBits(m, m1, m2, r.t, r.p, true, u, q);
    BitsGained(m, m1, r.t, r.p, u, q);
  }

  lemma ReadBits(c: Config, m: Mem, r: Request, u: nat, q: nat)
    requires c.Valid() && Servable(c, m, r) && r.Read? && r.d < c.pageSize
    ensures BitsAfter(c, m, r, Step(c, m, r).0, u, q)
  {
    TouchBits(c, m, r.t, r.p, u, q);
    TouchKeeps(c, m, r.t, r.p);
    AccessReady(c, m, r.t, r.p);
    var m1 := Touch(c, m, r.t, r.p);
    var m2 := Step(c, m, r).0;
    var modified := m1.procs[r.t].entries[r.p].modified;
    assert m2 == Marked(m1, r.t, r.p, modified);
    assert Modified(m1, r.t, r.p) <==> modified;
    hide Inv, Clean, Sound, Touch, Step, Servable, BitsTouched, Marked, Structure, SameContents, OthersSame, AllSame;
    MarkBits(m, m1, m2, r.t, r.p, modified, u, q);
    BitsGained(m, m1, r.t, r.p, u, q);
  }

  lemma BitsGained(m: Mem, m1: Mem, t: nat, p: nat, u: nat, q: nat)
    requires BitsTouched(m, m1, t, p, u, q)
    ensures Modified(m1, u, q) <==> Present(m1, u, q) && Modified(m, u, q)
  {
  }

  lemma LocateBits(c: Config, m: Mem, r: Request, u: nat, q: nat)
    requires c.Valid() && Servable(c, m, r) && r.Locate?
    ensures BitsAfter(c, m, r, Step(c, m, r).0, u, q)
  {
    TouchBits(c, m, r.t, r.p, u, q);
    assert Accessible(c, m, r.t, r.p) && Step(c, m, r).0 == Touch(c, m, r.t, r.p);
    hide Inv, Clean, Sound, Touch, Step;
  }

  lemma FailedBits(c: Config, m: Mem, r: Request, u: nat, q: nat)
    requires c.Valid() && Servable(c, m, r) && (r.Read? || r.Write?) && r.d >= c.pageSize
    ensures BitsAfter(c, m, r, Step(c, m, r).0, u, q)
  {
  }

  lemma KernelBits(c: Config, m: Mem, r: Request, u: nat, q: nat)
    requires c.Valid() && Servable(c, m, r) && (r.NewProcess? || r.SuspendProcess? || r.FinishProcess?)
    ensures BitsAfter(c, m, r, Step(c, m, r).0, u, q)
  {
    match r
    case NewProcess(size, pcb) => CreateKeeps(c, m, size, pcb);
    case SuspendProcess(t) =>
      SuspendKeeps(c, m, t);
      assert ProcessOk(c, Suspend(c, m, t), t);
    case FinishProcess(t) => FinishKeeps(c, m, t);
  }

  lemma StepBits(c: Config, m: Mem, r: Request, u: nat, q: nat)
    requires c.Valid() && Servable(c, m, r)
    ensures BitsAfter(c, m, r, Step(c, m, r).0, u, q)
  {
    hide Servable, Step, BitsAfter;
    match r
    case Read(_, _, d) =>
      if d < c.pageSize {
        ReadBits(c, m, r, u, q);
      } else {
        FailedBits(c, m, r, u, q);
      }
    case Write(_, _, d, _) =>
      if d < c.pageSize {
        WriteBits(c, m, r, u, q);
      } else {
        FailedBits(c, m, r, u, q);
      }
    case Locate(_, _) => LocateBits(c, m, r, u, q);
    case _ => KernelBits(c, m, r, u, q);
  }

  // ---------- over runs ----------

  /** The page was stored in by the requests, and has been present ever since. */
  ghost predicate StoredSince(c: Config, frames: seq<Bytes>, reqs: seq<Request>, t: nat, p: nat)
    requires c.Valid() && Frames(c, frames) && AllowedRun(c, reqs)
    decreases |reqs|
  {
    |reqs| > 0 && Present(After(c, frames, reqs), t, p)
    && (Stores(c, Last(reqs), t, p) || (AllowedPrefix(c, reqs); StoredSince(c, frames, Init(reqs), t, p)))
  }

  /** After any run, the modified bit says exactly that the page was stored in since it was last brought in. */
  lemma {:induction false} ModifiedExactly(c: Config, frames: seq<Bytes>, reqs: seq<Request>, t: nat, p: nat)
    requires c.Valid() && Frames(c, frames) && AllowedRun(c, reqs)
    ensures Modified(After(c, frames, reqs), t, p) <==> StoredSince(c, frames, reqs, t, p)
    decreases |reqs|
  {
    if |reqs| > 0 {
      AllowedPrefix(c, reqs);
      var m := After(c, frames, Init(reqs));
      StepImplements(c, m, FlatRun(c, Init(reqs)).value, Last(reqs));
      StepBits(c, m, Last(reqs), t, p);
      ModifiedExactly(c, frames, Init(reqs), t, p);
      assert After(c, frames, reqs) == Step(c, m, Last(reqs)).0;
      hide Modified, Present, Stores, Used, Step, Servable, Implements, FlatRun, Allowed;
    }
  }

  // ---------- swap files ----------

  /** Write-back slots of different pages are different. */
  lemma WriteSlotsDiffer(c: Config, p: nat, q: nat)
    requires c.Valid() && p < q
    ensures c.WriteSlot(p) < c.WriteSlot(q)
  {
    var a, b := p / c.entries, q / c.entries;
    if b < a {
      DivOrder(q, p, c.entries);
    }
    MulKeepsOrder(a, b, c.entries);
  }

  lemma DivOrder(p: nat, q: nat, k: nat)
    requires k > 0 && p / k < q / k
    ensures p < q
  {
    MulKeepsOrder(p / k + 1, q / k, k);
    assert p == p / k * k + p % k && q == q / k * k + q % k;
    assert (p / k + 1) * k == p / k * k + k;
  }

  lemma MulKeepsOrder(a: nat, b: nat, k: nat)
    requires a <= b
    ensures a * k <= b * k
  {
  }

  /** Each resident page has its bytes in its write-back slot, and no other slot of the file was written. */
  ghost predicate WrittenBack(c: Config, m: Mem, t: nat, before: seq<Bytes>, after: seq<Bytes>)
    requires c.Valid() && ResidentsHaveFrames(m, t)
  {
    var pr := m.procs[t];
    && |before| <= |after|
    && (forall i | 0 <= i < |pr.residents| ::
      c.WriteSlot(pr.residents[i]) < |after|
      && after[c.WriteSlot(pr.residents[i])] == m.frames[pr.entries[pr.residents[i]].frame])
    && forall s | 0 <= s < |before| && (forall i | 0 <= i < |pr.residents| :: c.WriteSlot(pr.residents[i]) != s) ::
      after[s] == before[s]
  }

  lemma FirstWrittenBack(c: Config, m: Mem, m1: Mem, t: nat, after: seq<Bytes>)
    requires c.Valid() && ResidentsHaveFrames(m, t) && |m.procs[t].residents| > 0 && m.procs[t].pcb in m.files
    requires forall i, j | 0 <= i < j < |m.procs[t].residents| :: m.procs[t].residents[i] != m.procs[t].residents[j]
    requires m1 == SuspendFirst(c, m, t) && ResidentsHaveFrames(m1, t)
    requires WrittenBack(c, m1, t, m1.files[m.procs[t].pcb], after)
    ensures WrittenBack(c, m, t, m.files[m.procs[t].pcb], after)
  {
    var pr, pr1 := m.procs[t], m1.procs[t];
    var v := pr.residents[0];
    var file, file1 := m.files[pr.pcb], m1.files[pr.pcb];
    WriteFileSlots(file, c.WriteSlot(v), m.frames[pr.entries[v].frame]);
    hide WriteFile, Config.WriteSlot;
    forall i | 0 <= i < |pr1.residents|
      ensures pr1.residents[i] == pr.residents[i + 1] && c.WriteSlot(pr1.residents[i]) != c.WriteSlot(v)
      ensures pr1.entries[pr1.residents[i]] == pr.entries[pr.residents[i + 1]]
    {
      WriteSlotsDiffer(c, if v < pr.residents[i + 1] then v else pr.residents[i + 1],
                       if v < pr.residents[i + 1] then pr.residents[i + 1] else v);
    }
    forall i | 0 <= i < |pr.residents|
      ensures c.WriteSlot(pr.residents[i]) < |after|
      ensures after[c.WriteSlot(pr.residents[i])] == m.frames[pr.entries[pr.residents[i]].frame]
    {
      if i > 0 {
        assert pr1.residents[i - 1] == pr.residents[i];
      }
    }
  }

  lemma {:induction false} PagesWrittenBack(c: Config, m: Mem, t: nat)
    requires c.Valid() && ResidentsHaveFrames(m, t) && m.procs[t].pcb in m.files
    requires forall i, j | 0 <= i < j < |m.procs[t].residents| :: m.procs[t].residents[i] != m.procs[t].residents[j]
    ensures m.procs[t].pcb in SuspendPages(c, m, t).files
    ensures WrittenBack(c, m, t, m.files[m.procs[t].pcb], SuspendPages(c, m, t).files[m.procs[t].pcb])
    decreases |m.procs[t].residents|
  {
    if |m.procs[t].residents| > 0 {
      var m1 := SuspendFirst(c, m, t);
      PagesWrittenBack(c, m1, t);
      FirstWrittenBack(c, m, m1, t, SuspendPages(c, m1, t).files[m.procs[t].pcb]);
    }
  }

  /** Suspending a process writes each page in memory to its write-back slot, modified or not, and no other slot. */
  lemma SuspendWritesBack(c: Config, m: Mem, t: nat)
    requires c.Valid() && Inv(c, m) && t in m.live
    ensures ResidentsHaveFrames(m, t) && m.procs[t].pcb in m.files && m.procs[t].pcb in Suspend(c, m, t).files
    ensures WrittenBack(c, m, t, m.files[m.procs[t].pcb], Suspend(c, m, t).files[m.procs[t].pcb])
  {
    LiveHaveFrames(c, m, t);
    var m0 := m.(procs := m.procs[t := m.procs[t].(pointer := 0)]);
    PagesWrittenBack(c, m0, t);
  }

  /** Finishing a process deletes its swap file unless none of its pages is in memory, and touches no other file. */
  lemma FinishDeletes(c: Config, m: Mem, t: nat)
    requires c.Valid() && Inv(c, m) && t in m.live
    ensures ResidentsHaveFrames(m, t)
    ensures Finish(m, t).files == if m.procs[t].residents == [] then m.files else m.files - {m.procs[t].pcb}
  {
    LiveHaveFrames(c, m, t);
    FilesDeleted(m, t);
  }

  lemma {:induction false} FilesDeleted(m: Mem, t: nat)
    requires ResidentsHaveFrames(m, t)
    ensures FinishPages(m, t).files == if m.procs[t].residents == [] then m.files else m.files - {m.procs[t].pcb}
    decreases |m.procs[t].residents|
  {
    if |m.procs[t].residents| > 0 {
      FilesDeleted(FinishFirst(m, t), t);
    }
  }
}
