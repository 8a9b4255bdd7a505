/** Whole runs of the memory process: what a read returns after any sequence of requests, and exactly when. */
module MemoryRuns {
  import opened Options
  import opened Words
  import opened MemoryModel
  import opened MemoryInvariant
  import opened FrameConservation
  import opened MemoryRefinement

  function Init(reqs: seq<Request>): seq<Request>
    requires |reqs| > 0
  {
    reqs[..|reqs| - 1]
  }

  function Last(reqs: seq<Request>): Request
    requires |reqs| > 0
  {
    reqs[|reqs| - 1]
  }

  /** The flat memory after a run; `None` when some request of it was not allowed. */
  function FlatRun(c: Config, reqs: seq<Request>): (fl: Option<Flat>)
    requires c.Valid()
    ensures fl.Some? ==> FlatSized(c, fl.value)
    decreases |reqs|
  {
    if |reqs| == 0 then Some(FlatEmpty)
    else
      match FlatRun(c, Init(reqs))
      case None => None
      case Some(fl) => if Allowed(c, fl, Last(reqs)) then Some(FlatStep(c, fl, Last(reqs))) else None
  }

  predicate AllowedRun(c: Config, reqs: seq<Request>)
    requires c.Valid()
  {
    FlatRun(c, reqs).Some?
  }

  lemma AllowedPrefix(c: Config, reqs: seq<Request>)
    requires c.Valid() && AllowedRun(c, reqs) && |reqs| > 0
    ensures AllowedRun(c, Init(reqs)) && Allowed(c, FlatRun(c, Init(reqs)).value, Last(reqs))
  {
  }

  ghost predicate Frames(c: Config, frames: seq<Bytes>)
    requires c.Valid()
  {
    |frames| == c.Frames() && forall f | 0 <= f < |frames| :: |frames[f]| == c.pageSize
  }

  /** The paged memory after an allowed run that starts with the frames as they were found. */
  ghost function After(c: Config, frames: seq<Bytes>, reqs: seq<Request>): (m: Mem)
    requires c.Valid() && Frames(c, frames) && AllowedRun(c, reqs)
    ensures Implements(c, m, FlatRun(c, reqs).value)
    decreases |reqs|
  {
    if |reqs| == 0 then BootHolds(c, frames); EmptyConserves(frames); Boot(c, frames)
    else
      AllowedPrefix(c, reqs);
      var m := After(c, frames, Init(reqs));
      StepImplements(c, m, FlatRun(c, Init(reqs)).value, Last(reqs));
      Step(c, m, Last(reqs)).0
  }

  lemma {:induction false} EmptyConserves(frames: seq<Bytes>)
    ensures Taken(seq(|frames|, _ => FrameInfo(false, 0, 0))) == 0
    decreases |frames|
  {
    if |frames| > 0 {
      var n := |frames| - 1;
      assert seq(|frames|, _ => FrameInfo(false, 0, 0))[..n] == seq(n, _ => FrameInfo(false, 0, 0));
      EmptyConserves(frames[..n]);
    }
  }

  /** The answer to the last request of an allowed run. */
  ghost function LastAnswer(c: Config, frames: seq<Bytes>, reqs: seq<Request>): Answer
    requires c.Valid() && Frames(c, frames) && AllowedRun(c, reqs) && |reqs| > 0
  {
    AllowedPrefix(c, reqs);
    var m := After(c, frames, Init(reqs));
    StepImplements(c, m, FlatRun(c, Init(reqs)).value, Last(reqs));
    Step(c, m, Last(reqs)).1
  }

  lemma Appended(reqs: seq<Request>, r: Request)
    ensures Init(reqs + [r]) == reqs && Last(reqs + [r]) == r
  {
  }

  /** Every request of every allowed run is answered as the flat memory answers it, reads of inexact pages aside. */
  lemma AnswersAreFlat(c: Config, frames: seq<Bytes>, reqs: seq<Request>, r: Request)
    requires c.Valid() && Frames(c, frames) && AllowedRun(c, reqs + [r])
    ensures AllowedRun(c, reqs) && Allowed(c, FlatRun(c, reqs).value, r)
    ensures Expected(c, FlatRun(c, reqs).value, r, LastAnswer(c, frames, reqs + [r]))
  {
    Appended(reqs, r);
    AllowedPrefix(c, reqs + [r]);
    StepImplements(c, After(c, frames, reqs), FlatRun(c, reqs).value, r);
  }

  // ---------- what holds after every run ----------

  /**
   * The frame table and the page tables are inverse: a page is in a frame exactly when the record of the frame names
   * it, and the record of a taken frame names a page of a live process that is in that frame.
   */
  lemma FramesAndPagesAreInverse(c: Config, frames: seq<Bytes>, reqs: seq<Request>, f: nat)
    requires c.Valid() && Frames(c, frames) && AllowedRun(c, reqs) && f < |After(c, frames, reqs).registry|
    ensures var m := After(c, frames, reqs);
      forall t: nat, p: nat | t in m.live && HasPage(m, t, p) ::
        m.procs[t].entries[p].present && m.procs[t].entries[p].frame == f <==> m.registry[f] == FrameInfo(true, t, p)
    ensures var m := After(c, frames, reqs); var t, p := m.registry[f].table, m.registry[f].page;
      m.registry[f].taken ==>
        t in m.live && HasPage(m, t, p) && m.procs[t].entries[p].present && m.procs[t].entries[p].frame == f
  {
    var m := After(c, frames, reqs);
    hide After, Implements;
    forall t: nat, p: nat | t in m.live && HasPage(m, t, p)
      ensures m.procs[t].entries[p].present && m.procs[t].entries[p].frame == f
        <==> m.registry[f] == FrameInfo(true, t, p)
    {
      assert ProcessOk(c, m, t);
    }
  }

  /** A clean page loses nothing when its frame is taken from it, and an absent page has both bits clear. */
  lemma DirtyBitsAreSound(c: Config, frames: seq<Bytes>, reqs: seq<Request>, t: nat, p: nat)
    requires c.Valid() && Frames(c, frames) && AllowedRun(c, reqs)
    requires var m := After(c, frames, reqs); t in m.live && HasPage(m, t, p)
    ensures var m := After(c, frames, reqs); var e := m.procs[t].entries[p]; var pcb := m.procs[t].pcb;
      && (!e.present ==> !e.used && !e.modified)
      && (e.present && !e.modified && Exact(c, p) ==>
        e.frame < |m.frames| && pcb in m.files && p < |m.files[pcb]| && m.frames[e.frame] == m.files[pcb][p])
  {
    var m := After(c, frames, reqs);
    assert ProcessOk(c, m, t);
    assert Exact(c, p) ==> CleanPage(m, t, p);
    hide After, Implements;
  }

  /** No process holds more frames than its quota, and the frames taken are those that the processes hold. */
  lemma FramesAreConserved(c: Config, frames: seq<Bytes>, reqs: seq<Request>, t: nat)
    requires c.Valid() && Frames(c, frames) && AllowedRun(c, reqs)
    requires t in After(c, frames, reqs).live
    ensures var m := After(c, frames, reqs);
      && Taken(m.registry) == Held(m.procs, m.live, |m.procs|)
      && t < |m.procs| && |m.procs[t].residents| <= c.quota
      && (|m.procs[t].residents| < c.quota ==> m.procs[t].pointer == |m.procs[t].residents|)
  {
    var m := After(c, frames, reqs);
    assert ProcessOk(c, m, t) && HandOk(c, m.procs[t]);
    hide After, Implements;
  }

  // ---------- what the flat memory holds, said without it ----------

  /** The byte last written at offset `o` of a page by the requests, or zero. */
  function LastByte(c: Config, reqs: seq<Request>, t: nat, p: nat, o: nat): byte
    decreases |reqs|
  {
    if |reqs| == 0 then 0
    else
      var r := Last(reqs);
      if r.Write? && r.t == t && r.p == p && r.d < c.pageSize && r.d <= o < r.d + 4 then WordBytes(r.w)[o - r.d]
      else LastByte(c, Init(reqs), t, p, o)
  }

  lemma {:induction false} FlatHoldsLastByte(c: Config, reqs: seq<Request>, t: nat, p: nat, o: nat)
    requires c.Valid() && AllowedRun(c, reqs) && o < c.pageSize
    ensures var fl := FlatRun(c, reqs).value;
      if t < |fl.pages| && p < |fl.pages[t]| then fl.pages[t][p][o] == LastByte(c, reqs, t, p, o)
      else LastByte(c, reqs, t, p, o) == 0
    decreases |reqs|
  {
    if |reqs| > 0 {
      AllowedPrefix(c, reqs);
      FlatHoldsLastByte(c, Init(reqs), t, p, o);
      var r := Last(reqs);
      if r.Write? && r.t == t && r.p == p && r.d < c.pageSize && r.d <= o < r.d + 4 {
        var b := WordBytes(r.w);
        var page := FlatRun(c, Init(reqs)).value.pages[t][p];
        assert Patch(page, r.d, b)[o] == Patch(page, r.d, b)[r.d..r.d + |b|][o - r.d];
      }
    }
  }

  /** The `n` bytes that the writes of a run left from offset `d` of a page on. */
  function LastBytes(c: Config, reqs: seq<Request>, t: nat, p: nat, d: nat, n: nat): (b: seq<byte>)
    ensures |b| == n
  {
    seq<byte>(n, i requires 0 <= i < n => LastByte(c, reqs, t, p, d + i))
  }

  lemma FlatHoldsLastBytes(c: Config, reqs: seq<Request>, t: nat, p: nat, d: nat, n: nat)
    requires c.Valid() && AllowedRun(c, reqs) && d + n <= c.pageSize
    requires var fl := FlatRun(c, reqs).value; t < |fl.pages| && p < |fl.pages[t]|
    ensures FlatRun(c, reqs).value.pages[t][p][d..d + n] == LastBytes(c, reqs, t, p, d, n)
  {
    var page := FlatRun(c, reqs).value.pages[t][p];
    forall i | 0 <= i < n ensures page[d..d + n][i] == LastBytes(c, reqs, t, p, d, n)[i] {
      FlatHoldsLastByte(c, reqs, t, p, d + i);
    }
  }

  lemma ReadIsFlat(c: Config, frames: seq<Bytes>, reqs: seq<Request>, t: nat, p: nat, d: nat)
    requires c.Valid() && Frames(c, frames) && AllowedRun(c, reqs + [Read(t, p, d)]) && d + 4 <= c.pageSize
      && Exact(c, p)
    ensures AllowedRun(c, reqs) && HasFlatPage(FlatRun(c, reqs).value, t, p)
    ensures LastAnswer(c, frames, reqs + [Read(t, p, d)]) == Word(WordAt(FlatRun(c, reqs).value.pages[t][p], d))
  {
    AnswersAreFlat(c, frames, reqs, Read(t, p, d));
  }

  /** A read of an exact page returns the bytes last written there, or zeros, whatever happened in between. */
  lemma ReadReturnsLastWrite(c: Config, frames: seq<Bytes>, reqs: seq<Request>, t: nat, p: nat, d: nat)
    requires c.Valid() && Frames(c, frames) && AllowedRun(c, reqs + [Read(t, p, d)]) && d + 4 <= c.pageSize
      && Exact(c, p)
    ensures LastAnswer(c, frames, reqs + [Read(t, p, d)]) == Word(BytesWord(LastBytes(c, reqs, t, p, d, 4)))
  {
    ReadIsFlat(c, frames, reqs, t, p, d);
    var page := FlatRun(c, reqs).value.pages[t][p];
    assert page[d..d + 4] == LastBytes(c, reqs, t, p, d, 4) by {
      FlatHoldsLastBytes(c, reqs, t, p, d, 4);
    }
    assert WordAt(page, d) == BytesWord(page[d..d + 4]);
  }

  // ---------- exactly which pages keep their bytes ----------

  /** Every allowed run that ends reading a word of page `p` of some process reads the bytes last written there. */
  ghost predicate PageKeepsWrites(c: Config, frames: seq<Bytes>, p: nat)
    requires c.Valid() && Frames(c, frames)
  {
    forall reqs: seq<Request>, t: nat, d: nat | AllowedRun(c, reqs + [Read(t, p, d)]) && d + 4 <= c.pageSize ::
      LastAnswer(c, frames, reqs + [Read(t, p, d)]) == Word(BytesWord(LastBytes(c, reqs, t, p, d, 4)))
  }

  lemma AfterAppended(c: Config, frames: seq<Bytes>, reqs: seq<Request>, r: Request)
    requires c.Valid() && Frames(c, frames) && AllowedRun(c, reqs + [r])
    ensures AllowedRun(c, reqs) && Servable(c, After(c, frames, reqs), r)
    ensures After(c, frames, reqs + [r]) == Step(c, After(c, frames, reqs), r).0
    ensures LastAnswer(c, frames, reqs + [r]) == Step(c, After(c, frames, reqs), r).1
  {
    Appended(reqs, r);
    AllowedPrefix(c, reqs + [r]);
    StepImplements(c, After(c, frames, reqs), FlatRun(c, reqs).value, r);
  }

  lemma AllowedAppended(c: Config, reqs: seq<Request>, r: Request)
    requires c.Valid() && AllowedRun(c, reqs) && Allowed(c, FlatRun(c, reqs).value, r)
    ensures AllowedRun(c, reqs + [r]) && FlatRun(c, reqs + [r]) == Some(FlatStep(c, FlatRun(c, reqs).value, r))
  {
    Appended(reqs, r);
  }

  lemma PagesExactly(c: Config, n: nat)
    requires c.Valid()
    ensures c.Pages(n * c.pageSize) == n
  {
    var x := n * c.pageSize + c.pageSize - 1;
    assert x == c.pageSize * n + (c.pageSize - 1);
    DivUnique(x, c.pageSize, n, c.pageSize - 1);
  }

  /** The pages of a process are those that hold a byte of it. */
  lemma PagesCover(c: Config, size: nat, q: nat)
    requires c.Valid() && size >= 1
    ensures q < c.Pages(size) <==> q * c.pageSize < size
  {
    var n := c.Pages(size);
    assert size + c.pageSize - 1 == c.pageSize * n + (size + c.pageSize - 1) % c.pageSize;
    assert (q + 1) * c.pageSize == q * c.pageSize + c.pageSize;
    assert c.pageSize * n == n * c.pageSize;
    if q < n {
      Monotone(q + 1, n, c.pageSize);
    } else {
      Monotone(n, q, c.pageSize);
    }
  }

  lemma PageOfByte(o: nat, d: nat)
    requires d > 0
    ensures o / d * d <= o
  {
  }

  /** The process has the pages that hold a byte below its size, and no other; so each of its bytes is in a page. */
  ghost predicate Covers(c: Config, m: Mem, t: nat, size: nat)
    requires c.Valid()
  {
    && (forall q: nat :: HasPage(m, t, q) <==> q * c.pageSize < size)
    && forall o: nat | o < size :: HasPage(m, t, o / c.pageSize)
  }

  lemma CreateCovers(c: Config, m: Mem, size: nat, pcb: nat)
    requires c.Valid() && size >= 1
    ensures Covers(c, Create(c, m, size, pcb), |m.procs|, size)
  {
    var m', t := Create(c, m, size, pcb), |m.procs|;
    assert |m'.procs[t].entries| == c.Pages(size);
    hide Create, Config.Pages;
    forall q: nat ensures HasPage(m', t, q) <==> q * c.pageSize < size {
      PagesCover(c, size, q);
    }
    forall o: nat | o < size ensures HasPage(m', t, o / c.pageSize) {
      PageOfByte(o, c.pageSize);
    }
  }

  /** After any allowed run that creates a process, its pages and its slots of swap are as many as its size asks for. */
  lemma CreatedPages(c: Config, frames: seq<Bytes>, reqs: seq<Request>, size: nat, pcb: nat)
    requires c.Valid() && Frames(c, frames) && AllowedRun(c, reqs + [NewProcess(size, pcb)])
    ensures var m := After(c, frames, reqs + [NewProcess(size, pcb)]);
      && |m.procs| > 0 && |m.procs| - 1 in m.live && m.procs[|m.procs| - 1].pcb == pcb
      && pcb in m.files && |m.files[pcb]| == |m.procs[|m.procs| - 1].entries|
      && Covers(c, m, |m.procs| - 1, size)
  {
    var r := NewProcess(size, pcb);
    Appended(reqs, r);
    AllowedPrefix(c, reqs + [r]);
    var before := After(c, frames, reqs);
    StepImplements(c, before, FlatRun(c, reqs).value, r);
    assert After(c, frames, reqs + [r]) == Create(c, before, size, pcb);
    hide After, Implements, Inv, Clean, FlatRun, AllowedRun, Covers;
    CreateCovers(c, before, size, pcb);
  }

  lemma DivUnique(x: nat, d: nat, q: nat, r: nat)
    requires d > 0 && r < d && x == d * q + r
    ensures x / d == q
  {
    var q', r' := x / d, x % d;
    assert d * q' + r' == d * q + r;
    assert (q' + 1) * d == d * q' + d && (q + 1) * d == d * q + d;
    if q' < q {
      Monotone(q' + 1, q, d);
    } else if q' > q {
      Monotone(q + 1, q', d);
    }
  }

  /** Create a process that has page `p`, write a one in it, suspend it. */
  function LosingRun(c: Config, p: nat): seq<Request> {
    [NewProcess((p + 1) * c.pageSize, 1)] + [Write(0, p, 0, 1)] + [SuspendProcess(0)]
  }

  /** Room in memory for one process, words inside a page, and page `p` within reach of the tables. */
  predicate Reachable(c: Config, p: nat) {
    c.Valid() && c.pageSize >= 4 && c.quota <= c.Frames() && p < c.entries * c.entries
  }

  lemma LosingRunAllowed(c: Config, p: nat)
    requires Reachable(c, p)
    ensures AllowedRun(c, [NewProcess((p + 1) * c.pageSize, 1)])
    ensures AllowedRun(c, [NewProcess((p + 1) * c.pageSize, 1)] + [Write(0, p, 0, 1)])
    ensures AllowedRun(c, LosingRun(c, p)) && AllowedRun(c, LosingRun(c, p) + [Read(0, p, 0)])
  {
    PagesExactly(c, p + 1);
    var create := NewProcess((p + 1) * c.pageSize, 1);
    assert (p + 1) * c.pageSize <= c.entries * c.entries * c.pageSize by {
      Monotone(p + 1, c.entries * c.entries, c.pageSize);
    }
    assert c.entries * c.entries * c.pageSize == c.pageSize * c.entries * c.entries;
    assert (p + 1) * c.pageSize >= 1;
    assert [] + [create] == [create];
    AllowedAppended(c, [], create);
    assert {0} == {} + {0};
    AllowedAppended(c, [create], Write(0, p, 0, 1));
    AllowedAppended(c, [create] + [Write(0, p, 0, 1)], SuspendProcess(0));
    AllowedAppended(c, LosingRun(c, p), Read(0, p, 0));
  }

  /** A process whose only resident page is inexact: suspension leaves that page's own slot as it was. */
  lemma SuspensionMissesSlot(c: Config, m: Mem, t: nat, p: nat)
    requires c.Valid() && Inv(c, m) && t in m.live && HasPage(m, t, p) && !Exact(c, p)
    requires m.procs[t].residents == [p]
    ensures ResidentsHaveFrames(m, t) && m.procs[t].pcb in m.files && p < |m.files[m.procs[t].pcb]|
    ensures var m' := Suspend(c, m, t);
      && HasPage(m', t, p) && !m'.procs[t].entries[p].present && m'.procs[t].pcb == m.procs[t].pcb
      && m'.procs[t].pcb in m'.files && p < |m'.files[m'.procs[t].pcb]|
      && m'.files[m'.procs[t].pcb][p] == m.files[m.procs[t].pcb][p]
  {
    LiveHaveFrames(c, m, t);
    SlotsCoincide(c, p);
    var pr := m.procs[t];
    var m0 := m.(procs := m.procs[t := pr.(pointer := 0)]);
    WriteFileSlots(m.files[pr.pcb], c.WriteSlot(p), m.frames[pr.entries[p].frame]);
    assert SuspendPages(c, m0, t) == SuspendPages(c, SuspendFirst(c, m0, t), t) == SuspendFirst(c, m0, t);
  }

  /** Writing to a page of a process with no resident page makes it the only resident and leaves the file as it was. */
  lemma FirstStore(c: Config, m: Mem, t: nat, p: nat, w: u32)
    requires c.Valid() && Accessible(c, m, t, p) && m.procs[t].residents == [] && 4 <= c.pageSize
    ensures Servable(c, m, Write(t, p, 0, w))
    ensures var m' := Step(c, m, Write(t, p, 0, w)).0;
      && t < |m'.procs| && m'.procs[t].residents == [p] && m'.files == m.files && m'.procs[t].pcb == m.procs[t].pcb
  {
    AccessReady(c, m, t, p);
    assert ProcessOk(c, m, t);
  }

  /** An absent page is read from its own slot of the swap file. */
  lemma ReadFromSwap(c: Config, m: Mem, t: nat, p: nat)
    requires c.Valid() && Accessible(c, m, t, p) && m.procs[t].residents == [] && 4 <= c.pageSize
    ensures m.procs[t].pcb in m.files && p < |m.files[m.procs[t].pcb]| && |m.files[m.procs[t].pcb][p]| == c.pageSize
    ensures Servable(c, m, Read(t, p, 0))
    ensures Step(c, m, Read(t, p, 0)).1 == Word(WordAt(m.files[m.procs[t].pcb][p], 0))
  {
    AccessReady(c, m, t, p);
    SlotsCoincide(c, p);
    assert ProcessOk(c, m, t);
  }

  /** Process 0 has page `p`, whose slot of the swap file still holds zeros. */
  ghost predicate SlotStillZero(c: Config, m: Mem, p: nat)
    requires c.Valid()
  {
    && Inv(c, m) && 0 in m.live && HasPage(m, 0, p)
    && m.procs[0].pcb in m.files && p < |m.files[m.procs[0].pcb]| && m.files[m.procs[0].pcb][p] == Zeros(c.pageSize)
  }

  lemma LosingCreate(c: Config, frames: seq<Bytes>, p: nat)
    requires Reachable(c, p) && Frames(c, frames)
    ensures var run := [NewProcess((p + 1) * c.pageSize, 1)];
      && AllowedRun(c, run) && SlotStillZero(c, After(c, frames, run), p)
      && After(c, frames, run).procs[0].residents == []
  {
    LosingRunAllowed(c, p);
    var create := NewProcess((p + 1) * c.pageSize, 1);
    PagesExactly(c, p + 1);
    assert [] + [create] == [create];
    AfterAppended(c, frames, [], create);
  }

  lemma LosingWrite(c: Config, frames: seq<Bytes>, p: nat)
    requires Reachable(c, p) && Frames(c, frames)
    ensures var run := [NewProcess((p + 1) * c.pageSize, 1)] + [Write(0, p, 0, 1)];
      && AllowedRun(c, run) && SlotStillZero(c, After(c, frames, run), p)
      && After(c, frames, run).procs[0].residents == [p]
  {
    LosingRunAllowed(c, p);
    LosingCreate(c, frames, p);
    var r1 := [NewProcess((p + 1) * c.pageSize, 1)];
    AfterAppended(c, frames, r1, Write(0, p, 0, 1));
    FirstStore(c, After(c, frames, r1), 0, p, 1);
    var m := After(c, frames, r1 + [Write(0, p, 0, 1)]);
    assert Inv(c, m) && 0 in m.live && ProcessOk(c, m, 0);
  }

  lemma LosingSuspend(c: Config, frames: seq<Bytes>, p: nat)
    requires Reachable(c, p) && Frames(c, frames) && !Exact(c, p)
    ensures AllowedRun(c, LosingRun(c, p)) && SlotStillZero(c, After(c, frames, LosingRun(c, p)), p)
    ensures After(c, frames, LosingRun(c, p)).procs[0].residents == []
  {
    LosingRunAllowed(c, p);
    LosingWrite(c, frames, p);
    var r2 := [NewProcess((p + 1) * c.pageSize, 1)] + [Write(0, p, 0, 1)];
    AfterAppended(c, frames, r2, SuspendProcess(0));
    var m := After(c, frames, r2);
    SuspensionMissesSlot(c, m, 0, p);
    SuspendKeeps(c, m, 0);
  }

  lemma LosingRunLoses(c: Config, frames: seq<Bytes>, p: nat)
    requires Reachable(c, p) && Frames(c, frames) && !Exact(c, p)
    ensures AllowedRun(c, LosingRun(c, p) + [Read(0, p, 0)])
    ensures LastAnswer(c, frames, LosingRun(c, p) + [Read(0, p, 0)]) == Word(0)
  {
    LosingRunAllowed(c, p);
    LosingSuspend(c, frames, p);
    AfterAppended(c, frames, LosingRun(c, p), Read(0, p, 0));
    ReadFromSwap(c, After(c, frames, LosingRun(c, p)), 0, p);
    ZeroWord(c.pageSize);
  }

  lemma ZeroWord(n: nat)
    requires n >= 4
    ensures WordAt(Zeros(n), 0) == 0
  {
  }

  lemma LosingRunWroteOne(c: Config, p: nat)
    requires c.pageSize >= 4
    ensures LastBytes(c, LosingRun(c, p), 0, p, 0, 4) == WordBytes(1)
  {
    var create := NewProcess((p + 1) * c.pageSize, 1);
    Appended([create] + [Write(0, p, 0, 1)], SuspendProcess(0));
    Appended([create], Write(0, p, 0, 1));
    forall i | 0 <= i < 4 ensures LastBytes(c, LosingRun(c, p), 0, p, 0, 4)[i] == WordBytes(1)[i] {
      assert LastByte(c, LosingRun(c, p), 0, p, i) == LastByte(c, [create] + [Write(0, p, 0, 1)], 0, p, i);
    }
  }

  /**
   * The exact condition. A page keeps what is written in it, over every run of every set of processes, if and only if
   * it lies in the first second-level table: only there do the write-back and the read use the same swap slot.
   */
  lemma PageKeepsWritesExactly(c: Config, frames: seq<Bytes>, p: nat)
    requires Reachable(c, p) && Frames(c, frames)
    ensures PageKeepsWrites(c, frames, p) <==> p < c.entries
  {
    if Exact(c, p) {
      forall reqs: seq<Request>, t: nat, d: nat | AllowedRun(c, reqs + [Read(t, p, d)]) && d + 4 <= c.pageSize
        ensures LastAnswer(c, frames, reqs + [Read(t, p, d)]) == Word(BytesWord(LastBytes(c, reqs, t, p, d, 4)))
      {
        ReadReturnsLastWrite(c, frames, reqs, t, p, d);
      }
    } else {
      LosingRunLoses(c, frames, p);
      LosingRunWroteOne(c, p);
      WordRoundTrip(1);
      assert LastAnswer(c, frames, LosingRun(c, p) + [Read(0, p, 0)])
        != Word(BytesWord(LastBytes(c, LosingRun(c, p), 0, p, 0, 4)));
    }
  }
}
