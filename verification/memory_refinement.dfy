/** Paged memory with swap implements one flat, zero-initialised memory per process. */
module MemoryRefinement {
  import opened Words
  import opened MemoryModel
  import opened MemoryInvariant
  import opened FrameConservation

  /** A request of the kernel or the cpu; `Locate` asks for the frame of a page. */
  datatype Request =
    | NewProcess(size: nat, pcb: nat)
    | Write(t: nat, p: nat, d: nat, w: u32)
    | Read(t: nat, p: nat, d: nat)
    | Locate(t: nat, p: nat)
    | SuspendProcess(t: nat)
    | FinishProcess(t: nat)

  datatype Answer = Table(t: nat) | Done | Failed | Word(w: u32) | Frame(f: nat)

  /** What a read outside the page answers: the word that `-1` stands for. */
  const NoWord: u32 := 0xFFFF_FFFF

  // ---------- the flat memory ----------

  /** The bytes of every page of every process; `touched` has the processes that may hold frames. */
  datatype Flat = Flat(pages: seq<seq<Bytes>>, pcbs: seq<nat>, live: set<nat>, touched: set<nat>)

  const FlatEmpty := Flat([], [], {}, {})

  predicate Fits(c: Config, fl: Flat, t: nat)
    requires c.Valid()
  {
    |fl.touched + {t}| * c.quota <= c.Frames()
  }

  predicate HasFlatPage(fl: Flat, t: nat, p: nat) {
    t in fl.live && t < |fl.pages| && p < |fl.pages[t]|
  }

  /** The requests a client may make: existing processes and pages, whole words, no more quotas than fit in memory. */
  predicate Allowed(c: Config, fl: Flat, r: Request)
    requires c.Valid()
  {
    match r
    case NewProcess(size, pcb) =>
      1 <= size <= c.pageSize * c.entries * c.entries
      && forall u | u in fl.live :: u < |fl.pcbs| && fl.pcbs[u] != pcb
    case Write(t, p, d, _) => HasFlatPage(fl, t, p) && (d < c.pageSize ==> d + 4 <= c.pageSize && Fits(c, fl, t))
    case Read(t, p, d) => HasFlatPage(fl, t, p) && (d < c.pageSize ==> d + 4 <= c.pageSize && Fits(c, fl, t))
    case Locate(t, p) => HasFlatPage(fl, t, p) && Fits(c, fl, t)
    case SuspendProcess(t) => t in fl.live && t < |fl.pages|
    case FinishProcess(t) => t in fl.live && t < |fl.pages|
  }

  ghost predicate FlatSized(c: Config, fl: Flat) {
    forall t, p | 0 <= t < |fl.pages| && 0 <= p < |fl.pages[t]| :: |fl.pages[t][p]| == c.pageSize
  }

  function FlatStep(c: Config, fl: Flat, r: Request): Flat
    requires c.Valid() && FlatSized(c, fl) && Allowed(c, fl, r)
  {
    match r
    case NewProcess(size, pcb) =>
      Flat(fl.pages + [seq(c.Pages(size), _ => Zeros(c.pageSize))], fl.pcbs + [pcb], fl.live + {|fl.pages|}, fl.touched)
    case Write(t, p, d, w) =>
      if d >= c.pageSize then fl
      else fl.(pages := fl.pages[t := fl.pages[t][p := Patch(fl.pages[t][p], d, WordBytes(w))]],
        touched := fl.touched + {t})
    case Read(t, _, d) => if d >= c.pageSize then fl else fl.(touched := fl.touched + {t})
    case Locate(t, _) => fl.(touched := fl.touched + {t})
    case SuspendProcess(t) => fl.(touched := fl.touched - {t})
    case FinishProcess(t) => fl.(touched := fl.touched - {t}, live := fl.live - {t})
  }

  // ---------- the paged memory as a server of requests ----------

  /** The offset is past the page, or the whole word is inside it and the page can be brought in. */
  ghost predicate WordAccess(c: Config, m: Mem, t: nat, p: nat, d: nat)
    requires c.Valid()
  {
    t in m.live && HasPage(m, t, p) && (d < c.pageSize ==> d + 4 <= c.pageSize && Accessible(c, m, t, p))
  }

  ghost predicate Servable(c: Config, m: Mem, r: Request)
    requires c.Valid()
  {
    && Inv(c, m) && Clean(c, m)
    && match r
       case NewProcess(size, pcb) => size >= 1 && forall u | u in m.live :: m.procs[u].pcb != pcb
       case Write(t, p, d, _) => WordAccess(c, m, t, p, d)
       case Read(t, p, d) => WordAccess(c, m, t, p, d)
       case Locate(t, p) => Accessible(c, m, t, p)
       case SuspendProcess(t) => t in m.live
       case FinishProcess(t) => t in m.live
  }

  /** A word access is well defined after bringing its page in. */
  lemma AccessReady(c: Config, m: Mem, t: nat, p: nat)
    requires c.Valid() && Accessible(c, m, t, p)
    ensures Sound(c, m, t, p)
    ensures var m1 := Touch(c, m, t, p);
      && HasPage(m1, t, p) && m1.procs[t].entries[p].present
      && m1.procs[t].entries[p].frame < |m1.frames| && |m1.frames[m1.procs[t].entries[p].frame]| == c.pageSize
  {
    TouchKeeps(c, m, t, p);
    assert ProcessOk(c, Touch(c, m, t, p), t);
  }

  function WordAt(b: Bytes, d: nat): u32
    requires d + 4 <= |b|
  {
    BytesWord(b[d..d + 4])
  }

  ghost function Step(c: Config, m: Mem, r: Request): (Mem, Answer)
    requires c.Valid() && Servable(c, m, r)
  {
    match r
    case NewProcess(size, pcb) => (Create(c, m, size, pcb), Table(|m.procs|))
    case Write(t, p, d, w) =>
      if d >= c.pageSize then (m, Failed) else AccessReady(c, m, t, p); (Store(c, m, t, p, d, w), Done)
    case Read(t, p, d) =>
      if d >= c.pageSize then (m, Word(NoWord)) else
        AccessReady(c, m, t, p);
        var m1 := Touch(c, m, t, p);
        (Fetch(c, m, t, p), Word(WordAt(m1.frames[m1.procs[t].entries[p].frame], d)))
    case Locate(t, p) =>
      AccessReady(c, m, t, p);
      var m1 := Touch(c, m, t, p);
      (m1, Frame(m1.procs[t].entries[p].frame))
    case SuspendProcess(t) => LiveHaveFrames(c, m, t); (Suspend(c, m, t), Done)
    case FinishProcess(t) => LiveHaveFrames(c, m, t); (Finish(m, t), Done)
  }

  // ---------- the relation between the two ----------

  /** Equal on every exact page; the frames are held by processes the flat memory knows to be touched. */
  ghost predicate Implements(c: Config, m: Mem, fl: Flat)
    requires c.Valid()
  {
    && Inv(c, m) && Clean(c, m) && Conserved(m) && FlatSized(c, fl)
    && m.live == fl.live && |m.procs| == |fl.pages| == |fl.pcbs|
    && (forall t | 0 <= t < |m.procs| :: m.procs[t].pcb == fl.pcbs[t] && |m.procs[t].entries| == |fl.pages[t]|)
    && Holders(m) <= fl.touched <= fl.live
    && SamePages(c, m, fl)
  }

  ghost predicate SamePages(c: Config, m: Mem, fl: Flat)
    requires c.Valid() && Structure(c, m) && m.live == fl.live && |m.procs| == |fl.pages|
    requires forall t | 0 <= t < |m.procs| :: |m.procs[t].entries| == |fl.pages[t]|
  {
    forall t: nat, p: nat | t in m.live && HasPage(m, t, p) && Exact(c, p) :: Contents(m, t, p) == fl.pages[t][p]
  }

  /** The answer a client of the flat memory expects; a read of an inexact page is promised nothing. */
  ghost predicate Expected(c: Config, fl: Flat, r: Request, a: Answer)
    requires c.Valid() && FlatSized(c, fl) && Allowed(c, fl, r)
  {
    match r
    case NewProcess(_, _) => a == Table(|fl.pages|)
    case Write(_, _, d, _) => a == if d >= c.pageSize then Failed else Done
    case Read(t, p, d) =>
      if d >= c.pageSize then a == Word(NoWord) else Exact(c, p) ==> a == Word(WordAt(fl.pages[t][p], d))
    case Locate(_, _) => a.Frame?
    case SuspendProcess(_) => a == Done
    case FinishProcess(_) => a == Done
  }

  lemma AllowedIsServable(c: Config, m: Mem, fl: Flat, r: Request)
    requires c.Valid() && Implements(c, m, fl) && Allowed(c, fl, r)
    ensures Servable(c, m, r)
  {
    if r.Write? || r.Read? || r.Locate? {
      if r.Locate? || r.d < c.pageSize {
        RoomWhileQuotasFit(c, m, r.t, fl.touched + {r.t});
      }
    }
  }

  // ---------- every request is served as the flat memory would ----------

  /** A change to process `t` that no exact page shows, given who may hold frames afterwards. */
  lemma Unseen(c: Config, m: Mem, m': Mem, fl: Flat, t: nat, touched: set<nat>)
    requires c.Valid() && Implements(c, m, fl) && t in m.live
    requires Inv(c, m') && Clean(c, m') && Conserved(m') && SameShape(m, m') && SameContents(c, m, m')
    requires forall u | 0 <= u < |m.procs| && u != t :: m'.procs[u] == m.procs[u]
    requires touched - {t} == fl.touched - {t} && (m'.procs[t].residents != [] ==> t in touched)
    ensures Implements(c, m', fl.(touched := touched))
  {
    forall u: nat, q: nat | u in m'.live && HasPage(m', u, q) && Exact(c, q)
      ensures Contents(m', u, q) == fl.pages[u][q]
    {
      assert HasPage(m, u, q);
      assert Contents(m, u, q) == fl.pages[u][q];
    }
    forall u | u in Holders(m') ensures u in touched {
      if u != t {
        assert u in Holders(m);
        assert u in touched - {t};
      }
    }
    assert touched <= fl.live by {
      assert touched <= (touched - {t}) + {t};
    }
  }

  lemma TouchImplements(c: Config, m: Mem, fl: Flat, t: nat, p: nat)
    requires c.Valid() && Implements(c, m, fl) && Accessible(c, m, t, p)
    ensures Sound(c, m, t, p)
    ensures var m1 := Touch(c, m, t, p);
      Implements(c, m1, fl.(touched := fl.touched + {t})) && m1.procs[t].entries[p].present
  {
    TouchKeeps(c, m, t, p);
    TouchConserves(c, m, t, p);
    Unseen(c, m, Touch(c, m, t, p), fl, t, fl.touched + {t});
  }

  lemma PresentPage(c: Config, m: Mem, fl: Flat, t: nat, p: nat)
    requires c.Valid() && Implements(c, m, fl) && t in m.live && HasPage(m, t, p) && m.procs[t].entries[p].present
    ensures m.procs[t].entries[p].frame < |m.frames|
    ensures Exact(c, p) ==> m.frames[m.procs[t].entries[p].frame] == fl.pages[t][p]
  {
    assert ProcessOk(c, m, t);
    assert Exact(c, p) ==> Contents(m, t, p) == fl.pages[t][p];
  }

  lemma MarkImplements(c: Config, m: Mem, fl: Flat, t: nat, p: nat, modified: bool)
    requires c.Valid() && Implements(c, m, fl) && t in m.live && HasPage(m, t, p) && m.procs[t].entries[p].present
    requires m.procs[t].entries[p].modified ==> modified
    ensures Implements(c, Marked(m, t, p, modified), fl)
  {
    MarkKeeps(c, m, t, p, modified);
    var m' := Marked(m, t, p, modified);
    HeldUpdate(m.procs, m.live, |m.procs|, t, m'.procs[t]);
    Unseen(c, m, m', fl, t, fl.touched);
  }

  lemma ReadImplements(c: Config, m: Mem, fl: Flat, r: Request)
    requires c.Valid() && Implements(c, m, fl) && Allowed(c, fl, r) && Servable(c, m, r) && r.Read?
    ensures var (m', a) := Step(c, m, r); Implements(c, m', FlatStep(c, fl, r)) && Expected(c, fl, r, a)
  {
    if r.d < c.pageSize {
      TouchImplements(c, m, fl, r.t, r.p);
      var m1 := Touch(c, m, r.t, r.p);
      MarkImplements(c, m1, FlatStep(c, fl, r), r.t, r.p, m1.procs[r.t].entries[r.p].modified);
      PresentPage(c, m1, FlatStep(c, fl, r), r.t, r.p);
    }
  }

  lemma WriteImplements(c: Config, m: Mem, fl: Flat, r: Request)
    requires c.Valid() && Implements(c, m, fl) && Allowed(c, fl, r) && Servable(c, m, r) && r.Write?
    ensures var (m', a) := Step(c, m, r); Implements(c, m', FlatStep(c, fl, r)) && Expected(c, fl, r, a)
  {
    if r.d < c.pageSize {
      TouchImplements(c, m, fl, r.t, r.p);
      var m1 := Touch(c, m, r.t, r.p);
      var fl1 := fl.(touched := fl.touched + {r.t});
      MarkImplements(c, m1, fl1, r.t, r.p, true);
      PatchImplements(c, Marked(m1, r.t, r.p, true), fl1, r.t, r.p, r.d, r.w);
    }
  }

  lemma PatchImplements(c: Config, m: Mem, fl: Flat, t: nat, p: nat, d: nat, w: u32)
    requires c.Valid() && Implements(c, m, fl) && HasFlatPage(fl, t, p) && d + 4 <= c.pageSize
    requires HasPage(m, t, p) && m.procs[t].entries[p].present && m.procs[t].entries[p].modified
    ensures m.procs[t].entries[p].frame < |m.frames| && |m.frames[m.procs[t].entries[p].frame]| == c.pageSize
    ensures var f := m.procs[t].entries[p].frame;
      Implements(c, m.(frames := m.frames[f := Patch(m.frames[f], d, WordBytes(w))]),
                 fl.(pages := fl.pages[t := fl.pages[t][p := Patch(fl.pages[t][p], d, WordBytes(w))]]))
  {
    PatchKeeps(c, m, t, p, d, WordBytes(w));
    var f := m.procs[t].entries[p].frame;
    var m' := m.(frames := m.frames[f := Patch(m.frames[f], d, WordBytes(w))]);
    var fl' := fl.(pages := fl.pages[t := fl.pages[t][p := Patch(fl.pages[t][p], d, WordBytes(w))]]);
    forall u: nat, q: nat | u in m'.live && HasPage(m', u, q) && Exact(c, q)
      ensures Contents(m', u, q) == fl'.pages[u][q]
    {
      assert HasPage(m, u, q);
      assert Contents(m, u, q) == fl.pages[u][q];
    }
  }

  lemma LocateImplements(c: Config, m: Mem, fl: Flat, r: Request)
    requires c.Valid() && Implements(c, m, fl) && Allowed(c, fl, r) && Servable(c, m, r) && r.Locate?
    ensures var (m', a) := Step(c, m, r); Implements(c, m', FlatStep(c, fl, r)) && Expected(c, fl, r, a)
  {
    TouchImplements(c, m, fl, r.t, r.p);
  }

  lemma SuspendImplements(c: Config, m: Mem, fl: Flat, r: Request)
    requires c.Valid() && Implements(c, m, fl) && Allowed(c, fl, r) && Servable(c, m, r) && r.SuspendProcess?
    ensures var (m', a) := Step(c, m, r); Implements(c, m', FlatStep(c, fl, r)) && Expected(c, fl, r, a)
  {
    SuspendKeeps(c, m, r.t);
    SuspendConserves(c, m, r.t);
    Unseen(c, m, Suspend(c, m, r.t), fl, r.t, fl.touched - {r.t});
  }

  /** A change that leaves every process but the finished one as it is. */
  lemma UnseenFinish(c: Config, m: Mem, m': Mem, fl: Flat, t: nat)
    requires c.Valid() && Implements(c, m, fl) && t in m.live
    requires Inv(c, m') && Clean(c, m') && Conserved(m') && m'.live == m.live - {t} && |m'.procs| == |m.procs|
    requires m'.procs[t] == m.procs[t].(residents := [])
    requires forall u | 0 <= u < |m.procs| && u != t :: m'.procs[u] == m.procs[u]
    requires forall u, q | u in m'.live && HasPage(m, u, q) ::
      ProcessOk(c, m, u) && ProcessOk(c, m', u) && Contents(m', u, q) == Contents(m, u, q)
    ensures Implements(c, m', fl.(touched := fl.touched - {t}, live := fl.live - {t}))
  {
    forall u: nat, q: nat | u in m'.live && HasPage(m', u, q) && Exact(c, q)
      ensures Contents(m', u, q) == fl.pages[u][q]
    {
      assert HasPage(m, u, q);
      assert Contents(m, u, q) == fl.pages[u][q];
    }
    forall u | u in Holders(m') ensures u in fl.touched - {t} {
      assert u in Holders(m);
    }
  }

  lemma FinishImplements(c: Config, m: Mem, fl: Flat, r: Request)
    requires c.Valid() && Implements(c, m, fl) && Allowed(c, fl, r) && Servable(c, m, r) && r.FinishProcess?
    ensures var (m', a) := Step(c, m, r); Implements(c, m', FlatStep(c, fl, r)) && Expected(c, fl, r, a)
  {
    FinishKeeps(c, m, r.t);
    FinishConserves(c, m, r.t);
    FinishPagesForm(m, r.t);
    UnseenFinish(c, m, Finish(m, r.t), fl, r.t);
  }

  lemma CreateImplements(c: Config, m: Mem, fl: Flat, r: Request)
    requires c.Valid() && Implements(c, m, fl) && Allowed(c, fl, r) && Servable(c, m, r) && r.NewProcess?
    ensures var (m', a) := Step(c, m, r); Implements(c, m', FlatStep(c, fl, r)) && Expected(c, fl, r, a)
  {
    CreateKeeps(c, m, r.size, r.pcb);
    CreateConserves(c, m, r.size, r.pcb);
    var m', fl' := Create(c, m, r.size, r.pcb), FlatStep(c, fl, r);
    forall u: nat, q: nat | u in m'.live && HasPage(m', u, q) && Exact(c, q)
      ensures Contents(m', u, q) == fl'.pages[u][q]
    {
      if u in m.live {
        assert HasPage(m, u, q);
        assert Contents(m, u, q) == fl.pages[u][q];
      }
    }
  }

  lemma StepImplements(c: Config, m: Mem, fl: Flat, r: Request)
    requires c.Valid() && Implements(c, m, fl) && Allowed(c, fl, r)
    ensures Servable(c, m, r)
    ensures var (m', a) := Step(c, m, r); Implements(c, m', FlatStep(c, fl, r)) && Expected(c, fl, r, a)
  {
    AllowedIsServable(c, m, fl, r);
    match r
    case NewProcess(_, _) => CreateImplements(c, m, fl, r);
    case Write(_, _, _, _) => WriteImplements(c, m, fl, r);
    case Read(_, _, _) => ReadImplements(c, m, fl, r);
    case Locate(_, _) => LocateImplements(c, m, fl, r);
    case SuspendProcess(_) => SuspendImplements(c, m, fl, r);
    case FinishProcess(_) => FinishImplements(c, m, fl, r);
  }

  // ---------- processes do not see each other ----------

  /** The request is not made by process `u`. */
  predicate OfAnother(r: Request, u: nat) {
    match r
    case NewProcess(_, _) => true
    case Write(t, _, _, _) => t != u
    case Read(t, _, _) => t != u
    case Locate(t, _) => t != u
    case SuspendProcess(t) => t != u
    case FinishProcess(t) => t != u
  }

  /** Process `u` is live before and after, with every page holding what it held. */
  ghost predicate Untouched(c: Config, m: Mem, m': Mem, u: nat)
    requires c.Valid() && Inv(c, m)
  {
    && Inv(c, m') && u in m.live && u in m'.live
    && forall q | HasPage(m, u, q) ::
      HasPage(m', u, q) && ProcessOk(c, m, u) && ProcessOk(c, m', u) && Contents(m', u, q) == Contents(m, u, q)
  }

  lemma UntouchedBy(c: Config, m: Mem, m': Mem, t: nat, u: nat)
    requires c.Valid() && Inv(c, m) && Inv(c, m') && SameShape(m, m') && OthersSame(c, m, m', t)
    requires u in m.live && u != t
    ensures Untouched(c, m, m', u)
  {
    forall q | HasPage(m, u, q)
      ensures HasPage(m', u, q) && ProcessOk(c, m, u) && ProcessOk(c, m', u) && Contents(m', u, q) == Contents(m, u, q)
    {
      assert ProcessOk(c, m, u) && ProcessOk(c, m', u);
    }
  }

  lemma UntouchedThen(c: Config, m: Mem, m1: Mem, m2: Mem, u: nat)
    requires c.Valid() && Inv(c, m) && Inv(c, m1) && Untouched(c, m, m1, u) && Untouched(c, m1, m2, u)
    ensures Untouched(c, m, m2, u)
  {
    forall q | HasPage(m, u, q)
      ensures HasPage(m2, u, q) && ProcessOk(c, m, u) && ProcessOk(c, m2, u) && Contents(m2, u, q) == Contents(m, u, q)
    {
      assert HasPage(m1, u, q) && Contents(m1, u, q) == Contents(m, u, q);
    }
    hide ProcessOk;
  }

  lemma MarkUntouched(c: Config, m: Mem, t: nat, p: nat, modified: bool, u: nat)
    requires c.Valid() && Inv(c, m) && Clean(c, m) && t in m.live && HasPage(m, t, p) && m.procs[t].entries[p].present
    requires (m.procs[t].entries[p].modified ==> modified) && u in m.live && u != t
    ensures Untouched(c, m, Marked(m, t, p, modified), u)
  {
    MarkKeeps(c, m, t, p, modified);
    UntouchedBy(c, m, Marked(m, t, p, modified), t, u);
  }

  lemma TouchUntouched(c: Config, m: Mem, t: nat, p: nat, u: nat)
    requires c.Valid() && Accessible(c, m, t, p) && u in m.live && u != t
    ensures Sound(c, m, t, p) && Untouched(c, m, Touch(c, m, t, p), u)
  {
    TouchKeeps(c, m, t, p);
    hide Touch, Sound, Structure, Untouched;
    UntouchedBy(c, m, Touch(c, m, t, p), t, u);
  }

  lemma ReadUntouched(c: Config, m: Mem, t: nat, p: nat, u: nat)
    requires c.Valid() && Accessible(c, m, t, p) && u in m.live && u != t
    ensures Sound(c, m, t, p) && HasPage(Touch(c, m, t, p), t, p) && Untouched(c, m, Fetch(c, m, t, p), u)
  {
    TouchKeeps(c, m, t, p);
    TouchUntouched(c, m, t, p, u);
    var m1 := Touch(c, m, t, p);
    hide Touch, Sound, Structure, SameContents, OthersSame, AllSame;
    MarkUntouched(c, m1, t, p, m1.procs[t].entries[p].modified, u);
    assert Fetch(c, m, t, p) == Marked(m1, t, p, m1.procs[t].entries[p].modified);
    hide Untouched, Marked, Inv, Clean;
    UntouchedThen(c, m, m1, Fetch(c, m, t, p), u);
  }

  lemma PatchUntouched(c: Config, m: Mem, t: nat, p: nat, d: nat, w: u32, u: nat)
    requires c.Valid() && Inv(c, m) && Clean(c, m) && t in m.live && HasPage(m, t, p) && u in m.live && u != t
    requires m.procs[t].entries[p].present && m.procs[t].entries[p].modified && d + 4 <= c.pageSize
    ensures m.procs[t].entries[p].frame < |m.frames| && |m.frames[m.procs[t].entries[p].frame]| == c.pageSize
    ensures var f := m.procs[t].entries[p].frame;
      Untouched(c, m, m.(frames := m.frames[f := Patch(m.frames[f], d, WordBytes(w))]), u)
  {
    PatchKeeps(c, m, t, p, d, WordBytes(w));
    var f := m.procs[t].entries[p].frame;
    hide Structure, Untouched, Patch;
    UntouchedBy(c, m, m.(frames := m.frames[f := Patch(m.frames[f], d, WordBytes(w))]), t, u);
  }

  lemma WriteUntouched(c: Config, m: Mem, r: Request, u: nat)
    requires c.Valid() && Servable(c, m, r) && r.Write? && r.d < c.pageSize && r.t != u && u in m.live
    ensures Untouched(c, m, Step(c, m, r).0, u)
  {
    AccessReady(c, m, r.t, r.p);
    TouchKeeps(c, m, r.t, r.p);
    TouchUntouched(c, m, r.t, r.p, u);
    var m1 := Touch(c, m, r.t, r.p);
    var m2 := Marked(m1, r.t, r.p, true);
    hide Touch, Sound, Structure, SameContents, OthersSame, AllSame, Untouched, Patch;
    MarkUntouched(c, m1, r.t, r.p, true, u);
    MarkKeeps(c, m1, r.t, r.p, true);
    UntouchedThen(c, m, m1, m2, u);
    PatchUntouched(c, m2, r.t, r.p, r.d, r.w, u);
    UntouchedThen(c, m, m2, Step(c, m, r).0, u);
  }

  /** No request of one process changes any page of another, in whichever table the pages lie. */
  lemma RequestsAreIsolated(c: Config, m: Mem, r: Request, u: nat)
    requires c.Valid() && Servable(c, m, r) && u in m.live && OfAnother(r, u)
    ensures Untouched(c, m, Step(c, m, r).0, u)
  {
    match r
    case NewProcess(size, pcb) => CreateKeeps(c, m, size, pcb);
    case Write(_, _, d, _) =>
      if d < c.pageSize {
        WriteUntouched(c, m, r, u);
      }
    case Read(t, p, d) =>
      if d < c.pageSize {
        ReadUntouched(c, m, t, p, u);
      }
    case Locate(t, p) =>
      TouchKeeps(c, m, t, p);
      UntouchedBy(c, m, Touch(c, m, t, p), t, u);
    case SuspendProcess(t) =>
      SuspendKeeps(c, m, t);
      UntouchedBy(c, m, Suspend(c, m, t), t, u);
    case FinishProcess(t) => FinishKeeps(c, m, t);
  }
}
