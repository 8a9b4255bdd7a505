/**
 * The cpu behind its translation cache, with the kernel's requests interleaved: every translation is the one the page
 * tables would give, and every word read by frame number is the one the flat memory has.
 */
module Translation {
  import opened Options
  import opened Words
  import opened MemoryModel
  import opened MemoryInvariant
  import opened MemoryRefinement
  import opened Tlb

  // ---------- events ----------

  /** A request of the kernel; a process reaching the cpu, or leaving it; a translation; a word access by frame. */
  datatype Event =
    | Kernel(r: Request)
    | Dispatch(t: nat)
    | Leave
    | Translate(p: nat)
    | ReadWord(d: nat)
    | WriteWord(d: nat, w: u32)

  /** The capacity of the cache is at least one. */
  datatype Setup = Setup(c: Config, replacement: Replacement, capacity: nat) {
    predicate Valid() {
      c.Valid() && capacity >= 1
    }
  }

  // ---------- the machine ----------

  /** Memory, the process on the cpu, its cache, and the frame that the last translation answered. */
  datatype Machine = Machine(mem: Mem, running: Option<nat>, tlb: seq<TlbEntry>, target: Option<nat>)

  /** A word access by frame number goes to the process and page that the frame table names. */
  function Named(m: Mem, f: nat, d: nat): Request
    requires f < |m.registry|
  {
    Read(m.registry[f].table, m.registry[f].page, d)
  }

  function NamedWrite(m: Mem, f: nat, d: nat, w: u32): Request
    requires f < |m.registry|
  {
    Write(m.registry[f].table, m.registry[f].page, d, w)
  }

  ghost predicate Ready(u: Setup, s: Machine, e: Event)
    requires u.Valid()
  {
    match e
    case Kernel(r) => Servable(u.c, s.mem, r)
    case Dispatch(t) => t in s.mem.live
    case Leave => s.running.Some?
    case Translate(p) => s.running.Some? && (FrameIn(s.tlb, p) < 0 ==> Servable(u.c, s.mem, Locate(s.running.value, p)))
    case ReadWord(d) =>
      s.target.Some? && s.target.value < |s.mem.registry|
        && Servable(u.c, s.mem, Named(s.mem, s.target.value, d))
    case WriteWord(d, w) =>
      s.target.Some? && s.target.value < |s.mem.registry|
        && Servable(u.c, s.mem, NamedWrite(s.mem, s.target.value, d, w))
  }

  /** The new state, and what the step answers. */
  ghost function Move(u: Setup, s: Machine, e: Event): (Machine, Answer)
    requires u.Valid() && Ready(u, s, e)
  {
    match e
    case Kernel(r) =>
      var (m, a) := Step(u.c, s.mem, r);
      (s.(mem := m), a)
    case Dispatch(t) => (s.(running := Some(t), tlb := [], target := None), Done)
    case Leave => (s.(running := None, target := None), Done)
    case Translate(p) =>
      if FrameIn(s.tlb, p) >= 0 then
        var f := FrameIn(s.tlb, p);
        (s.(tlb := Looked(u.replacement, s.tlb, p), target := Some(f)), Frame(f))
      else
        var (m, a) := Step(u.c, s.mem, Locate(s.running.value, p));
        var tlb := Added(u.capacity, Looked(u.replacement, s.tlb, p), TlbEntry(p, a.f));
        (Machine(m, s.running, tlb, Some(a.f)), a)
    case ReadWord(d) =>
      var (m, a) := Step(u.c, s.mem, Named(s.mem, s.target.value, d));
      (s.(mem := m), a)
    case WriteWord(d, w) =>
      var (m, a) := Step(u.c, s.mem, NamedWrite(s.mem, s.target.value, d, w));
      (s.(mem := m), a)
  }

  // ---------- what a client sees ----------

  /** Flat memories, the process and page in use, and the pages each process used since it was created or suspended. */
  datatype View = View(flat: Flat, running: Option<nat>, page: Option<nat>, seen: seq<set<nat>>)

  /** The kernel suspends or finishes only processes that are not on the cpu. */
  predicate Elsewhere(v: View, r: Request) {
    match r
    case NewProcess(_, _) => true
    case SuspendProcess(t) => v.running != Some(t)
    case FinishProcess(t) => v.running != Some(t)
    case _ => false
  }

  /** The client's part: allowed requests, and at most `k` different pages of a process between suspensions. */
  predicate Permitted(u: Setup, k: nat, v: View, e: Event)
    requires u.Valid()
  {
    match e
    case Kernel(r) => Elsewhere(v, r) && Allowed(u.c, v.flat, r)
    case Dispatch(t) => t in v.flat.live
    case Leave => v.running.Some?
    case Translate(p) =>
      v.running.Some? && Allowed(u.c, v.flat, Locate(v.running.value, p))
      && v.running.value < |v.seen| && |v.seen[v.running.value] + {p}| <= k
    case ReadWord(d) => v.running.Some? && v.page.Some? && Allowed(u.c, v.flat, Read(v.running.value, v.page.value, d))
    case WriteWord(d, w) =>
      v.running.Some? && v.page.Some? && Allowed(u.c, v.flat, Write(v.running.value, v.page.value, d, w))
  }

  ghost predicate WellView(u: Setup, v: View) {
    FlatSized(u.c, v.flat) && |v.seen| == |v.flat.pages|
  }

  function Watch(u: Setup, k: nat, v: View, e: Event): (v': View)
    requires u.Valid() && WellView(u, v) && Permitted(u, k, v, e)
    ensures WellView(u, v')
  {
    match e
    case Kernel(r) =>
      var seen := match r
        case NewProcess(_, _) => v.seen + [{}]
        case SuspendProcess(t) => v.seen[t := {}]
        case _ => v.seen;
      v.(flat := FlatStep(u.c, v.flat, r), seen := seen)
    case Dispatch(t) => v.(running := Some(t), page := None)
    case Leave => v.(running := None, page := None)
    case Translate(p) =>
      var t := v.running.value;
      v.(flat := FlatStep(u.c, v.flat, Locate(t, p)), page := Some(p), seen := v.seen[t := v.seen[t] + {p}])
    case ReadWord(d) => v.(flat := FlatStep(u.c, v.flat, Read(v.running.value, v.page.value, d)))
    case WriteWord(d, w) => v.(flat := FlatStep(u.c, v.flat, Write(v.running.value, v.page.value, d, w)))
  }

  /** A translation answers the frame that holds the page; the rest is answered as the flat memory would. */
  ghost predicate Right(u: Setup, k: nat, s: Machine, v: View, e: Event)
    requires u.Valid() && Ready(u, s, e) && FlatSized(u.c, v.flat) && Permitted(u, k, v, e)
  {
    var (s', a) := Move(u, s, e);
    match e
    case Kernel(r) => Expected(u.c, v.flat, r, a)
    case Dispatch(_) => true
    case Leave => true
    case Translate(p) => HoldsPage(s'.mem, v.running.value, p, a)
    case ReadWord(d) => Expected(u.c, v.flat, Read(v.running.value, v.page.value, d), a)
    case WriteWord(d, w) => Expected(u.c, v.flat, Write(v.running.value, v.page.value, d, w), a)
  }

  /** What a walk of the page tables answers for a page that is present. */
  ghost predicate HoldsPage(m: Mem, t: nat, p: nat, a: Answer) {
    HasPage(m, t, p) && m.procs[t].entries[p].present && a == Frame(m.procs[t].entries[p].frame)
  }

  // ---------- the invariant ----------

  /** A cached page is present, in the cached frame. */
  ghost predicate Cached(m: Mem, t: nat, e: TlbEntry) {
    e.page >= 0 && e.frame >= 0 && HoldsPage(m, t, e.page, Frame(e.frame))
  }

  ghost predicate AllCached(m: Mem, t: nat, tlb: seq<TlbEntry>) {
    forall e | e in tlb :: Cached(m, t, e)
  }

  /** Only pages used since creation or suspension are in memory. */
  ghost predicate ResidentsSeen(m: Mem, seen: seq<set<nat>>) {
    && |seen| == |m.procs|
    && forall t | t in m.live :: t < |m.procs| && forall p | p in m.procs[t].residents :: p in seen[t]
  }

  ghost predicate Target(m: Mem, t: nat, page: Option<nat>, target: Option<nat>) {
    page.Some? ==> target.Some? && HoldsPage(m, t, page.value, Frame(target.value))
  }

  ghost predicate Coherent(u: Setup, s: Machine, v: View)
    requires u.Valid()
  {
    && Implements(u.c, s.mem, v.flat) && ResidentsSeen(s.mem, v.seen)
    && s.running == v.running && WellFormed(u.capacity, s.tlb)
    && match v.running
       case None => v.page.None?
       case Some(t) => t in s.mem.live && AllCached(s.mem, t, s.tlb) && Target(s.mem, t, v.page, s.target)
  }

  // ---------- what keeps translations valid ----------

  /** Present pages of `t` stay present, each in its frame. */
  ghost predicate Pinned(m: Mem, m': Mem, t: nat) {
    && t < |m.procs| && t < |m'.procs| && |m'.procs[t].entries| == |m.procs[t].entries|
    && forall q | 0 <= q < |m.procs[t].entries| && m.procs[t].entries[q].present ::
      m'.procs[t].entries[q].present && m'.procs[t].entries[q].frame == m.procs[t].entries[q].frame
  }

  lemma PinnedKeeps(m: Mem, m': Mem, t: nat, tlb: seq<TlbEntry>, page: Option<nat>, target: Option<nat>)
    requires Pinned(m, m', t) && AllCached(m, t, tlb) && Target(m, t, page, target)
    ensures AllCached(m', t, tlb) && Target(m', t, page, target)
  {
    forall e | e in tlb ensures Cached(m', t, e) {
      assert Cached(m, t, e);
    }
  }

  /** Pages of `t` that gain a frame are only those in `more`. */
  ghost predicate ResidentsGrow(m: Mem, m': Mem, t: nat, more: set<nat>) {
    && t < |m.procs| && t < |m'.procs|
    && forall p | p in m'.procs[t].residents :: p in m.procs[t].residents || p in more
  }

  /** Bringing in a page pins the others while the process is below its quota. */
  lemma TouchPins(c: Config, m: Mem, t: nat, p: nat)
    requires c.Valid() && Accessible(c, m, t, p)
    ensures Sound(c, m, t, p)
    ensures m.procs[t].entries[p].present || |m.procs[t].residents| < c.quota ==> Pinned(m, Touch(c, m, t, p), t)
    ensures ResidentsGrow(m, Touch(c, m, t, p), t, {p})
  {
    InvIsSound(c, m, t, p);
    if !m.procs[t].entries[p].present {
      if |m.procs[t].residents| == c.quota {
        ReplaceForm(c, m, t, p);
        PassedResidents(c, m.procs[t], Replace(c, m, t, p).procs[t], p, Victim(c, m.procs[t]));
      }
    }
  }

  lemma PassedResidents(c: Config, pr: Process, pr': Process, p: nat, victim: nat)
    requires p < |pr.entries| && victim < |pr.entries| && SlotPassed(c, pr, pr', p, victim)
    ensures forall q | q in pr'.residents :: q in pr.residents || q == p
  {
  }

  /** The running process is below its quota when it used no more pages than that, this one included. */
  lemma BelowQuota(c: Config, m: Mem, seen: seq<set<nat>>, t: nat, p: nat)
    requires c.Valid() && Inv(c, m) && t in m.live && ResidentsSeen(m, seen) && HasPage(m, t, p)
    requires !m.procs[t].entries[p].present && |seen[t] + {p}| <= c.quota
    ensures |m.procs[t].residents| < c.quota
  {
    assert ProcessOk(c, m, t);
    NewPageFits(m.procs[t].residents, seen[t], p);
  }

  lemma NewPageFits(r: seq<nat>, seen: set<nat>, p: nat)
    requires (forall i, j | 0 <= i < j < |r| :: r[i] != r[j]) && p !in r && forall q | q in r :: q in seen
    ensures |r| < |seen + {p}|
  {
    var more := r + [p];
    forall i, j | 0 <= i < j < |more| ensures more[i] != more[j] {
      assert more[i] == r[i] && r[i] in r;
    }
    DistinctFit(more, seen + {p});
  }

  /** Different elements of a set are no more than the set has. */
  lemma {:induction false} DistinctFit(r: seq<nat>, s: set<nat>)
    requires (forall i, j | 0 <= i < j < |r| :: r[i] != r[j]) && forall q | q in r :: q in s
    ensures |r| <= |s|
  {
    if |r| > 0 {
      assert r[0] in r;
      forall q | q in r[1..] ensures q in s - {r[0]} {
        assert q in r;
      }
      DistinctFit(r[1..], s - {r[0]});
    }
  }

  // ---------- the steps ----------

  function SeenAfter(seen: seq<set<nat>>, r: Request): seq<set<nat>> {
    match r
    case NewProcess(_, _) => seen + [{}]
    case SuspendProcess(t) => if t < |seen| then seen[t := {}] else seen
    case _ => seen
  }

  lemma AddedPins(m: Mem, m': Mem, seen: seq<set<nat>>)
    requires ResidentsSeen(m, seen) && m'.live == m.live + {|m.procs|} && |m'.procs| == |m.procs| + 1
    requires m'.procs[..|m.procs|] == m.procs && m'.procs[|m.procs|].residents == []
    ensures ResidentsSeen(m', seen + [{}]) && forall t | t in m.live :: Pinned(m, m', t)
  {
    assert forall t | 0 <= t < |m.procs| :: m'.procs[t] == m'.procs[..|m.procs|][t];
  }

  /** A process is emptied or gone; the others keep their pages. */
  lemma EmptiedPins(m: Mem, m': Mem, seen: seq<set<nat>>, t: nat)
    requires ResidentsSeen(m, seen) && t in m.live && |m'.procs| == |m.procs| && m'.live <= m.live
    requires forall u | 0 <= u < |m.procs| && u != t :: m'.procs[u] == m.procs[u]
    requires t in m'.live ==> m'.procs[t].residents == []
    ensures ResidentsSeen(m', seen[t := {}]) && (t !in m'.live ==> ResidentsSeen(m', seen))
    ensures forall u | u in m.live && u != t :: Pinned(m, m', u)
  {
  }

  /** A kernel request leaves the process on the cpu as it is. */
  lemma KernelPins(c: Config, m: Mem, v: View, r: Request)
    requires c.Valid() && Servable(c, m, r) && Elsewhere(v, r) && ResidentsSeen(m, v.seen)
    ensures var m' := Step(c, m, r).0;
      && ResidentsSeen(m', SeenAfter(v.seen, r))
      && forall t | t in m.live && v.running == Some(t) :: t in m'.live && Pinned(m, m', t)
  {
    match r
    case NewProcess(size, pcb) =>
      CreateKeeps(c, m, size, pcb);
      AddedPins(m, Create(c, m, size, pcb), v.seen);
      hide Inv, Clean, ResidentsSeen, Pinned;
    case SuspendProcess(t) =>
      SuspendKeeps(c, m, t);
      EmptiedPins(m, Suspend(c, m, t), v.seen, t);
      hide Inv, Clean, ResidentsSeen, Pinned, Suspend;
    case FinishProcess(t) =>
      FinishKeeps(c, m, t);
      EmptiedPins(m, Finish(m, t), v.seen, t);
      hide Inv, Clean, ResidentsSeen, Pinned, Finish;
  }

  lemma KernelCoherent(u: Setup, k: nat, s: Machine, v: View, e: Event)
    requires u.Valid() && Coherent(u, s, v) && Permitted(u, k, v, e) && e.Kernel?
    ensures Ready(u, s, e) && Right(u, k, s, v, e) && Coherent(u, Move(u, s, e).0, Watch(u, k, v, e))
  {
    StepImplements(u.c, s.mem, v.flat, e.r);
    KernelPins(u.c, s.mem, v, e.r);
    var m := Step(u.c, s.mem, e.r).0;
    assert Watch(u, k, v, e) == v.(flat := FlatStep(u.c, v.flat, e.r), seen := SeenAfter(v.seen, e.r));
    hide Step, Implements, FlatStep, Cached;
    match v.running
    case None =>
    case Some(t) => PinnedKeeps(s.mem, m, t, s.tlb, v.page, s.target);
  }

  // ---------- translations ----------

  lemma ResidentsSeenMore(m: Mem, m': Mem, seen: seq<set<nat>>, t: nat, p: nat)
    requires ResidentsSeen(m, seen) && t in m.live && ResidentsGrow(m, m', t, {p}) && m'.live == m.live
      && |m'.procs| == |m.procs|
    requires forall u | 0 <= u < |m.procs| && u != t :: m'.procs[u] == m.procs[u]
    ensures ResidentsSeen(m', seen[t := seen[t] + {p}])
  {
  }

  lemma TouchedMore(c: Config, m: Mem, fl: Flat, t: nat)
    requires c.Valid() && Implements(c, m, fl) && t in m.live
    ensures Implements(c, m, fl.(touched := fl.touched + {t}))
  {
    assert SamePages(c, m, fl);
  }

  lemma HitEntry(u: Setup, s: Machine, t: nat, p: nat)
    requires u.Valid() && WellFormed(u.capacity, s.tlb) && AllCached(s.mem, t, s.tlb) && FrameIn(s.tlb, p) >= 0
    ensures HoldsPage(s.mem, t, p, Frame(FrameIn(s.tlb, p)))
    ensures var tlb := Looked(u.replacement, s.tlb, p); WellFormed(u.capacity, tlb) && AllCached(s.mem, t, tlb)
  {
    var i := Find(s.tlb, p);
    assert Cached(s.mem, t, s.tlb[i]);
    TranslatedWellFormed(u.replacement, u.capacity, s.tlb, p, 0);
    assert Translated(u.replacement, u.capacity, s.tlb, p, 0) == Looked(u.replacement, s.tlb, p);
    hide WellFormed, Cached;
  }

  /** A hit answers the frame the page is in. */
  lemma HitCoherent(u: Setup, k: nat, s: Machine, v: View, e: Event)
    requires u.Valid() && Coherent(u, s, v) && Permitted(u, k, v, e) && e.Translate? && FrameIn(s.tlb, e.p) >= 0
    ensures Ready(u, s, e) && Right(u, k, s, v, e) && Coherent(u, Move(u, s, e).0, Watch(u, k, v, e))
  {
    var t := v.running.value;
    HitEntry(u, s, t, e.p);
    TouchedMore(u.c, s.mem, v.flat, t);
    ResidentsSeenMore(s.mem, s.mem, v.seen, t, e.p);
    assert FlatStep(u.c, v.flat, Locate(t, e.p)) == v.flat.(touched := v.flat.touched + {t});
    hide Implements, WellFormed, Looked, FrameIn, Cached, HoldsPage;
  }

  lemma AddedCached(u: Setup, m: Mem, m': Mem, t: nat, tlb: seq<TlbEntry>, e: TlbEntry)
    requires u.Valid() && WellFormed(u.capacity, tlb) && AllCached(m, t, tlb) && Cached(m', t, e)
    requires Pinned(m, m', t) || u.capacity == 1
    ensures AllCached(m', t, Added(u.capacity, tlb, e))
  {
    if Pinned(m, m', t) {
      PinnedKeeps(m, m', t, tlb, None, None);
    }
    hide Cached;
  }

  /** A miss is harmless when no cached page loses its frame: below the quota, or with nothing else cached. */
  lemma MissPins(u: Setup, k: nat, m: Mem, v: View, t: nat, p: nat)
    requires u.Valid() && Accessible(u.c, m, t, p) && ResidentsSeen(m, v.seen)
    requires |v.seen[t] + {p}| <= k && (k <= u.c.quota || u.capacity == 1)
    ensures Sound(u.c, m, t, p)
    ensures Pinned(m, Touch(u.c, m, t, p), t) || u.capacity == 1
  {
    TouchPins(u.c, m, t, p);
    if !m.procs[t].entries[p].present && k <= u.c.quota {
      BelowQuota(u.c, m, v.seen, t, p);
    }
  }

  lemma MissTlb(u: Setup, s: Machine, m': Mem, t: nat, p: nat, f: nat)
    requires u.Valid() && WellFormed(u.capacity, s.tlb) && AllCached(s.mem, t, s.tlb) && FrameIn(s.tlb, p) < 0
    requires (Pinned(s.mem, m', t) || u.capacity == 1) && HoldsPage(m', t, p, Frame(f))
    ensures var tlb := Added(u.capacity, Looked(u.replacement, s.tlb, p), TlbEntry(p, f));
      WellFormed(u.capacity, tlb) && AllCached(m', t, tlb)
  {
    TranslatedWellFormed(u.replacement, u.capacity, s.tlb, p, f);
    assert Find(s.tlb, p) == |s.tlb|;
    AddedCached(u, s.mem, m', t, s.tlb, TlbEntry(p, f));
    hide WellFormed, AllCached;
  }

  /** The walk of the tables answers the frame it brought the page to. */
  lemma Located(c: Config, m: Mem, fl: Flat, seen: seq<set<nat>>, t: nat, p: nat)
    requires c.Valid() && Implements(c, m, fl) && ResidentsSeen(m, seen) && Allowed(c, fl, Locate(t, p))
    ensures Accessible(c, m, t, p) && Sound(c, m, t, p)
    ensures var (m', a) := Step(c, m, Locate(t, p));
      && m' == Touch(c, m, t, p) && Implements(c, m', FlatStep(c, fl, Locate(t, p)))
      && a.Frame? && HoldsPage(m', t, p, a)
      && ResidentsSeen(m', seen[t := seen[t] + {p}]) && m'.live == m.live
  {
    StepImplements(c, m, fl, Locate(t, p));
    TouchKeeps(c, m, t, p);
    TouchPins(c, m, t, p);
    ResidentsSeenMore(m, Touch(c, m, t, p), seen, t, p);
    hide Implements, FlatStep, Touch, Inv, Clean, ResidentsSeen, ResidentsGrow;
  }

  /** A miss walks the tables, which bring the page in. */
  lemma MissCoherent(u: Setup, k: nat, s: Machine, v: View, e: Event)
    requires u.Valid() && Coherent(u, s, v) && Permitted(u, k, v, e) && e.Translate? && FrameIn(s.tlb, e.p) < 0
    requires k <= u.c.quota || u.capacity == 1
    ensures Ready(u, s, e) && Right(u, k, s, v, e) && Coherent(u, Move(u, s, e).0, Watch(u, k, v, e))
  {
    var t := v.running.value;
    Located(u.c, s.mem, v.flat, v.seen, t, e.p);
    MissPins(u, k, s.mem, v, t, e.p);
    var (m, a) := Step(u.c, s.mem, Locate(t, e.p));
    MissTlb(u, s, m, t, e.p, a.f);
    hide Implements, WellFormed, Looked, FrameIn, Cached, Touch, Step, FlatStep, Added, Inv, Clean, ResidentsSeen,
      HoldsPage;
  }

  // ---------- accesses by frame number ----------

  /** The frame table names the page that a coherent translation found. */
  lemma TargetNamed(c: Config, m: Mem, t: nat, p: nat, f: nat)
    requires c.Valid() && Inv(c, m) && t in m.live && HoldsPage(m, t, p, Frame(f))
    ensures f < |m.registry| && m.registry[f].table == t && m.registry[f].page == p
  {
    assert ProcessOk(c, m, t);
  }

  /** Reading or writing a present page moves no page. */
  lemma AccessPins(c: Config, m: Mem, t: nat, p: nat, r: Request, seen: seq<set<nat>>)
    requires c.Valid() && Servable(c, m, r) && t in m.live && HasPage(m, t, p) && m.procs[t].entries[p].present
    requires (r.Read? && r.t == t && r.p == p) || (r.Write? && r.t == t && r.p == p)
    requires ResidentsSeen(m, seen)
    ensures var m' := Step(c, m, r).0; Pinned(m, m', t) && ResidentsSeen(m', seen) && m'.live == m.live
  {
    if r.d < c.pageSize {
      AccessReady(c, m, t, p);
    }
  }

  /** The access that the frame number stands for is the client's, and leaves every cached page where it is. */
  lemma NamedAccess(c: Config, m: Mem, fl: Flat, seen: seq<set<nat>>, t: nat, p: nat, f: nat, r: Request)
    requires c.Valid() && Implements(c, m, fl) && ResidentsSeen(m, seen) && t in m.live && HoldsPage(m, t, p, Frame(f))
    requires Allowed(c, fl, r) && (r.Read? || r.Write?) && r.t == t && r.p == p
    ensures f < |m.registry| && m.registry[f].table == t && m.registry[f].page == p && Servable(c, m, r)
    ensures var (m', a) := Step(c, m, r);
      && Implements(c, m', FlatStep(c, fl, r)) && Expected(c, fl, r, a)
      && Pinned(m, m', t) && ResidentsSeen(m', seen) && m'.live == m.live
  {
    TargetNamed(c, m, t, p, f);
    StepImplements(c, m, fl, r);
    AccessPins(c, m, t, p, r, seen);
    hide Step, FlatStep, Implements;
  }

  lemma AccessCoherent(u: Setup, k: nat, s: Machine, v: View, e: Event)
    requires u.Valid() && Coherent(u, s, v) && Permitted(u, k, v, e) && (e.ReadWord? || e.WriteWord?)
    ensures Ready(u, s, e) && Right(u, k, s, v, e) && Coherent(u, Move(u, s, e).0, Watch(u, k, v, e))
  {
    var t, p, f := v.running.value, v.page.value, s.target.value;
    var r := if e.ReadWord? then Read(t, p, e.d) else Write(t, p, e.d, e.w);
    NamedAccess(u.c, s.mem, v.flat, v.seen, t, p, f, r);
    PinnedKeeps(s.mem, Step(u.c, s.mem, r).0, t, s.tlb, v.page, s.target);
    hide Implements, Step, FlatStep, WellFormed, HoldsPage, Allowed, Servable, Expected, ResidentsSeen, AllCached,
      Pinned;
  }

  lemma DispatchCoherent(u: Setup, k: nat, s: Machine, v: View, e: Event)
    requires u.Valid() && Coherent(u, s, v) && Permitted(u, k, v, e) && e.Dispatch?
    ensures Ready(u, s, e) && Right(u, k, s, v, e) && Coherent(u, Move(u, s, e).0, Watch(u, k, v, e))
  {
  }

  lemma LeaveCoherent(u: Setup, k: nat, s: Machine, v: View, e: Event)
    requires u.Valid() && Coherent(u, s, v) && Permitted(u, k, v, e) && e.Leave?
    ensures Ready(u, s, e) && Right(u, k, s, v, e) && Coherent(u, Move(u, s, e).0, Watch(u, k, v, e))
  {
  }

  /** Every step of cpu and kernel is right and keeps the cache coherent. */
  lemma MoveCoherent(u: Setup, k: nat, s: Machine, v: View, e: Event)
    requires u.Valid() && Coherent(u, s, v) && Permitted(u, k, v, e)
    requires k <= u.c.quota || u.capacity == 1
    ensures Ready(u, s, e) && Right(u, k, s, v, e) && Coherent(u, Move(u, s, e).0, Watch(u, k, v, e))
  {
    hide Ready, Right, Coherent, Permitted, Move, Watch;
    match e
    case Kernel(_) => KernelCoherent(u, k, s, v, e);
    case Dispatch(_) => DispatchCoherent(u, k, s, v, e);
    case Leave => LeaveCoherent(u, k, s, v, e);
    case Translate(p) =>
      if FrameIn(s.tlb, p) >= 0 {
        HitCoherent(u, k, s, v, e);
      } else {
        MissCoherent(u, k, s, v, e);
      }
    case ReadWord(_) => AccessCoherent(u, k, s, v, e);
    case WriteWord(_, _) => AccessCoherent(u, k, s, v, e);
  }
}
