/** Exactly when the translation cache is right: it is never told that the memory replaced a page. */
module TranslationLimits {
  import opened Options
  import opened Clock
  import opened MemoryModel
  import opened MemoryInvariant
  import opened FrameConservation
  import opened MemoryRefinement
  import opened MemoryRuns
  import opened Tlb
  import opened Translation

  // ---------- runs ----------

  ghost function Boot(u: Setup, frames: seq<Bytes>): Machine {
    Machine(MemoryModel.Boot(u.c, frames), None, [], None)
  }

  const Unseen := View(FlatEmpty, None, None, [])

  /** As long as the client keeps its part, every event can be served and is answered right. */
  ghost predicate AllRight(u: Setup, k: nat, s: Machine, v: View, es: seq<Event>)
    requires u.Valid() && WellView(u, v)
    decreases es
  {
    |es| > 0 && Permitted(u, k, v, es[0]) ==>
      && Ready(u, s, es[0]) && Right(u, k, s, v, es[0])
      && AllRight(u, k, Move(u, s, es[0]).0, Watch(u, k, v, es[0]), es[1..])
  }

  /** Right in every run from start-up, whatever was in memory, when no process uses more than `k` pages at a time. */
  ghost predicate TranslatesRight(u: Setup, k: nat)
    requires u.Valid()
  {
    forall frames: seq<Bytes>, es: seq<Event> | Frames(u.c, frames) :: AllRight(u, k, Boot(u, frames), Unseen, es)
  }

  lemma {:induction false} CoherentRun(u: Setup, k: nat, s: Machine, v: View, es: seq<Event>)
    requires u.Valid() && Coherent(u, s, v) && WellView(u, v) && (k <= u.c.quota || u.capacity == 1)
    ensures AllRight(u, k, s, v, es)
    decreases es
  {
    hide Coherent, WellView, Permitted, Ready, Right, Move, Watch;
    if |es| > 0 && Permitted(u, k, v, es[0]) {
      MoveCoherent(u, k, s, v, es[0]);
      CoherentRun(u, k, Move(u, s, es[0]).0, Watch(u, k, v, es[0]), es[1..]);
    }
  }

  lemma BootCoherent(u: Setup, frames: seq<Bytes>)
    requires u.Valid() && Frames(u.c, frames)
    ensures Coherent(u, Boot(u, frames), Unseen)
  {
    BootHolds(u.c, frames);
    EmptyConserves(frames);
  }

  // ---------- a run that the cache gets wrong ----------

  /** Every event of the run is permitted and can be served. */
  ghost predicate Goes(u: Setup, k: nat, s: Machine, v: View, es: seq<Event>)
    requires u.Valid() && WellView(u, v)
    decreases es
  {
    |es| > 0 ==>
      && Permitted(u, k, v, es[0]) && Ready(u, s, es[0])
      && Goes(u, k, Move(u, s, es[0]).0, Watch(u, k, v, es[0]), es[1..])
  }

  ghost function End(u: Setup, k: nat, s: Machine, v: View, es: seq<Event>): (r: (Machine, View))
    requires u.Valid() && WellView(u, v) && Goes(u, k, s, v, es)
    ensures WellView(u, r.1)
    decreases es
  {
    if |es| == 0 then (s, v) else End(u, k, Move(u, s, es[0]).0, Watch(u, k, v, es[0]), es[1..])
  }

  lemma {:induction false} GoesOn(u: Setup, k: nat, s: Machine, v: View, es: seq<Event>, more: seq<Event>)
    requires u.Valid() && WellView(u, v) && Goes(u, k, s, v, es)
    requires var (s', v') := End(u, k, s, v, es); Goes(u, k, s', v', more)
    ensures Goes(u, k, s, v, es + more)
    ensures var (s', v') := End(u, k, s, v, es); End(u, k, s, v, es + more) == End(u, k, s', v', more)
    decreases es
  {
    hide Permitted, Ready, Move, Watch, WellView;
    if |es| == 0 {
      assert es + more == more;
    } else {
      assert (es + more)[1..] == es[1..] + more;
      GoesOn(u, k, Move(u, s, es[0]).0, Watch(u, k, v, es[0]), es[1..], more);
    }
  }

  /** One event alone. */
  lemma GoesOne(u: Setup, k: nat, s: Machine, v: View, e: Event)
    requires u.Valid() && WellView(u, v) && Permitted(u, k, v, e) && Ready(u, s, e)
    ensures Goes(u, k, s, v, [e]) && End(u, k, s, v, [e]) == (Move(u, s, e).0, Watch(u, k, v, e))
  {
    hide Permitted, Ready, Move, Watch, WellView;
    assert [e][1..] == [];
    assert Goes(u, k, Move(u, s, e).0, Watch(u, k, v, e), []);
  }

  /** A run that goes on to an event answered wrong is not all right. */
  lemma {:induction false} WrongAtEnd(u: Setup, k: nat, s: Machine, v: View, es: seq<Event>, e: Event)
    requires u.Valid() && WellView(u, v) && Goes(u, k, s, v, es)
    requires var (s', v') := End(u, k, s, v, es); Permitted(u, k, v', e) && Ready(u, s', e) && !Right(u, k, s', v', e)
    ensures !AllRight(u, k, s, v, es + [e])
    decreases es
  {
    hide Permitted, Ready, Move, Watch, WellView, Right;
    if |es| > 0 {
      assert (es + [e])[1..] == es[1..] + [e];
      WrongAtEnd(u, k, Move(u, s, es[0]).0, Watch(u, k, v, es[0]), es[1..], e);
    }
  }

  function CreateEvent(c: Config): Event {
    Kernel(NewProcess((c.quota + 1) * c.pageSize, 1))
  }

  /** Translations of pages `i` to `n`. */
  function Uses(i: nat, n: nat): seq<Event>
    decreases n - i
  {
    if i >= n then [] else [Translate(i)] + Uses(i + 1, n)
  }

  /** Use the whole quota, be dispatched again, use page 0 and one page more. */
  function StaleRun(c: Config): seq<Event> {
    [CreateEvent(c)] + [Dispatch(0)] + Uses(0, c.quota) + [Dispatch(0)] + [Translate(0)] + [Translate(c.quota)]
  }

  /** Room in memory for one process, and the tables reach one page more than the quota. */
  predicate Spacious(c: Config) {
    c.Valid() && c.quota <= c.Frames() && c.quota + 1 <= c.entries * c.entries
  }

  /** The only process has `n` of its pages in memory, in order, all of them used and none modified. */
  ghost predicate Filled(u: Setup, s: Machine, v: View, n: nat)
    requires u.Valid()
  {
    && n <= u.c.quota && Coherent(u, s, v) && WellView(u, v) && v.running == Some(0)
    && v.flat.live == {0} && |v.flat.pages| == 1 && |v.flat.pages[0]| == u.c.quota + 1
    && (forall p | p in v.seen[0] :: p < n)
    && InOrder(u.c, s.mem.procs[0], n)
  }

  /** A process whose residents are its first `n` pages, loaded in order and never written. */
  ghost predicate InOrder(c: Config, pr: Process, n: nat) {
    && |pr.entries| == c.quota + 1 && n <= c.quota
    && pr.residents == seq(n, i => i) && pr.pointer == (if n < c.quota then n else 0)
    && forall p | 0 <= p < n :: pr.entries[p].used && !pr.entries[p].modified
  }

  lemma Bounded(seen: set<nat>, n: nat)
    requires forall p | p in seen :: p < n
    ensures |seen| <= n
    decreases n
  {
    if n == 0 {
      assert seen == {};
    } else if n - 1 in seen {
      Bounded(seen - {n - 1}, n - 1);
    } else {
      Bounded(seen, n - 1);
    }
  }

  /** With every page used and none modified, both clocks take the page under the hand. */
  lemma FirstIsVictim(c: Config, pr: Process)
    requires c.Valid() && InOrder(c, pr, c.quota)
    ensures Victim(c, pr) == 0
  {
    var marks := ResidentEntries(pr);
    var q := c.quota;
    assert forall i | 0 <= i < q :: marks[i].used && !marks[i].modified;
    var k := FirstFrom(marks, 0, Unused);
    var k1 := FirstFrom(marks, 0, Idle);
    var k2 := FirstFrom(marks, 0, IdleDirty);
    var k3 := FirstFrom(Cleared(marks, 0, q), 0, Idle);
    assert k == q && k1 == q && k2 == q;
    assert Cleared(marks, 0, q)[Ring(0, 0, q)] == marks[0].(used := false);
    assert k3 == 0;
  }

  /** A miss, spelt out. */
  lemma MissForm(u: Setup, k: nat, s: Machine, v: View, t: nat, p: nat)
    requires u.Valid() && WellView(u, v) && Permitted(u, k, v, Translate(p)) && Ready(u, s, Translate(p))
    requires FrameIn(s.tlb, p) < 0 && s.running == Some(t) && v.running == Some(t)
    ensures Sound(u.c, s.mem, t, p) && (!s.mem.procs[t].entries[p].present ==> Room(u.c, s.mem, t))
    ensures var m := Touch(u.c, s.mem, t, p);
      && HasPage(m, t, p)
      && var f := m.procs[t].entries[p].frame;
      Move(u, s, Translate(p)).0
      == Machine(m, s.running, Added(u.capacity, Looked(u.replacement, s.tlb, p), TlbEntry(p, f)), Some(f))
    ensures Watch(u, k, v, Translate(p))
      == View(v.flat.(touched := v.flat.touched + {t}), v.running, Some(p), v.seen[t := v.seen[t] + {p}])
  {
    AccessReady(u.c, s.mem, t, p);
  }

  /** One more translation is permitted and finds nothing cached. */
  lemma NextUse(u: Setup, k: nat, s: Machine, v: View, p: nat)
    requires u.Valid() && Spacious(u.c) && Filled(u, s, v, p) && p < k && p <= u.c.quota
    ensures Permitted(u, k, v, Translate(p)) && FrameIn(s.tlb, p) < 0
    ensures HasPage(s.mem, 0, p) && !s.mem.procs[0].entries[p].present && |s.mem.procs[0].residents| == p
  {
    assert ProcessOk(u.c, s.mem, 0);
    Bounded(v.seen[0] + {p}, p + 1);
    assert v.flat.touched + {0} == {0};
    if FrameIn(s.tlb, p) >= 0 {
      HitEntry(u, s, 0, p);
    }
  }

  lemma ClaimInOrder(c: Config, m: Mem, p: nat)
    requires c.Valid() && Fault(c, m, 0, p) && InOrder(c, m.procs[0], p) && p < c.quota && Clean(c, m)
    ensures Sound(c, m, 0, p) && InOrder(c, Touch(c, m, 0, p).procs[0], p + 1)
  {
    InvIsSound(c, m, 0, p);
    assert ProcessOk(c, m, 0);
    assert seq(p, i => i) + [p] == seq(p + 1, i => i);
  }

  lemma FillOne(u: Setup, k: nat, s: Machine, v: View, p: nat)
    requires u.Valid() && Spacious(u.c) && Filled(u, s, v, p) && p < u.c.quota < k
    ensures Permitted(u, k, v, Translate(p)) && Ready(u, s, Translate(p))
    ensures Filled(u, Move(u, s, Translate(p)).0, Watch(u, k, v, Translate(p)), p + 1)
  {
    NextUse(u, k, s, v, p);
    NextUse(u, u.c.quota, s, v, p);
    MissCoherent(u, u.c.quota, s, v, Translate(p));
    MissForm(u, k, s, v, 0, p);
    MissForm(u, u.c.quota, s, v, 0, p);
    ClaimInOrder(u.c, s.mem, p);
    hide Move, Watch, Right, Ready, Permitted, FrameIn, Find, Looked, Added, Touch, Sound, Inv, Clean, Implements,
      InOrder;
  }

  /** Using the quota in order leaves it filled in order. */
  lemma {:induction false} FillQuota(u: Setup, k: nat, s: Machine, v: View, i: nat)
    requires u.Valid() && Spacious(u.c) && Filled(u, s, v, i) && u.c.quota < k
    ensures Goes(u, k, s, v, Uses(i, u.c.quota))
    ensures var (s', v') := End(u, k, s, v, Uses(i, u.c.quota)); Filled(u, s', v', u.c.quota)
    decreases u.c.quota - i
  {
    if i < u.c.quota {
      FillOne(u, k, s, v, i);
      assert WellView(u, v) && Uses(i, u.c.quota) == [Translate(i)] + Uses(i + 1, u.c.quota);
      hide WellView, Permitted, Ready, Move, Watch, Filled, Uses, Goes, End;
      FillQuota(u, k, Move(u, s, Translate(i)).0, Watch(u, k, v, Translate(i)), i + 1);
      GoesOne(u, k, s, v, Translate(i));
      GoesOn(u, k, s, v, [Translate(i)], Uses(i + 1, u.c.quota));
    }
  }

  /** With the quota full, using one page more evicts page 0 and takes its frame. */
  lemma OneMoreEvicts(c: Config, m: Mem)
    requires c.Valid() && Fault(c, m, 0, c.quota) && InOrder(c, m.procs[0], c.quota)
    ensures Sound(c, m, 0, c.quota) && HasPage(m, 0, 0)
    ensures var m', f := Touch(c, m, 0, c.quota), m.procs[0].entries[0].frame;
      && HasPage(m', 0, 0) && !m'.procs[0].entries[0].present
      && f < |m'.registry| && m'.registry[f] == FrameInfo(true, 0, c.quota)
  {
    ReplaceForm(c, m, 0, c.quota);
    FirstIsVictim(c, m.procs[0]);
    assert m.procs[0].residents[0] == 0;
  }

  /** Page 0 alone is cached, and the quota is full. */
  ghost predicate OnlyFirstCached(u: Setup, s: Machine, v: View)
    requires u.Valid()
  {
    Filled(u, s, v, u.c.quota) && |s.tlb| == 1 && s.tlb[0].page == 0
  }

  lemma UseFirstPermitted(u: Setup, k: nat, v: View)
    requires u.Valid() && Spacious(u.c) && WellView(u, v) && v.running == Some(0)
    requires v.flat.live == {0} && |v.flat.pages| == 1 && |v.flat.pages[0]| > 0 && v.flat.touched <= {0}
    requires k > 0 && forall p | p in v.seen[0] :: p < k
    ensures Permitted(u, k, v, Translate(0))
  {
    Bounded(v.seen[0] + {0}, k);
    assert v.flat.touched + {0} == {0};
  }

  /** A new dispatch empties the cache and leaves the memory as it is. */
  lemma DispatchAgain(u: Setup, k: nat, s: Machine, v: View)
    requires u.Valid() && Filled(u, s, v, u.c.quota)
    ensures Permitted(u, k, v, Dispatch(0)) && Ready(u, s, Dispatch(0))
    ensures var s', v' := Move(u, s, Dispatch(0)).0, Watch(u, k, v, Dispatch(0));
      Filled(u, s', v', u.c.quota) && s'.tlb == []
  {
    DispatchCoherent(u, k, s, v, Dispatch(0));
  }

  /** Then one use of page 0 leaves it alone in the cache. */
  lemma UseFirst(u: Setup, k: nat, s: Machine, v: View)
    requires u.Valid() && Spacious(u.c) && Filled(u, s, v, u.c.quota) && u.c.quota < k && s.tlb == []
    ensures Permitted(u, k, v, Translate(0)) && Ready(u, s, Translate(0))
    ensures OnlyFirstCached(u, Move(u, s, Translate(0)).0, Watch(u, k, v, Translate(0)))
  {
    assert ProcessOk(u.c, s.mem, 0) && s.mem.procs[0].residents[0] == 0;
    UseFirstPermitted(u, u.c.quota, v);
    UseFirstPermitted(u, k, v);
    MissCoherent(u, u.c.quota, s, v, Translate(0));
    MissForm(u, k, s, v, 0, 0);
    MissForm(u, u.c.quota, s, v, 0, 0);
    hide Move, Watch, Right, Ready, Permitted, Find, Sound, Inv, Clean, Implements, InOrder;
  }

  /** Page 0 is cached in a frame that memory has given to another page. */
  ghost predicate FirstIsStale(u: Setup, s: Machine, v: View) {
    && s.running == Some(0) && v.running == Some(0)
    && FrameIn(s.tlb, 0) >= 0 && HasPage(s.mem, 0, 0) && !s.mem.procs[0].entries[0].present
    && FrameIn(s.tlb, 0) < |s.mem.registry| && s.mem.registry[FrameIn(s.tlb, 0)] == FrameInfo(true, 0, u.c.quota)
  }

  /** The cache answers for page 0 the frame where the page one past the quota is. */
  ghost predicate AnswersStale(u: Setup, k: nat, s: Machine, v: View)
    requires u.Valid()
  {
    && Permitted(u, k, v, Translate(0)) && Ready(u, s, Translate(0))
    && var (s', a) := Move(u, s, Translate(0));
    && a.Frame? && a.f < |s'.mem.registry| && s'.mem.registry[a.f] == FrameInfo(true, 0, u.c.quota)
    && HasPage(s'.mem, 0, 0) && !s'.mem.procs[0].entries[0].present
  }

  lemma StaleHitIsWrong(u: Setup, k: nat, s: Machine, v: View)
    requires u.Valid() && WellView(u, v) && Permitted(u, k, v, Translate(0)) && FirstIsStale(u, s, v)
    ensures AnswersStale(u, k, s, v) && !Right(u, k, s, v, Translate(0))
  {
    hide FrameIn, Find, Looked;
  }

  lemma SecondCached(u: Setup, tlb: seq<TlbEntry>, p: nat, f: nat)
    requires u.capacity >= 2 && |tlb| == 1 && tlb[0].page == 0 && tlb[0].frame >= 0 && FrameIn(tlb, p) < 0
    ensures FrameIn(Added(u.capacity, Looked(u.replacement, tlb, p), TlbEntry(p, f)), 0) == tlb[0].frame
  {
  }

  lemma FaultReady(u: Setup, s: Machine, v: View, p: nat)
    requires u.Valid() && Coherent(u, s, v) && v.running == Some(0)
    requires HasPage(s.mem, 0, p) && !s.mem.procs[0].entries[p].present && |s.mem.procs[0].residents| == u.c.quota
    ensures Fault(u.c, s.mem, 0, p) && Ready(u, s, Translate(p))
  {
  }

  lemma FirstFrame(u: Setup, s: Machine, v: View)
    requires u.Valid() && OnlyFirstCached(u, s, v)
    ensures HasPage(s.mem, 0, 0) && s.tlb[0].frame >= 0 && s.mem.procs[0].entries[0].frame == s.tlb[0].frame
  {
    assert Cached(s.mem, 0, s.tlb[0]);
  }

  /** Using one page more evicts page 0 behind the cache's back. */
  lemma OneMoreUse(u: Setup, k: nat, s: Machine, v: View)
    requires u.Valid() && Spacious(u.c) && OnlyFirstCached(u, s, v) && u.c.quota < k && u.capacity >= 2
    requires Permitted(u, k, v, Translate(u.c.quota)) && Ready(u, s, Translate(u.c.quota))
    requires FrameIn(s.tlb, u.c.quota) < 0 && |s.mem.procs[0].residents| == u.c.quota
    requires Fault(u.c, s.mem, 0, u.c.quota)
    ensures var e := Translate(u.c.quota);
      FirstIsStale(u, Move(u, s, e).0, Watch(u, k, v, e)) && Permitted(u, k, Watch(u, k, v, e), Translate(0))
  {
    hide Move, Step, Touch, Sound, Inv, Clean, Permitted, Right, Ready, FrameIn, Added, Looked, FlatStep, Fault;
    var q := u.c.quota;
    MissForm(u, k, s, v, 0, q);
    var m := Touch(u.c, s.mem, 0, q);
    OneMoreEvicts(u.c, s.mem);
    FirstFrame(u, s, v);
    SecondCached(u, s.tlb, q, m.procs[0].entries[q].frame);
    assert v.flat.touched + {0} <= {0};
    UseFirstPermitted(u, k, Watch(u, k, v, Translate(q)));
  }

  /** Then the next translation of page 0 is wrong. */
  lemma NextIsWrong(u: Setup, k: nat, s: Machine, v: View)
    requires u.Valid() && Spacious(u.c) && OnlyFirstCached(u, s, v) && u.c.quota < k && u.capacity >= 2
    ensures var e := Translate(u.c.quota);
      && Permitted(u, k, v, e) && Ready(u, s, e)
      && var s', v' := Move(u, s, e).0, Watch(u, k, v, e);
      AnswersStale(u, k, s', v') && !Right(u, k, s', v', Translate(0))
  {
    hide Permitted, Ready, Right, Move, Watch, FirstIsStale, AnswersStale, FrameIn, Fault;
    var e := Translate(u.c.quota);
    NextUse(u, k, s, v, u.c.quota);
    FaultReady(u, s, v, u.c.quota);
    OneMoreUse(u, k, s, v);
    StaleHitIsWrong(u, k, Move(u, s, e).0, Watch(u, k, v, e));
  }

  // ---------- the exact condition ----------

  /** The process is created and nothing of it is in memory. */
  lemma StaleCreate(u: Setup, k: nat, frames: seq<Bytes>)
    requires u.Valid() && Spacious(u.c) && Frames(u.c, frames)
    ensures var e := CreateEvent(u.c); var b := Boot(u, frames);
      && Permitted(u, k, Unseen, e) && Ready(u, b, e)
      && var s, v := Move(u, b, e).0, Watch(u, k, Unseen, e);
      && Coherent(u, s, v) && v.flat.live == {0} && |v.flat.pages| == 1 && |v.flat.pages[0]| == u.c.quota + 1
      && v.seen == [{}] && InOrder(u.c, s.mem.procs[0], 0)
  {
    BootCoherent(u, frames);
    CreatePermitted(u.c);
    PagesExactly(u.c, u.c.quota + 1);
    KernelCoherent(u, 0, Boot(u, frames), Unseen, CreateEvent(u.c));
  }

  /** It is dispatched. */
  lemma StaleDispatch(u: Setup, k: nat, s: Machine, v: View)
    requires u.Valid() && Coherent(u, s, v) && WellView(u, v)
    requires v.flat.live == {0} && |v.flat.pages| == 1 && |v.flat.pages[0]| == u.c.quota + 1
    requires v.seen == [{}] && InOrder(u.c, s.mem.procs[0], 0)
    ensures Permitted(u, k, v, Dispatch(0)) && Ready(u, s, Dispatch(0))
    ensures Filled(u, Move(u, s, Dispatch(0)).0, Watch(u, k, v, Dispatch(0)), 0)
  {
    DispatchCoherent(u, k, s, v, Dispatch(0));
  }

  lemma CreatePermitted(c: Config)
    requires Spacious(c)
    ensures 1 <= (c.quota + 1) * c.pageSize <= c.pageSize * c.entries * c.entries
  {
    Monotone(c.quota + 1, c.entries * c.entries, c.pageSize);
    Monotone(1, c.pageSize, c.quota + 1);
    assert c.entries * c.entries * c.pageSize == c.pageSize * c.entries * c.entries;
  }

  /** The run up to the filled quota. */
  lemma StaleStart(u: Setup, k: nat, frames: seq<Bytes>)
    requires u.Valid() && Spacious(u.c) && Frames(u.c, frames) && u.c.quota < k
    ensures var es := [CreateEvent(u.c)] + [Dispatch(0)] + Uses(0, u.c.quota);
      && Goes(u, k, Boot(u, frames), Unseen, es)
      && var (s, v) := End(u, k, Boot(u, frames), Unseen, es); Filled(u, s, v, u.c.quota)
  {
    hide Goes, End, Permitted, Ready, Move, Watch, Filled, Boot, InOrder, Uses;
    var s0, v0 := Boot(u, frames), Unseen;
    StaleCreate(u, k, frames);
    GoesOne(u, k, s0, v0, CreateEvent(u.c));
    var (s1, v1) := End(u, k, s0, v0, [CreateEvent(u.c)]);
    StaleDispatch(u, k, s1, v1);
    GoesOne(u, k, s1, v1, Dispatch(0));
    GoesOn(u, k, s0, v0, [CreateEvent(u.c)], [Dispatch(0)]);
    var (s2, v2) := End(u, k, s1, v1, [Dispatch(0)]);
    FillQuota(u, k, s2, v2, 0);
    GoesOn(u, k, s0, v0, [CreateEvent(u.c)] + [Dispatch(0)], Uses(0, u.c.quota));
  }

  /** A run that goes, and after which the cache answers for a page the frame that holds another. */
  lemma StaleRunIsWrong(u: Setup, k: nat, frames: seq<Bytes>)
    requires u.Valid() && Spacious(u.c) && Frames(u.c, frames) && u.c.quota < k && u.capacity >= 2
    ensures Goes(u, k, Boot(u, frames), Unseen, StaleRun(u.c))
    ensures var (s, v) := End(u, k, Boot(u, frames), Unseen, StaleRun(u.c));
      AnswersStale(u, k, s, v) && !Right(u, k, s, v, Translate(0))
  {
    hide Goes, End, Permitted, Ready, Right, Move, Watch, Filled, OnlyFirstCached, Boot, AnswersStale, Uses;
    var s0, v0 := Boot(u, frames), Unseen;
    var es := [CreateEvent(u.c)] + [Dispatch(0)] + Uses(0, u.c.quota);
    StaleStart(u, k, frames);
    var (s1, v1) := End(u, k, s0, v0, es);
    DispatchAgain(u, k, s1, v1);
    GoesOne(u, k, s1, v1, Dispatch(0));
    GoesOn(u, k, s0, v0, es, [Dispatch(0)]);
    var (s2, v2) := End(u, k, s1, v1, [Dispatch(0)]);
    UseFirst(u, k, s2, v2);
    GoesOne(u, k, s2, v2, Translate(0));
    GoesOn(u, k, s0, v0, es + [Dispatch(0)], [Translate(0)]);
    var (s3, v3) := End(u, k, s2, v2, [Translate(0)]);
    NextIsWrong(u, k, s3, v3);
    GoesOne(u, k, s3, v3, Translate(u.c.quota));
    GoesOn(u, k, s0, v0, es + [Dispatch(0)] + [Translate(0)], [Translate(u.c.quota)]);
  }

  /**
   * The exact condition. Over every run of cpu and kernel, every translation answers what a walk of the page tables
   * would, and every word read is the one last written, if and only if no process uses more pages than its quota of
   * frames between suspensions, or the cache has a single entry: memory never tells the cpu that it replaced a page.
   */
  lemma TranslatesRightExactly(u: Setup, k: nat)
    requires u.Valid() && Spacious(u.c)
    ensures TranslatesRight(u, k) <==> k <= u.c.quota || u.capacity == 1
  {
    if k <= u.c.quota || u.capacity == 1 {
      forall frames: seq<Bytes>, es: seq<Event> | Frames(u.c, frames)
        ensures AllRight(u, k, Boot(u, frames), Unseen, es)
      {
        BootCoherent(u, frames);
        CoherentRun(u, k, Boot(u, frames), Unseen, es);
      }
    } else {
      var frames: seq<Bytes> := seq(u.c.Frames(), _ => Zeros(u.c.pageSize));
      assert Frames(u.c, frames);
      StaleRunIsWrong(u, k, frames);
      WrongAtEnd(u, k, Boot(u, frames), Unseen, StaleRun(u.c), Translate(0));
      assert !AllRight(u, k, Boot(u, frames), Unseen, StaleRun(u.c) + [Translate(0)]);
    }
  }
}
