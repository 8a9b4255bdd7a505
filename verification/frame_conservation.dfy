/** Frames are conserved: those taken are those the live processes hold, and a frame is found while quotas fit. */
module FrameConservation {
  import opened MemoryModel
  import opened MemoryInvariant

  function Taken(registry: seq<FrameInfo>): nat {
    if |registry| == 0 then 0
    else Taken(registry[..|registry| - 1]) + if registry[|registry| - 1].taken then 1 else 0
  }

  /** Frames held by the live processes among the first `k`. */
  function Held(procs: seq<Process>, live: set<nat>, k: nat): nat
    requires k <= |procs|
  {
    if k == 0 then 0 else Held(procs, live, k - 1) + if k - 1 in live then |procs[k - 1].residents| else 0
  }

  ghost predicate Conserved(m: Mem) {
    Taken(m.registry) == Held(m.procs, m.live, |m.procs|)
  }

  // ---------- counting ----------

  lemma {:induction false} TakenUpdate(registry: seq<FrameInfo>, f: nat, info: FrameInfo)
    requires f < |registry|
    ensures Taken(registry[f := info]) + (if registry[f].taken then 1 else 0)
      == Taken(registry) + (if info.taken then 1 else 0)
  {
    var n := |registry| - 1;
    if f == n {
      assert registry[f := info][..n] == registry[..n];
    } else {
      assert registry[f := info][..n] == registry[..n][f := info];
      TakenUpdate(registry[..n], f, info);
    }
  }

  lemma {:induction false} TakenBound(registry: seq<FrameInfo>)
    ensures Taken(registry) <= |registry|
    ensures Taken(registry) < |registry| ==> FreeFrom(registry, 0) < |registry|
  {
    if |registry| > 0 {
      var rest := registry[..|registry| - 1];
      TakenBound(rest);
      if Taken(rest) < |rest| {
        var f := FreeFrom(rest, 0);
        assert !registry[f].taken;
      }
    }
  }

  lemma {:induction false} HeldSame(procs: seq<Process>, procs': seq<Process>, live: set<nat>, live': set<nat>, k: nat)
    requires k <= |procs| && k <= |procs'|
    requires forall t | 0 <= t < k ::
      (t in live <==> t in live') && (t in live ==> procs'[t].residents == procs[t].residents)
    ensures Held(procs', live', k) == Held(procs, live, k)
  {
    if k > 0 {
      HeldSame(procs, procs', live, live', k - 1);
    }
  }

  lemma {:induction false} HeldUpdate(procs: seq<Process>, live: set<nat>, k: nat, t: nat, pr: Process)
    requires t < k <= |procs| && t in live
    ensures Held(procs[t := pr], live, k) + |procs[t].residents| == Held(procs, live, k) + |pr.residents|
  {
    if t < k - 1 {
      HeldUpdate(procs, live, k - 1, t, pr);
    } else {
      HeldSame(procs, procs[t := pr], live, live, k - 1);
    }
  }

  // ---------- every request conserves frames ----------

  lemma ClaimConserves(c: Config, m: Mem, t: nat, p: nat)
    requires c.Valid() && Sound(c, m, t, p) && t in m.live && FreeFrame(m) < |m.registry| && Conserved(m)
    ensures Conserved(Claim(c, m, t, p))
  {
    var m' := Claim(c, m, t, p);
    HeldUpdate(m.procs, m.live, |m.procs|, t, m'.procs[t]);
    TakenUpdate(m.registry, FreeFrame(m), FrameInfo(true, t, p));
  }

  lemma ReplaceConserves(c: Config, m: Mem, t: nat, p: nat)
    requires c.Valid() && Fault(c, m, t, p) && |m.procs[t].residents| == c.quota && Conserved(m)
    ensures Sound(c, m, t, p) && Conserved(Replace(c, m, t, p))
  {
    ReplaceForm(c, m, t, p);
    hide Replace;
    var m' := Replace(c, m, t, p);
    var f := m.procs[t].entries[Victim(c, m.procs[t])].frame;
    assert m'.procs == m.procs[t := m'.procs[t]];
    HeldUpdate(m.procs, m.live, |m.procs|, t, m'.procs[t]);
    TakenUpdate(m.registry, f, FrameInfo(m.registry[f].taken, t, p));
  }

  lemma TouchConserves(c: Config, m: Mem, t: nat, p: nat)
    requires c.Valid() && Accessible(c, m, t, p) && Conserved(m)
    ensures Sound(c, m, t, p) && Conserved(Touch(c, m, t, p))
  {
    InvIsSound(c, m, t, p);
    if !m.procs[t].entries[p].present {
      if |m.procs[t].residents| < c.quota {
        ClaimConserves(c, m, t, p);
      } else {
        assert ProcessOk(c, m, t);
        ReplaceConserves(c, m, t, p);
      }
    }
  }

  lemma {:induction false} SuspendPagesConserves(c: Config, m: Mem, t: nat)
    requires c.Valid() && Structure(c, m) && t in m.live && Conserved(m)
    ensures ResidentsHaveFrames(m, t) && ProcessOk(c, m, t) && Conserved(SuspendPages(c, m, t))
    decreases |m.procs[t].residents|
  {
    LiveHaveFrames(c, m, t);
    if |m.procs[t].residents| > 0 {
      SuspendFirstStructure(c, m, t);
      var m' := SuspendFirst(c, m, t);
      var f := m.procs[t].entries[m.procs[t].residents[0]].frame;
      TakenUpdate(m.registry, f, m'.registry[f]);
      HeldUpdate(m.procs, m.live, |m.procs|, t, m'.procs[t]);
      SuspendPagesConserves(c, m', t);
    }
  }

  lemma SuspendConserves(c: Config, m: Mem, t: nat)
    requires c.Valid() && Inv(c, m) && Clean(c, m) && t in m.live && Conserved(m)
    ensures ResidentsHaveFrames(m, t) && m.procs[t].pcb in m.files && Conserved(Suspend(c, m, t))
  {
    LiveHaveFrames(c, m, t);
    var m0 := m.(procs := m.procs[t := m.procs[t].(pointer := 0)]);
    ResetHandKeeps(c, m, t);
    HeldUpdate(m.procs, m.live, |m.procs|, t, m0.procs[t]);
    SuspendPagesConserves(c, m0, t);
  }

  /** While the process being finished still has resident pages their frames are taken and distinct. */
  ghost predicate ResidentsTaken(m: Mem, t: nat)
    requires ResidentsHaveFrames(m, t)
  {
    var pr := m.procs[t];
    && (forall i | 0 <= i < |pr.residents| :: m.registry[pr.entries[pr.residents[i]].frame].taken)
    && forall i, j | 0 <= i < j < |pr.residents| ::
      pr.entries[pr.residents[i]].frame != pr.entries[pr.residents[j]].frame
  }

  lemma {:induction false} FinishPagesConserves(m: Mem, t: nat)
    requires ResidentsHaveFrames(m, t) && ResidentsTaken(m, t) && t in m.live && Conserved(m)
    ensures Conserved(FinishPages(m, t))
    decreases |m.procs[t].residents|
  {
    if |m.procs[t].residents| > 0 {
      var m' := FinishFirst(m, t);
      var f := m.procs[t].entries[m.procs[t].residents[0]].frame;
      TakenUpdate(m.registry, f, m'.registry[f]);
      HeldUpdate(m.procs, m.live, |m.procs|, t, m'.procs[t]);
      FinishPagesConserves(m', t);
    }
  }

  lemma {:induction false} HeldWithout(procs: seq<Process>, live: set<nat>, k: nat, t: nat)
    requires k <= |procs| && t < |procs| && |procs[t].residents| == 0
    ensures Held(procs, live - {t}, k) == Held(procs, live, k)
  {
    if k > 0 {
      HeldWithout(procs, live, k - 1, t);
    }
  }

  lemma FinishConserves(c: Config, m: Mem, t: nat)
    requires c.Valid() && Inv(c, m) && t in m.live && Conserved(m)
    ensures ResidentsHaveFrames(m, t) && Conserved(Finish(m, t))
  {
    LiveHaveFrames(c, m, t);
    FinishPagesConserves(m, t);
    FinishPagesForm(m, t);
    HeldWithout(FinishPages(m, t).procs, m.live, |m.procs|, t);
  }

  lemma CreateConserves(c: Config, m: Mem, size: nat, pcb: nat)
    requires c.Valid() && Inv(c, m) && Conserved(m)
    ensures Conserved(Create(c, m, size, pcb))
  {
    var m' := Create(c, m, size, pcb);
    HeldSame(m.procs, m'.procs, m.live, m'.live, |m.procs|);
  }

  // ---------- allocation never fails while quotas fit ----------

  /** The live processes that hold a frame. */
  ghost function Holders(m: Mem): set<nat>
    requires forall t | t in m.live :: t < |m.procs|
  {
    set t | t in m.live && m.procs[t].residents != []
  }

  ghost function Below(s: set<nat>, k: nat): set<nat> {
    set t | t in s && t < k
  }

  lemma BelowNext(s: set<nat>, k: nat)
    ensures |Below(s, k + 1)| == |Below(s, k)| + if k in s then 1 else 0
  {
    assert Below(s, k + 1) == if k in s then Below(s, k) + {k} else Below(s, k);
  }

  lemma {:induction false} HeldFits(c: Config, m: Mem, s: set<nat>, t: nat, k: nat)
    requires c.Valid() && Inv(c, m) && k <= |m.procs| && t in m.live && Holders(m) + {t} <= s
    ensures Held(m.procs, m.live, k) + (if t < k then c.quota - |m.procs[t].residents| else 0)
      <= |Below(s, k)| * c.quota
    decreases k
  {
    if k > 0 {
      HeldFits(c, m, s, t, k - 1);
      BelowNext(s, k - 1);
      var n := |Below(s, k - 1)|;
      OneMore(n, c.quota);
      assert k - 1 in m.live ==> ProcessOk(c, m, k - 1) && |m.procs[k - 1].residents| <= c.quota;
      assert k - 1 in m.live && |m.procs[k - 1].residents| > 0 ==> k - 1 in Holders(m);
      hide Inv, ProcessOk, Holders, Below;
    }
  }

  lemma OneMore(n: nat, q: nat)
    ensures (n + 1) * q == n * q + q
  {
  }

  /** If the quotas of the holders and of the process asking fit in memory, the process gets its frame. */
  lemma RoomWhileQuotasFit(c: Config, m: Mem, t: nat, s: set<nat>)
    requires c.Valid() && Inv(c, m) && Conserved(m) && t in m.live
    requires Holders(m) + {t} <= s && |s| * c.quota <= c.Frames()
    ensures Room(c, m, t)
  {
    HeldFits(c, m, s, t, |m.procs|);
    BelowAtMost(s, |m.procs|);
    assert |Below(s, |m.procs|)| * c.quota <= |s| * c.quota by {
      Monotone(|Below(s, |m.procs|)|, |s|, c.quota);
    }
    TakenBound(m.registry);
  }

  lemma BelowAtMost(s: set<nat>, k: nat)
    ensures |Below(s, k)| <= |s|
  {
    assert s == Below(s, k) + (s - Below(s, k));
  }

  lemma Monotone(a: nat, b: nat, q: nat)
    requires a <= b
    ensures a * q <= b * q
  {
  }
}
