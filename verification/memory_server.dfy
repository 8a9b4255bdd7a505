/** The request loop: a memory process serving a whole run of requests in place. */
module MemoryServer {
  import opened Words
  import opened MemoryModel
  import opened MemoryRefinement
  import opened MemoryRuns
  import opened PagedMemory

  lemma {:induction false} PrefixAllowed(c: Config, reqs: seq<Request>, i: nat)
    requires c.Valid() && AllowedRun(c, reqs) && i <= |reqs|
    ensures AllowedRun(c, reqs[..i])
    decreases |reqs|
  {
    if i == |reqs| {
      assert reqs[..i] == reqs;
    } else {
      AllowedPrefix(c, reqs);
      PrefixAllowed(c, Init(reqs), i);
      assert Init(reqs)[..i] == reqs[..i];
    }
  }

  /** `a` is what a client of flat memories is owed for request `i` of the run. */
  ghost predicate Owed(c: Config, reqs: seq<Request>, i: nat, a: Answer)
    requires c.Valid()
  {
    && i < |reqs| && AllowedRun(c, reqs[..i]) && Allowed(c, FlatRun(c, reqs[..i]).value, reqs[i])
    && Expected(c, FlatRun(c, reqs[..i]).value, reqs[i], a)
    && (reqs[i].Read? && reqs[i].d + 4 <= c.pageSize && reqs[i].p < c.entries ==>
      a == Word(BytesWord(LastBytes(c, reqs[..i], reqs[i].t, reqs[i].p, reqs[i].d, 4))))
  }

  lemma StepOwed(c: Config, frames: seq<Bytes>, reqs: seq<Request>, i: nat)
    requires c.Valid() && Frames(c, frames) && AllowedRun(c, reqs) && i < |reqs|
    ensures AllowedRun(c, reqs[..i]) && AllowedRun(c, reqs[..i + 1])
    ensures var m := After(c, frames, reqs[..i]);
      && Servable(c, m, reqs[i]) && After(c, frames, reqs[..i + 1]) == Step(c, m, reqs[i]).0
      && Owed(c, reqs, i, Step(c, m, reqs[i]).1)
  {
    PrefixAllowed(c, reqs, i);
    PrefixAllowed(c, reqs, i + 1);
    assert reqs[..i + 1] == reqs[..i] + [reqs[i]];
    AfterAppended(c, frames, reqs[..i], reqs[i]);
    AnswersAreFlat(c, frames, reqs[..i], reqs[i]);
    if reqs[i].Read? && reqs[i].d + 4 <= c.pageSize && reqs[i].p < c.entries {
      ReadReturnsLastWrite(c, frames, reqs[..i], reqs[i].t, reqs[i].p, reqs[i].d);
    }
  }

  /** The memory has served the first `i` requests of the run. */
  ghost predicate Served(memory: Memory, frames: seq<Bytes>, reqs: seq<Request>, i: nat)
    reads memory, memory.dir, memory.dir.firstLevel, memory.dir.pages, memory.user.bytes, memory.registry
  {
    && memory.Shape() && Frames(memory.c, frames) && i <= |reqs| && AllowedRun(memory.c, reqs[..i])
    && memory.State() == After(memory.c, frames, reqs[..i])
  }

  method ServeNext(memory: Memory, ghost frames: seq<Bytes>, reqs: seq<Request>, i: nat) returns (a: Answer)
    requires Served(memory, frames, reqs, i) && i < |reqs| && AllowedRun(memory.c, reqs)
    modifies memory, memory.user.bytes, memory.registry, memory.dir, memory.dir.Objects()
    ensures Served(memory, frames, reqs, i + 1) && Owed(memory.c, reqs, i, a)
    ensures fresh(memory.dir.Objects() - old(memory.dir.Objects()))
  {
    StepOwed(memory.c, frames, reqs, i);
    a := memory.Serve(reqs[i]);
  }

  ghost predicate AllOwed(c: Config, reqs: seq<Request>, answers: seq<Answer>)
    requires c.Valid()
  {
    forall i | 0 <= i < |answers| :: Owed(c, reqs, i, answers[i])
  }

  /** The request loop, over one memory. */
  method ServeAll(memory: Memory, ghost frames: seq<Bytes>, reqs: seq<Request>) returns (answers: seq<Answer>)
    requires memory.c.Valid() && Served(memory, frames, reqs, 0) && AllowedRun(memory.c, reqs)
    modifies memory, memory.user.bytes, memory.registry, memory.dir, memory.dir.Objects()
    ensures |answers| == |reqs| && AllOwed(memory.c, reqs, answers)
  {
    hide Served, Owed, AllowedRun;
    answers := [];
    ghost var first := memory.dir.Objects();
    ghost var objects := first;
    for i := 0 to |reqs|
      invariant |answers| == i && Served(memory, frames, reqs, i)
      invariant objects == memory.dir.Objects() && fresh(objects - first)
      invariant AllOwed(memory.c, reqs, answers)
    {
      var a := ServeNext(memory, frames, reqs, i);
      ghost var now := memory.dir.Objects();
      assert now - first <= (now - objects) + (objects - first);
      objects := now;
      OneMoreOwed(memory.c, reqs, answers, a);
      answers := answers + [a];
    }
  }

  lemma OneMoreOwed(c: Config, reqs: seq<Request>, answers: seq<Answer>, a: Answer)
    requires c.Valid() && AllOwed(c, reqs, answers) && Owed(c, reqs, |answers|, a)
    ensures AllOwed(c, reqs, answers + [a])
  {
  }

  /** Every allowed run is served, and every answer is the one owed, whatever was in memory at start-up. */
  method ServeRun(c: Config, reqs: seq<Request>) returns (answers: seq<Answer>)
    requires c.Valid() && AllowedRun(c, reqs)
    ensures |answers| == |reqs| && AllOwed(c, reqs, answers)
  {
    var memory := new Memory(c);
    answers := ServeAll(memory, memory.user.Frames(), reqs);
  }
}
