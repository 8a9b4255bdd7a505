/**
 * The page tables: two levels of tables over shared page entries, and per process the records of its resident
 * pages and the hand of its clock. All of it is updated in place; `Procs` is its value.
 */
module PageDirectory {
  import opened Clock
  import opened MemoryModel
  import opened MemoryInvariant
  import opened PageTables

  // ---------- splitting a page number over the two levels ----------

  lemma SplitInRange(p: nat, entries: nat, pages: nat, tables: nat)
    requires entries >= 1 && p < pages <= tables * entries
    ensures p / entries < tables && p % entries < pages
  {
    var a := p / entries;
    assert p == a * entries + p % entries;
    assert a * entries >= 0;
    if a >= tables {
      Grows(tables, a, entries);
    }
  }

  /** Second-level tables of `entries` pages that hold `n` pages. */
  function TableCount(n: nat, entries: nat): nat
    requires entries >= 1
  {
    (n + entries - 1) / entries
  }

  lemma EnoughTables(n: nat, entries: nat)
    requires entries >= 1 && n >= 1
    ensures TableCount(n, entries) >= 1 && n <= TableCount(n, entries) * entries
  {
    var x := n + entries - 1;
    assert x == TableCount(n, entries) * entries + x % entries;
  }

  /** A process has the tables whose first page it has, and no other. */
  lemma TablesExactly(n: nat, entries: nat, i: nat)
    requires entries >= 1
    ensures i < TableCount(n, entries) <==> i * entries < n
  {
    var k, x := TableCount(n, entries), n + entries - 1;
    assert x == k * entries + x % entries;
    if i < k {
      Grows(i + 1, k, entries);
      assert (i + 1) * entries == i * entries + entries;
    } else {
      Grows(k, i, entries);
    }
  }

  lemma Grows(a: nat, b: nat, n: nat)
    requires a <= b
    ensures a * n <= b * n
  {
  }

  lemma SplitIsInjective(p: nat, q: nat, entries: nat)
    requires entries >= 1 && p / entries == q / entries && p % entries == q % entries
    ensures p == q
  {
    assert p == p / entries * entries + p % entries;
    assert q == q / entries * entries + q % entries;
  }

  class Directory {
    const c: Config
    var secondLevel: seq<seq<Page>>
    var firstLevel: seq<FirstLevel>
    ghost var pages: set<Page>
    /** For every second-level table, the process it belongs to and its rank there. */
    ghost var homes: seq<(nat, nat)>

    constructor (c: Config)
      requires c.Valid()
      ensures this.c == c && firstLevel == [] && pages == {} && Shape()
    {
      this.c := c;
      secondLevel, firstLevel, pages, homes := [], [], {}, [];
    }

    // ---------- shape ----------

    /** The second-level tables of process `t` are its own, and each has one entry or more per page of it. */
    ghost predicate TablesOk(t: nat)
      requires t < |firstLevel|
      reads this
    {
      var tables := firstLevel[t].tables;
      && |tables| >= 1 && |homes| == |secondLevel|
      && (forall i | 0 <= i < |tables| :: tables[i] < |secondLevel| && homes[tables[i]] == (t, i))
      && (forall i | 0 <= i < |tables| :: |secondLevel[tables[i]]| == |secondLevel[tables[0]]|)
      && 1 <= |secondLevel[tables[0]]| <= |tables| * c.entries
    }

    ghost predicate EntriesOk()
      reads this
    {
      && |homes| == |secondLevel|
      && forall a, i | 0 <= a < |secondLevel| && 0 <= i < |secondLevel[a]| ::
        secondLevel[a][i].place == (a, i) && secondLevel[a][i] in pages
    }

    ghost predicate Tables()
      reads this
    {
      && c.Valid() && EntriesOk()
      && forall t | 0 <= t < |firstLevel| :: firstLevel[t].id == t && TablesOk(t)
    }

    /** Pages of a process; each of its second-level tables has that many entries. */
    ghost function PageCount(t: nat): nat
      requires t < |firstLevel| && TablesOk(t)
      reads this
    {
      |secondLevel[firstLevel[t].tables[0]]|
    }

    /** The entry of a page, through both levels. */
    function PageAt(t: nat, p: nat): (page: Page)
      requires c.Valid() && t < |firstLevel| && TablesOk(t) && p < PageCount(t) && EntriesOk()
      reads this
      ensures page in pages
      ensures |firstLevel[t].tables| > p / c.entries
        && page.place == (firstLevel[t].tables[p / c.entries], p % c.entries)
    {
      SplitInRange(p, c.entries, PageCount(t), |firstLevel[t].tables|);
      secondLevel[firstLevel[t].tables[p / c.entries]][p % c.entries]
    }

    /** Different pages resolve to different entries. */
    lemma LookupIsInjective(t: nat, p: nat, u: nat, q: nat)
      requires Tables() && t < |firstLevel| && u < |firstLevel| && p < PageCount(t) && q < PageCount(u)
      requires PageAt(t, p) == PageAt(u, q)
      ensures t == u && p == q
    {
      assert homes[firstLevel[t].tables[p / c.entries]] == (t, p / c.entries);
      assert homes[firstLevel[u].tables[q / c.entries]] == (u, q / c.entries);
      SplitIsInjective(p, q, c.entries);
    }

    /** The record of a page that owns a frame points to that page's entry. */
    ghost predicate RecordsOk(t: nat)
      requires Tables() && t < |firstLevel|
      reads this, firstLevel
    {
      forall k | 0 <= k < |firstLevel[t].residents| ::
        && firstLevel[t].residents[k].number < PageCount(t)
        && firstLevel[t].residents[k].page == PageAt(t, firstLevel[t].residents[k].number)
    }

    ghost predicate Shape()
      reads this, firstLevel
    {
      Tables() && forall t | 0 <= t < |firstLevel| :: RecordsOk(t)
    }

    // ---------- the state as a value ----------

    /** The entries of process `t`, page by page. */
    ghost function Entries(t: nat): (entries: seq<Entry>)
      requires Tables() && t < |firstLevel|
      reads this, pages
      ensures |entries| == PageCount(t)
      ensures forall p | 0 <= p < |entries| :: entries[p] == PageAt(t, p).Value()
    {
      seq(PageCount(t), p
        requires 0 <= p && Tables() && t < |firstLevel| && p < PageCount(t)
        reads this, pages
        => PageAt(t, p).Value())
    }

    ghost function Numbers(t: nat): (numbers: seq<nat>)
      requires t < |firstLevel|
      reads this, firstLevel
      ensures |numbers| == |firstLevel[t].residents|
      ensures forall k | 0 <= k < |numbers| :: numbers[k] == firstLevel[t].residents[k].number
    {
      var residents := firstLevel[t].residents;
      seq(|residents|, k requires 0 <= k < |residents| => residents[k].number)
    }

    ghost function ProcessOf(t: nat): Process
      requires Tables() && t < |firstLevel|
      reads this, firstLevel, pages
    {
      Process(firstLevel[t].pcb, Entries(t), Numbers(t), firstLevel[t].pointer)
    }

    ghost function Procs(): (procs: seq<Process>)
      requires Tables()
      reads this, firstLevel, pages
      ensures |procs| == |firstLevel|
      ensures forall t | 0 <= t < |procs| :: procs[t] == ProcessOf(t)
    {
      seq(|firstLevel|, t
        requires 0 <= t && Tables() && t < |firstLevel|
        reads this, firstLevel, pages
        => ProcessOf(t))
    }

    /** The objects whose fields the updates below may change. */
    ghost function Objects(): set<object>
      reads this
    {
      (set fl: object | fl in firstLevel) + pages
    }

    // ---------- creating tables ----------

    /** A second-level table of `n` absent pages. */
    static method NewPages(ghost a: nat, n: nat) returns (table: seq<Page>)
      requires n >= 1
      ensures |table| == n
      ensures forall i | 0 <= i < n :: fresh(table[i]) && table[i].place == (a, i)
      ensures forall i | 0 <= i < n :: table[i].Value() == Entry(0, false, false, false)
    {
      table := [];
      var left := n;
      while left > 0
        invariant |table| == n - left
        invariant forall i | 0 <= i < |table| :: fresh(table[i]) && table[i].place == (a, i)
        invariant forall i | 0 <= i < |table| :: table[i].Value() == Entry(0, false, false, false)
      {
        var page := new Page((a, |table|));
        table := table + [page];
        left := left - 1;
      }
    }

    /** Appends a second-level table of `n` absent pages, the `rank`-th of the process being created. */
    method NewTable(n: nat, ghost rank: nat)
      requires Shape() && n >= 1
      modifies this
      ensures Shape() && firstLevel == old(firstLevel) && Procs() == old(Procs())
      ensures |secondLevel| == old(|secondLevel|) + 1 && secondLevel[..old(|secondLevel|)] == old(secondLevel)
      ensures |secondLevel[old(|secondLevel|)]| == n && homes == old(homes) + [(|firstLevel|, rank)]
      ensures forall page | page in secondLevel[old(|secondLevel|)] ::
        fresh(page) && page.Value() == Entry(0, false, false, false)
      ensures old(pages) <= pages && fresh(pages - old(pages))
    {
      var table := NewPages(|secondLevel|, n);
      assert forall page | page in table :: exists i | 0 <= i < n :: table[i] == page;
      secondLevel := secondLevel + [table];
      homes := homes + [(|firstLevel|, rank)];
      pages := pages + set page | page in table;
      assert EntriesOk() by {
        forall a, i | 0 <= a < |secondLevel| && 0 <= i < |secondLevel[a]|
          ensures secondLevel[a][i].place == (a, i) && secondLevel[a][i] in pages
        {
          if a < old(|secondLevel|) {
            assert secondLevel[a] == old(secondLevel)[a];
          }
        }
      }
      TablesGrew();
    }

    /** New tables after the existing ones leave the existing processes as they are. */
    twostate lemma TablesGrew()
      requires old(Shape()) && EntriesOk() && old(secondLevel) <= secondLevel && old(homes) <= homes
      requires firstLevel == old(firstLevel) && |homes| == |secondLevel|
      requires forall fl | fl in firstLevel :: unchanged(fl)
      requires forall page | page in old(pages) :: unchanged(page)
      ensures Shape() && Procs() == old(Procs())
    {
      forall t | 0 <= t < |firstLevel| ensures TablesOk(t) {
        assert old(TablesOk(t));
      }
      forall t | 0 <= t < |firstLevel| ensures RecordsOk(t) && ProcessOf(t) == old(ProcessOf(t)) {
        assert firstLevel[t] in firstLevel;
        SameEntries(t);
        assert old(RecordsOk(t));
        assert Numbers(t) == old(Numbers(t));
      }
    }

    twostate lemma SameEntries(t: nat)
      requires old(Tables()) && Tables() && old(secondLevel) <= secondLevel && t < |firstLevel|
        && firstLevel == old(firstLevel)
      requires forall page | page in old(pages) :: unchanged(page)
      ensures PageCount(t) == old(PageCount(t)) && Entries(t) == old(Entries(t))
      ensures forall p | 0 <= p < PageCount(t) :: PageAt(t, p) == old(PageAt(t, p))
    {
      assert old(TablesOk(t));
      forall p | 0 <= p < PageCount(t)
        ensures PageAt(t, p) == old(PageAt(t, p)) && PageAt(t, p).Value() == old(PageAt(t, p).Value())
      {
        assert old(PageAt(t, p)) in old(pages);
      }
      hide PageAt, PageCount, EntriesOk, TablesOk;
      assert Entries(t) == old(Entries(t));
    }

    /** The tables listed are those of the process being created: its own, with `n` absent pages each. */
    ghost predicate NewTables(tables: seq<nat>, n: nat)
      requires EntriesOk()
      reads this, pages
    {
      forall i | 0 <= i < |tables| ::
        && tables[i] < |secondLevel| && homes[tables[i]] == (|firstLevel|, i) && |secondLevel[tables[i]]| == n
        && forall j | 0 <= j < n :: secondLevel[tables[i]][j].Value() == Entry(0, false, false, false)
    }

    /** The second-level tables of a process of `n` pages, each with an entry for every page. */
    method NewProcessTables(n: nat) returns (tables: seq<nat>)
      requires Shape() && n >= 1
      modifies this
      ensures Shape() && firstLevel == old(firstLevel) && Procs() == old(Procs())
      ensures |tables| == TableCount(n, c.entries) && NewTables(tables, n)
      ensures old(pages) <= pages && fresh(pages - old(pages))
    {
      tables := [];
      var left := TableCount(n, c.entries);
      while left > 0
        invariant Shape() && firstLevel == old(firstLevel) && Procs() == old(Procs())
        invariant |tables| + left == TableCount(n, c.entries)
        invariant NewTables(tables, n)
        invariant old(pages) <= pages && fresh(pages - old(pages))
      {
        ghost var before := secondLevel;
        tables := tables + [|secondLevel|];
        NewTable(n, |tables| - 1);
        assert forall a | 0 <= a < |before| :: secondLevel[a] == before[a];
        left := left - 1;
      }
    }

    /** Tables for a process of `n` pages, all absent; answers the number of its first-level table. */
    method AddProcess(pcb: nat, n: nat) returns (t: nat)
      requires Shape() && n >= 1
      modifies this
      ensures Shape() && t == old(|firstLevel|) && |firstLevel| == t + 1
      ensures Procs() == old(Procs()) + [Process(pcb, seq(n, _ => Entry(0, false, false, false)), [], 0)]
      ensures |firstLevel[t].tables| == TableCount(n, c.entries) && fresh(Objects() - old(Objects()))
    {
      var tables := NewProcessTables(n);
      var fl := new FirstLevel(pcb, tables, |firstLevel|);
      t := |firstLevel|;
      EnoughTables(n, c.entries);
      label Built:
      firstLevel := firstLevel + [fl];
      assert TablesOk(t);
      ProcessAdded@Built(fl);
      AbsentEntries(t, n);
    }

    lemma AbsentEntries(t: nat, n: nat)
      requires Tables() && t < |firstLevel| && PageCount(t) == n
      requires forall i, j | 0 <= i < |firstLevel[t].tables| && 0 <= j < n ::
        secondLevel[firstLevel[t].tables[i]][j].Value() == Entry(0, false, false, false)
      ensures Entries(t) == seq(n, _ => Entry(0, false, false, false))
    {
      assert TablesOk(t);
      forall p | 0 <= p < n ensures PageAt(t, p).Value() == Entry(0, false, false, false) {
        SplitInRange(p, c.entries, n, |firstLevel[t].tables|);
        var i, j := p / c.entries, p % c.entries;
        assert PageAt(t, p) == secondLevel[firstLevel[t].tables[i]][j];
      }
    }

    /** A process added after the existing ones leaves them as they are. */
    twostate lemma ProcessAdded(new fl: FirstLevel)
      requires old(Shape()) && firstLevel == old(firstLevel) + [fl] && fl.id == old(|firstLevel|)
      requires unchanged(`secondLevel) && unchanged(`homes) && unchanged(`pages)
      requires forall fl | fl in old(firstLevel) :: unchanged(fl)
      requires forall page | page in pages :: unchanged(page)
      requires TablesOk(old(|firstLevel|)) && fl.residents == [] && fl.pointer == 0
      ensures Shape()
      ensures Procs() == old(Procs()) + [Process(fl.pcb, Entries(old(|firstLevel|)), [], 0)]
    {
      var n := old(|firstLevel|);
      forall t | 0 <= t < n ensures firstLevel[t].id == t && TablesOk(t) {
        assert old(TablesOk(t)) && firstLevel[t] == old(firstLevel[t]);
      }
      forall t | 0 <= t < n ensures RecordsOk(t) && ProcessOf(t) == old(ProcessOf(t)) {
        assert firstLevel[t] in old(firstLevel);
        OldProcess(t);
      }
      assert RecordsOk(n);
      assert Numbers(n) == [];
    }

    twostate lemma OldProcess(t: nat)
      requires old(Shape()) && Tables() && old(firstLevel) <= firstLevel && t < old(|firstLevel|)
      requires unchanged(`secondLevel) && unchanged(`homes) && unchanged(`pages) && unchanged(old(firstLevel)[t])
      requires forall page | page in pages :: unchanged(page)
      ensures RecordsOk(t) && ProcessOf(t) == old(ProcessOf(t))
    {
      assert old(RecordsOk(t));
      assert firstLevel[t] == old(firstLevel[t]);
      assert Entries(t) == old(Entries(t));
      assert Numbers(t) == old(Numbers(t));
    }

    // ---------- what an update in place does to the value ----------

    /** Only entries and the first-level table of process `t` may differ from the old state. */
    twostate predicate OnlyProcess(t: nat)
      requires t < |firstLevel|
      reads this, firstLevel, pages
    {
      && unchanged(`secondLevel) && unchanged(`firstLevel) && unchanged(`homes) && unchanged(`pages)
      && (forall u | 0 <= u < |firstLevel| && u != t :: unchanged(firstLevel[u]))
      && forall page | page in pages && page.place.0 < |homes| && homes[page.place.0].0 != t :: unchanged(page)
    }

    twostate lemma EntriesSame(new t: nat, new u: nat)
      requires old(Tables()) && Tables() && t < |firstLevel| && u < |firstLevel| && u != t && OnlyProcess(t)
      ensures Entries(u) == old(Entries(u))
    {
      assert TablesOk(u);
      forall p | 0 <= p < PageCount(u) ensures PageAt(u, p).Value() == old(PageAt(u, p).Value()) {
        var page := PageAt(u, p);
        assert homes[page.place.0].0 == u;
        assert unchanged(page);
      }
    }

    twostate lemma OthersSame(t: nat)
      requires old(Tables()) && t < |firstLevel| && OnlyProcess(t)
      ensures Tables()
      ensures forall u | 0 <= u < |firstLevel| && u != t :: ProcessOf(u) == old(ProcessOf(u))
    {
      forall u | 0 <= u < |firstLevel| && u != t ensures ProcessOf(u) == old(ProcessOf(u)) {
        EntriesSame(t, u);
      }
    }

    /** The whole effect on the processes of changing one entry and the rest of process `t`. */
    twostate lemma ProcessPut(new t: nat, new p: nat, page: Page)
      requires old(Tables()) && t < |firstLevel| && OnlyProcess(t) && old(p < PageCount(t)) && page == old(PageAt(t, p))
      requires forall other | other in old(pages) && other != page :: unchanged(other)
      ensures Tables()
      ensures Procs() == old(Procs())[
        t := Process(firstLevel[t].pcb, old(Entries(t))[p := page.Value()], Numbers(t), firstLevel[t].pointer)]
    {
      OthersSame(t);
      forall q | 0 <= q < PageCount(t) && q != p ensures PageAt(t, q).Value() == old(PageAt(t, q).Value()) {
        if PageAt(t, q) == page {
          LookupIsInjective(t, q, t, p);
        }
      }
      assert Entries(t) == old(Entries(t))[p := page.Value()];
    }

    /** The same when no entry changes. */
    twostate lemma FirstLevelOnly(new t: nat)
      requires old(Tables()) && t < |firstLevel| && OnlyProcess(t)
      requires forall page | page in old(pages) :: unchanged(page)
      ensures Tables()
      ensures Procs()
        == old(Procs())[t := Process(firstLevel[t].pcb, old(Entries(t)), Numbers(t), firstLevel[t].pointer)]
    {
      OthersSame(t);
      assert Entries(t) == old(Entries(t));
    }

    twostate lemma ShapeKept(new t: nat)
      requires old(Shape()) && t < |firstLevel| && OnlyProcess(t) && Tables() && RecordsOk(t)
      ensures Shape()
    {
      forall u | 0 <= u < |firstLevel| ensures RecordsOk(u) {
        if u != t {
          assert old(RecordsOk(u));
        }
      }
    }

    // ---------- updates in place ----------

    /** Overwrites the entry of a page. */
    method PutEntry(t: nat, p: nat, e: Entry)
      requires Shape() && t < |firstLevel| && p < PageCount(t)
      modifies PageAt(t, p)
      ensures Shape() && Procs() == old(Procs()[t := SetEntry(ProcessOf(t), p, e)])
    {
      var page := PageAt(t, p);
      page.frame, page.modified, page.used, page.present := e.frame, e.modified, e.used, e.present;
      EntryPut(t, p, page);
    }

    /** Overwriting an entry moves no record. */
    twostate lemma EntryPut(new t: nat, new p: nat, page: Page)
      requires old(Shape()) && t < |firstLevel| && OnlyProcess(t) && unchanged(firstLevel[t])
      requires old(p < PageCount(t)) && page == old(PageAt(t, p))
      requires forall other | other in old(pages) && other != page :: unchanged(other)
      ensures Shape() && Procs() == old(Procs())[t := SetEntry(old(ProcessOf(t)), p, page.Value())]
    {
      ProcessPut(t, p, page);
      assert Numbers(t) == old(Numbers(t));
      assert RecordsOk(t) by {
        assert old(RecordsOk(t));
      }
      hide RecordsOk, TablesOk, EntriesOk, Numbers, Entries;
      ShapeKept(t);
    }

    /** Appends the record of a page. */
    method PushRecord(t: nat, p: nat)
      requires Shape() && t < |firstLevel| && p < PageCount(t)
      modifies firstLevel[t]
      ensures Shape() && firstLevel[t].pointer == old(firstLevel[t].pointer)
      ensures Procs() == old(Procs()[t := ProcessOf(t).(residents := Numbers(t) + [p])])
    {
      firstLevel[t].residents := firstLevel[t].residents + [Resident(p, PageAt(t, p))];
      assert Numbers(t) == old(Numbers(t)) + [p];
      FirstLevelOnly(t);
      assert RecordsOk(t) by {
        assert old(RecordsOk(t));
      }
      hide RecordsOk, TablesOk, EntriesOk, Numbers, Entries;
      ShapeKept(t);
    }

    /** Overwrites the record in slot `k`. */
    method PutRecord(t: nat, k: nat, p: nat)
      requires Shape() && t < |firstLevel| && p < PageCount(t) && k < |firstLevel[t].residents|
      modifies firstLevel[t]
      ensures Shape() && firstLevel[t].pointer == old(firstLevel[t].pointer)
      ensures Procs() == old(Procs()[t := ProcessOf(t).(residents := Numbers(t)[k := p])])
    {
      firstLevel[t].residents := firstLevel[t].residents[k := Resident(p, PageAt(t, p))];
      assert Numbers(t) == old(Numbers(t))[k := p];
      FirstLevelOnly(t);
      assert RecordsOk(t) by {
        assert old(RecordsOk(t));
      }
      hide RecordsOk, TablesOk, EntriesOk, Numbers, Entries;
      ShapeKept(t);
    }

    /** Records that page `p` is in frame `f`, as the next resident, and moves the hand on. */
    method AppendRecord(t: nat, p: nat, f: nat)
      requires Shape() && t < |firstLevel| && p < PageCount(t) && firstLevel[t].pointer < c.quota
      modifies firstLevel[t], PageAt(t, p)
      ensures Shape() && Procs() == old(Procs()[t := Admit(c, ProcessOf(t), p, f)])
    {
      ghost var procs, pr := Procs(), ProcessOf(t);
      PushRecord(t, p);
      Advance(t);
      assert Procs() == procs[t := pr.(residents := pr.residents + [p], pointer := Ring(pr.pointer, 1, c.quota))];
      PutEntry(t, p, PageAt(t, p).Value().(frame := f, used := true, present := true));
      assert Procs() == procs[t := Admit(c, pr, p, f)];
    }

    /** Drops the record of the first resident page. */
    method PopRecord(t: nat)
      requires Shape() && t < |firstLevel| && |firstLevel[t].residents| > 0
      modifies firstLevel[t]
      ensures Shape() && firstLevel[t].pointer == old(firstLevel[t].pointer)
      ensures Procs() == old(Procs()[t := ProcessOf(t).(residents := Numbers(t)[1..])])
    {
      RecordAt(t, 0);
      firstLevel[t].residents := firstLevel[t].residents[1..];
      assert forall k | 0 <= k < |firstLevel[t].residents| ::
        firstLevel[t].residents[k] == old(firstLevel[t].residents)[k + 1];
      assert RecordsOk(t) by {
        assert old(RecordsOk(t));
      }
      assert Numbers(t) == old(Numbers(t))[1..];
      FirstLevelOnly(t);
      hide RecordsOk, TablesOk, EntriesOk, Numbers, Entries;
      ShapeKept(t);
    }

    method ResetHand(t: nat)
      requires Shape() && t < |firstLevel|
      modifies firstLevel[t]
      ensures Shape() && Procs() == old(Procs()[t := ProcessOf(t).(pointer := 0)])
    {
      firstLevel[t].pointer := 0;
      FirstLevelOnly(t);
      assert RecordsOk(t) by {
        assert old(RecordsOk(t));
      }
      ShapeKept(t);
    }

    method Advance(t: nat)
      requires Shape() && t < |firstLevel| && firstLevel[t].pointer < c.quota
      modifies firstLevel[t]
      ensures Shape() && firstLevel[t].residents == old(firstLevel[t].residents)
      ensures Procs() == old(Procs()[t := ProcessOf(t).(pointer := Ring(ProcessOf(t).pointer, 1, c.quota))])
    {
      firstLevel[t].Advance(c.quota);
      FirstLevelOnly(t);
      assert RecordsOk(t) by {
        assert old(RecordsOk(t));
      }
      ShapeKept(t);
    }

    lemma RecordAt(t: nat, k: nat)
      requires Shape() && t < |firstLevel| && k < |firstLevel[t].residents|
      ensures Numbers(t)[k] < PageCount(t) && firstLevel[t].residents[k].page == PageAt(t, Numbers(t)[k])
    {
      assert RecordsOk(t);
    }

    lemma RecordsDistinct(t: nat)
      requires Shape() && t < |firstLevel| && ResidentsOk(c, ProcessOf(t))
      ensures DistinctPages(firstLevel[t].residents)
    {
      var residents := firstLevel[t].residents;
      forall i, j | 0 <= i < j < |residents| ensures residents[i].page != residents[j].page {
        RecordAt(t, i);
        RecordAt(t, j);
        if residents[i].page == residents[j].page {
          LookupIsInjective(t, Numbers(t)[i], t, Numbers(t)[j]);
        }
      }
    }

    /** The entries the hand turns over are those of the resident pages. */
    lemma MarksAreEntries(t: nat)
      requires Shape() && t < |firstLevel| && ResidentsOk(c, ProcessOf(t))
      ensures Marks(firstLevel[t].residents) == ResidentEntries(ProcessOf(t))
    {
      forall k | 0 <= k < |firstLevel[t].residents|
        ensures Marks(firstLevel[t].residents)[k] == ResidentEntries(ProcessOf(t))[k]
      {
        RecordAt(t, k);
      }
    }

    /** Entries of pages that are not resident are not among those the hand turns over. */
    lemma NotResident(t: nat, q: nat)
      requires Shape() && t < |firstLevel| && q < PageCount(t) && q !in Numbers(t)
      ensures forall a | a in firstLevel[t].residents :: a.page != PageAt(t, q)
    {
      forall k | 0 <= k < |firstLevel[t].residents| ensures firstLevel[t].residents[k].page != PageAt(t, q) {
        RecordAt(t, k);
        if firstLevel[t].residents[k].page == PageAt(t, q) {
          LookupIsInjective(t, Numbers(t)[k], t, q);
        }
      }
    }

    /** Changed marks of the resident entries, and no other change, are cleared use bits of the pages passed. */
    twostate lemma HandEntries(new t: nat, new k: nat)
      requires Shape() && t < |firstLevel| && old(Tables() && t < |firstLevel| && t < |Procs()|)
      requires unchanged(`pages) && unchanged(`secondLevel) && unchanged(`firstLevel) && unchanged(`homes)
      requires var pr := old(ProcessOf(t));
        && ResidentsOk(c, pr) && Numbers(t) == pr.residents && pr.pointer < |pr.residents| && k <= |pr.residents|
        && Marks(firstLevel[t].residents) == Cleared(ResidentEntries(pr), pr.pointer, k)
      requires forall page | page in pages && page !in (set a | a in firstLevel[t].residents :: a.page) ::
        unchanged(page)
      ensures var pr := old(ProcessOf(t));
        Entries(t) == ClearUse(pr.entries, PassedPages(pr.residents, pr.pointer, k))
    {
      var pr := old(ProcessOf(t));
      forall i | 0 <= i < |pr.residents|
        ensures Entries(t)[pr.residents[i]] == Cleared(ResidentEntries(pr), pr.pointer, k)[i]
      {
        RecordAt(t, i);
        assert Entries(t)[pr.residents[i]] == Marks(firstLevel[t].residents)[i];
      }
      forall q | 0 <= q < PageCount(t) && q !in pr.residents ensures Entries(t)[q] == pr.entries[q] {
        NotResident(t, q);
      }
      ClearedResidents(pr, pr.pointer, k, Entries(t));
    }

    /** When only resident entries of `t` changed, as the selection prescribes, the value changed as `TurnHand` says. */
    /** With its records in place process `t` may change its entries, its pointer and nothing else. */
    twostate lemma RecordsStay(new t: nat)
      requires old(Shape()) && t < |firstLevel| && OnlyProcess(t)
        && firstLevel[t].residents == old(firstLevel[t].residents)
      ensures Shape() && Numbers(t) == old(Numbers(t))
      ensures forall u | 0 <= u < |firstLevel| && u != t :: ProcessOf(u) == old(ProcessOf(u))
      ensures unchanged(`pages) && unchanged(`secondLevel) && unchanged(`firstLevel) && unchanged(`homes)
    {
      OthersSame(t);
      assert Numbers(t) == old(Numbers(t));
      assert RecordsOk(t) by {
        assert old(RecordsOk(t)) && old(TablesOk(t));
      }
      hide RecordsOk, TablesOk, EntriesOk, Numbers, Entries;
      ShapeKept(t);
    }

    twostate lemma HandTurned(new t: nat)
      requires old(Shape()) && t < |firstLevel| && OnlyProcess(t)
        && firstLevel[t].residents == old(firstLevel[t].residents)
      requires old(ResidentsOk(c, ProcessOf(t))) && |firstLevel[t].residents| == c.quota
        && old(firstLevel[t].pointer) < c.quota
      requires old(Marks(firstLevel[t].residents) == ResidentEntries(ProcessOf(t)))
      requires var marks, start := old(Marks(firstLevel[t].residents)), old(firstLevel[t].pointer);
        var s := Select(c.algorithm, marks, start);
        firstLevel[t].pointer == s.victim && Marks(firstLevel[t].residents) == Cleared(marks, start, s.cleared)
      requires forall page | page in pages && page !in (set a | a in firstLevel[t].residents :: a.page) ::
        unchanged(page)
      ensures Shape() && Procs() == old(Procs())[t := MemoryModel.TurnHand(c, old(ProcessOf(t)))]
    {
      RecordsStay(t);
      hide OnlyProcess, RecordsOk, TablesOk, EntriesOk, Numbers, Entries, Select, Cleared, PassedPages, ClearUse,
        ResidentsOk;
      HandEntries(t, Select(c.algorithm, old(Marks(firstLevel[t].residents)), old(firstLevel[t].pointer)).cleared);
    }

    /** Lets the configured clock turn the hand of process `t` to its victim. */
    /** When only process `t` and the pages it has in memory change, the other processes stay as they were. */
    twostate lemma OnlyItsPages(t: nat)
      requires unchanged(`secondLevel) && unchanged(`firstLevel) && unchanged(`homes) && unchanged(`pages)
      requires t < |firstLevel| && old(firstLevel[t].residents) == firstLevel[t].residents
      requires forall u | 0 <= u < |firstLevel| && u != t :: unchanged(firstLevel[u])
      requires forall page | page in pages && page !in (set a | a in firstLevel[t].residents :: a.page) ::
        unchanged(page)
      requires forall a | a in firstLevel[t].residents :: a.page.place.0 < |homes| && homes[a.page.place.0].0 == t
      ensures OnlyProcess(t)
    {
    }

    method TurnHand(t: nat)
      requires Shape() && t < |firstLevel| && |firstLevel[t].residents| == c.quota && firstLevel[t].pointer < c.quota
      requires ResidentsOk(c, ProcessOf(t))
      modifies firstLevel[t], set a | a in firstLevel[t].residents :: a.page
      ensures Shape() && Procs() == old(Procs()[t := MemoryModel.TurnHand(c, ProcessOf(t))])
    {
      RecordsDistinct(t);
      MarksAreEntries(t);
      ResidentsAtHome(t);
      OwnTable(t);
      hide Shape, Procs, ProcessOf, DistinctPages, ResidentsOk, Select, Cleared, ResidentEntries;
      firstLevel[t].Victim(c.algorithm, c.quota);
      OnlyItsPages(t);
      hide OnlyProcess, Marks;
      HandTurned(t);
    }

    /** A first-level table belongs to one process only. */
    lemma OwnTable(t: nat)
      requires Tables() && t < |firstLevel|
      ensures forall u | 0 <= u < |firstLevel| && u != t :: firstLevel[u] != firstLevel[t]
    {
    }

    lemma ResidentsAtHome(t: nat)
      requires Shape() && t < |firstLevel|
      ensures forall a | a in firstLevel[t].residents ::
        a.page in pages && a.page.place.0 < |homes| && homes[a.page.place.0].0 == t
    {
      assert TablesOk(t);
      forall k | 0 <= k < |firstLevel[t].residents|
        ensures var page := firstLevel[t].residents[k].page;
          page in pages && page.place.0 < |homes| && homes[page.place.0].0 == t
      {
        RecordAt(t, k);
      }
    }

    /** Gives the slot under the hand to page `p`, now in frame `f`, and moves the hand on. */
    method ReplaceRecord(t: nat, p: nat, f: nat)
      requires Shape() && t < |firstLevel| && p < PageCount(t)
      requires firstLevel[t].pointer < c.quota && firstLevel[t].pointer < |firstLevel[t].residents|
      modifies firstLevel[t], PageAt(t, p)
      ensures Shape() && Procs() == old(Procs()[t := Swap(c, ProcessOf(t), p, f)])
    {
      ghost var procs, pr := Procs(), ProcessOf(t);
      PutRecord(t, firstLevel[t].pointer, p);
      Advance(t);
      assert Procs()
        == procs[t := pr.(residents := pr.residents[pr.pointer := p], pointer := Ring(pr.pointer, 1, c.quota))];
      PutEntry(t, p, PageAt(t, p).Value().(frame := f, used := true, present := true));
      assert Procs() == procs[t := Swap(c, pr, p, f)];
    }
  }

  lemma PassedIff(residents: seq<nat>, start: nat, k: nat, i: nat)
    requires start < |residents| && k <= |residents| && i < |residents|
    requires forall i, j | 0 <= i < j < |residents| :: residents[i] != residents[j]
    ensures residents[i] in PassedPages(residents, start, k) <==> Distance(start, i, |residents|) < k
  {
    var d := Distance(start, i, |residents|);
    assert residents[Ring(start, d, |residents|)] == residents[i];
    forall j | 0 <= j < k && residents[Ring(start, j, |residents|)] == residents[i] ensures d < k {
      assert Ring(start, j, |residents|) == i;
    }
  }

  /** Clearing the marks of the slots passed is clearing the use bits of the pages passed. */
  lemma ClearedResidents(pr: Process, start: nat, k: nat, entries: seq<Entry>)
    requires start < |pr.residents| && k <= |pr.residents| && |entries| == |pr.entries|
    requires forall i | 0 <= i < |pr.residents| :: pr.residents[i] < |pr.entries|
    requires forall i, j | 0 <= i < j < |pr.residents| :: pr.residents[i] != pr.residents[j]
    requires forall i | 0 <= i < |pr.residents| :: entries[pr.residents[i]] == Cleared(ResidentEntries(pr), start, k)[i]
    requires forall q | 0 <= q < |pr.entries| && q !in pr.residents :: entries[q] == pr.entries[q]
    ensures entries == ClearUse(pr.entries, PassedPages(pr.residents, start, k))
  {
    forall q | 0 <= q < |entries| ensures entries[q] == ClearUse(pr.entries, PassedPages(pr.residents, start, k))[q] {
      if q in pr.residents {
        var i :| 0 <= i < |pr.residents| && pr.residents[i] == q;
        PassedIff(pr.residents, start, k, i);
      }
    }
  }
}
