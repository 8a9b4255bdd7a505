/** The cpu's translation cache: a bounded list of page and frame pairs, replaced by FIFO or by LRU. */
module Tlb {

  datatype Replacement = Fifo | Lru

  datatype TlbEntry = TlbEntry(page: int, frame: int)

  /** The answer of a search that misses. */
  const NO_FRAME := -1

  // ---------- what the operations do to the list ----------

  /** The first entry of a page; the length of the list when there is none. */
  function Find(list: seq<TlbEntry>, page: int): (k: nat)
    ensures k <= |list| && (k < |list| ==> list[k].page == page)
    ensures forall i | 0 <= i < k :: list[i].page != page
  {
    if |list| == 0 || list[0].page == page then 0 else 1 + Find(list[1..], page)
  }

  lemma {:induction false} FindIs(list: seq<TlbEntry>, page: int, k: nat)
    requires k <= |list| && (forall i | 0 <= i < k :: list[i].page != page)
    requires k < |list| ==> list[k].page == page
    ensures Find(list, page) == k
  {
    if k > 0 {
      FindIs(list[1..], page, k - 1);
    }
  }

  /** The frame that the list has for a page. */
  function FrameIn(list: seq<TlbEntry>, page: int): int {
    var k := Find(list, page);
    if k < |list| then list[k].frame else NO_FRAME
  }

  /** The list once a page was looked up: under LRU a page found becomes the last. */
  function Looked(r: Replacement, list: seq<TlbEntry>, page: int): seq<TlbEntry> {
    var k := Find(list, page);
    if r.Lru? && FrameIn(list, page) != NO_FRAME then list[..k] + list[k + 1..] + [list[k]] else list
  }

  /** The list with a new last entry; a full list loses its first. */
  function Added(n: nat, list: seq<TlbEntry>, e: TlbEntry): seq<TlbEntry>
    requires n >= 1
  {
    if |list| < n then list + [e] else list[1..] + [e]
  }

  class Cache {
    var list: seq<TlbEntry>
    const capacity: nat
    const replacement: Replacement

    constructor (capacity: nat, replacement: Replacement)
      ensures list == [] && this.capacity == capacity && this.replacement == replacement
    {
      list := [];
      this.capacity := capacity;
      this.replacement := replacement;
    }

    method Clear()
      modifies this
      ensures list == []
    {
      list := [];
    }

    method ReplaceEntry(e: TlbEntry)
      requires capacity >= 1
      modifies this
      ensures list == Added(capacity, old(list), e)
    {
      if |list| < capacity {
        list := list + [e];
      } else if replacement == Fifo {
        list := list[1..];
        list := list + [e];
      } else if replacement == Lru {
        list := list[1..];
        list := list + [e];
      }
    }

    method FindFrame(page: int) returns (frame: int)
      modifies this
      ensures frame == FrameIn(old(list), page) && list == Looked(replacement, old(list), page)
    {
      frame := NO_FRAME;
      var place := 0;
      var i := 0;
      while i < |list|
        invariant i <= |list| && frame == NO_FRAME && list == old(list)
        invariant forall j | 0 <= j < i :: list[j].page != page
      {
        if list[i].page == page {
          frame := list[i].frame;
          place := i;
          break;
        }
        i := i + 1;
      }
      FindIs(list, page, i);
      if frame != NO_FRAME && replacement == Lru {
        var moved := list[place];
        list := list[..place] + list[place + 1..];
        list := list + [moved];
      }
    }
  }

  // ---------- a translation, and a run of them ----------

  /** The list after page `page` is translated, when walking the page tables would answer `frame`. */
  function Translated(r: Replacement, n: nat, list: seq<TlbEntry>, page: int, frame: nat): seq<TlbEntry>
    requires n >= 1
  {
    if FrameIn(list, page) >= 0 then Looked(r, list, page)
    else Added(n, Looked(r, list, page), TlbEntry(page, frame))
  }

  /** A translated page with the frame that the page tables have for it. */
  type Use = (int, nat)

  function After(r: Replacement, n: nat, uses: seq<Use>): seq<TlbEntry>
    requires n >= 1
  {
    if |uses| == 0 then [] else
      var u := uses[|uses| - 1];
      Translated(r, n, After(r, n, uses[..|uses| - 1]), u.0, u.1)
  }

  function Pages(list: seq<TlbEntry>): (p: seq<int>)
    ensures |p| == |list| && forall i | 0 <= i < |p| :: p[i] == list[i].page
  {
    seq(|list|, i requires 0 <= i < |list| => list[i].page)
  }

  function UsedPages(uses: seq<Use>): (p: seq<int>)
    ensures |p| == |uses| && forall i | 0 <= i < |p| :: p[i] == uses[i].0
  {
    seq(|uses|, i requires 0 <= i < |uses| => uses[i].0)
  }

  /** How many of the translations miss. */
  function Misses(r: Replacement, n: nat, uses: seq<Use>): nat
    requires n >= 1
  {
    if |uses| == 0 then 0 else
      var before := uses[..|uses| - 1];
      Misses(r, n, before) + if FrameIn(After(r, n, before), uses[|uses| - 1].0) < 0 then 1 else 0
  }

  // ---------- what every run keeps ----------

  ghost predicate Distinct(s: seq<int>) {
    forall i, j | 0 <= i < j < |s| :: s[i] != s[j]
  }

  /** Every entry is a page with its frame, and no page is twice in the list. */
  ghost predicate WellFormed(n: nat, list: seq<TlbEntry>) {
    |list| <= n && Distinct(Pages(list)) && forall i | 0 <= i < |list| :: list[i].frame >= 0
  }

  function Without(s: seq<int>, x: int): seq<int> {
    if |s| == 0 then [] else if s[0] == x then Without(s[1..], x) else [s[0]] + Without(s[1..], x)
  }

  lemma {:induction false} WithoutContents(s: seq<int>, x: int, y: int)
    ensures y in Without(s, x) <==> y in s && y != x
  {
    if |s| > 0 {
      WithoutContents(s[1..], x, y);
      assert s == [s[0]] + s[1..];
    }
  }

  lemma {:induction false} WithoutAbsent(s: seq<int>, x: int)
    requires x !in s
    ensures Without(s, x) == s
  {
    if |s| > 0 {
      WithoutAbsent(s[1..], x);
    }
  }

  lemma {:induction false} WithoutAt(s: seq<int>, k: nat)
    requires k < |s| && Distinct(s)
    ensures Without(s, s[k]) == s[..k] + s[k + 1..]
  {
    if k == 0 {
      WithoutAbsent(s[1..], s[0]);
    } else {
      WithoutAt(s[1..], k - 1);
      assert s[1..][..k - 1] == s[1..k] && s[1..][k..] == s[k + 1..];
      assert [s[0]] + (s[1..k] + s[k + 1..]) == s[..k] + s[k + 1..];
    }
  }

  /** The pages of the list after a translation. */
  function Stepped(r: Replacement, n: nat, pages: seq<int>, x: int): seq<int>
    requires n >= 1
  {
    if x in pages then (if r.Lru? then Without(pages, x) + [x] else pages)
    else if |pages| < n then pages + [x]
    else pages[1..] + [x]
  }

  lemma DistinctJoined(s: seq<int>, x: int)
    requires Distinct(s) && x !in s
    ensures Distinct(s + [x])
  {
  }

  lemma DistinctCut(s: seq<int>, k: nat)
    requires k < |s| && Distinct(s)
    ensures Distinct(s[..k] + s[k + 1..]) && s[k] !in s[..k] + s[k + 1..]
  {
    var r := s[..k] + s[k + 1..];
    forall i, j | 0 <= i < j < |r| ensures r[i] != r[j] {
      assert r[i] == s[if i < k then i else i + 1] && r[j] == s[if j < k then j else j + 1];
    }
  }

  lemma SteppedDistinct(r: Replacement, n: nat, pages: seq<int>, x: int)
    requires n >= 1 && |pages| <= n && Distinct(pages)
    ensures Distinct(Stepped(r, n, pages, x)) && |Stepped(r, n, pages, x)| <= n
  {
    if x in pages {
      var k :| 0 <= k < |pages| && pages[k] == x;
      WithoutAt(pages, k);
      DistinctCut(pages, k);
      DistinctJoined(pages[..k] + pages[k + 1..], x);
    } else if |pages| < n {
      DistinctJoined(pages, x);
    } else {
      DistinctCut(pages, 0);
      assert pages[..0] + pages[1..] == pages[1..];
      DistinctJoined(pages[1..], x);
    }
    hide Without, Distinct;
  }

  lemma PagesMoved(list: seq<TlbEntry>, k: nat)
    requires k < |list|
    ensures Pages(list[..k] + list[k + 1..] + [list[k]]) == Pages(list)[..k] + Pages(list)[k + 1..] + [Pages(list)[k]]
  {
  }

  lemma PagesAdded(n: nat, list: seq<TlbEntry>, e: TlbEntry)
    requires n >= 1 && |list| <= n
    ensures Pages(Added(n, list, e)) == if |list| < n then Pages(list) + [e.page] else Pages(list)[1..] + [e.page]
  {
  }

  lemma HitIsCached(list: seq<TlbEntry>, page: int)
    requires forall i | 0 <= i < |list| :: list[i].frame >= 0
    ensures FrameIn(list, page) >= 0 <==> page in Pages(list)
    ensures FrameIn(list, page) >= 0 <==> Find(list, page) < |list|
  {
    var k := Find(list, page);
    assert k < |list| ==> Pages(list)[k] == page;
  }

  lemma TranslatedPages(r: Replacement, n: nat, list: seq<TlbEntry>, page: int, frame: nat)
    requires n >= 1 && WellFormed(n, list)
    ensures FrameIn(list, page) >= 0 <==> page in Pages(list)
    ensures Pages(Translated(r, n, list, page, frame)) == Stepped(r, n, Pages(list), page)
  {
    var k := Find(list, page);
    HitIsCached(list, page);
    if k < |list| {
      PagesMoved(list, k);
      WithoutAt(Pages(list), k);
    } else {
      PagesAdded(n, list, TlbEntry(page, frame));
    }
    hide Without, Find, Added, Pages, Distinct;
  }

  lemma TranslatedFrames(r: Replacement, n: nat, list: seq<TlbEntry>, page: int, frame: nat)
    requires n >= 1 && forall e | e in list :: e.frame >= 0
    ensures forall e | e in Translated(r, n, list, page, frame) :: e in list || e == TlbEntry(page, frame)
  {
    forall e | e in Looked(r, list, page) ensures e in list {
      hide Find;
    }
    forall e | e in Added(n, Looked(r, list, page), TlbEntry(page, frame)) && e != TlbEntry(page, frame)
      ensures e in Looked(r, list, page)
    {
      hide Find, Looked;
    }
    hide Looked, Added, FrameIn;
  }

  lemma TranslatedWellFormed(r: Replacement, n: nat, list: seq<TlbEntry>, page: int, frame: nat)
    requires n >= 1 && WellFormed(n, list)
    ensures WellFormed(n, Translated(r, n, list, page, frame))
  {
    TranslatedPages(r, n, list, page, frame);
    SteppedDistinct(r, n, Pages(list), page);
    TranslatedFrames(r, n, list, page, frame);
    hide Translated, Stepped, Distinct;
  }

  lemma {:induction false} AfterWellFormed(r: Replacement, n: nat, uses: seq<Use>)
    requires n >= 1
    ensures WellFormed(n, After(r, n, uses))
  {
    if |uses| > 0 {
      var u := uses[|uses| - 1];
      AfterWellFormed(r, n, uses[..|uses| - 1]);
      TranslatedWellFormed(r, n, After(r, n, uses[..|uses| - 1]), u.0, u.1);
    }
  }

  // ---------- LRU holds the most recently used pages ----------

  /** The pages of a trace in the order of their last use, the latest at the end. */
  function Recent(t: seq<int>): seq<int> {
    if |t| == 0 then [] else Without(Recent(t[..|t| - 1]), t[|t| - 1]) + [t[|t| - 1]]
  }

  /** The index of the last use of a page, or -1. */
  function LastUse(t: seq<int>, page: int): (k: int)
    ensures -1 <= k < |t|
  {
    if |t| == 0 then -1 else if t[|t| - 1] == page then |t| - 1 else LastUse(t[..|t| - 1], page)
  }

  /** The last `n` elements, or all of them. */
  function Latest(s: seq<int>, n: nat): seq<int> {
    if |s| <= n then s else s[|s| - n..]
  }

  lemma {:induction false} WithoutJoined(a: seq<int>, b: seq<int>, x: int)
    ensures Without(a + b, x) == Without(a, x) + Without(b, x)
  {
    if |a| == 0 {
      assert a + b == b;
    } else {
      assert (a + b)[1..] == a[1..] + b;
      WithoutJoined(a[1..], b, x);
    }
  }

  lemma LatestSuffix(a: seq<int>, b: seq<int>, n: nat)
    requires |b| == n || (|b| < n && |a| == 0)
    ensures Latest(a + b, n) == b
  {
  }

  lemma DistinctParts(a: seq<int>, l: seq<int>, x: int)
    requires Distinct(a + l) && x in l
    ensures Distinct(l) && x !in a
  {
    forall i, j | 0 <= i < j < |l| ensures l[i] != l[j] {
      assert (a + l)[|a| + i] != (a + l)[|a| + j];
    }
    var k :| 0 <= k < |l| && l[k] == x;
    assert (a + l)[|a| + k] == x;
    assert forall i | 0 <= i < |a| :: (a + l)[i] == a[i];
  }

  lemma MovedWithin(a: seq<int>, l: seq<int>, n: nat, x: int)
    requires n >= 1 && Distinct(a + l) && (|l| == n || (|l| < n && |a| == 0)) && x in l
    ensures Latest(Without(a + l, x) + [x], n) == Without(l, x) + [x]
  {
    DistinctParts(a, l, x);
    WithoutJoined(a, l, x);
    WithoutAbsent(a, x);
    var k :| 0 <= k < |l| && l[k] == x;
    WithoutAt(l, k);
    hide Without, Latest, Distinct;
    LatestSuffix(a, Without(l, x) + [x], n);
    assert a + Without(l, x) + [x] == a + (Without(l, x) + [x]);
  }

  lemma FirstMovesBack(w: seq<int>, l: seq<int>, x: int)
    requires |l| > 0
    ensures w + l + [x] == (w + [l[0]]) + (l[1..] + [x])
  {
  }

  lemma MovedFromBefore(a: seq<int>, l: seq<int>, n: nat, x: int)
    requires n >= 1 && (|l| == n || (|l| < n && |a| == 0)) && x !in l
    ensures Latest(Without(a + l, x) + [x], n) == if |l| < n then l + [x] else l[1..] + [x]
  {
    WithoutJoined(a, l, x);
    WithoutAbsent(l, x);
    var w := Without(a, x);
    if |l| < n {
      assert w + l + [x] == [] + (l + [x]);
      hide Without, Latest;
      LatestSuffix([], l + [x], n);
    } else {
      hide Without, Latest;
      FirstMovesBack(w, l, x);
      LatestSuffix(w + [l[0]], l[1..] + [x], n);
    }
  }

  /** The latest `n` elements of a list follow it when an element moves to its end. */
  lemma LatestMoved(s: seq<int>, n: nat, x: int)
    requires n >= 1 && Distinct(s)
    ensures Latest(Without(s, x) + [x], n) == Stepped(Lru, n, Latest(s, n), x)
  {
    var l := Latest(s, n);
    var a := s[..|s| - |l|];
    assert s == a + l && (|l| == n || (|l| < n && |a| == 0));
    hide Latest, Without;
    if x in l {
      MovedWithin(a, l, n, x);
    } else {
      MovedFromBefore(a, l, n, x);
    }
  }

  lemma LatestGrows(s: seq<int>, n: nat, m: nat, x: int)
    requires n <= m && x in Latest(s, n)
    ensures x in Latest(s, m)
  {
    var i :| 0 <= i < |Latest(s, n)| && Latest(s, n)[i] == x;
    assert Latest(s, m)[|Latest(s, m)| - |Latest(s, n)| + i] == x;
  }

  ghost predicate InOrder(t: seq<int>, s: seq<int>) {
    forall i, j | 0 <= i < j < |s| :: LastUse(t, s[i]) < LastUse(t, s[j])
  }

  lemma {:induction false} WithoutInOrder(t: seq<int>, s: seq<int>, x: int)
    requires InOrder(t, s)
    ensures InOrder(t, Without(s, x))
  {
    if |s| > 0 {
      WithoutInOrder(t, s[1..], x);
      var w := Without(s[1..], x);
      assert Without(s, x) == if s[0] == x then w else [s[0]] + w;
      hide LastUse, Without;
      forall i | 0 <= i < |w| ensures LastUse(t, s[0]) < LastUse(t, w[i]) {
        WithoutContents(s[1..], x, w[i]);
        var j :| 0 <= j < |s[1..]| && s[1..][j] == w[i];
        assert s[j + 1] == w[i];
      }
      assert InOrder(t, [s[0]] + w);
    }
  }

  lemma UsedLast(before: seq<int>, last: int, w: seq<int>)
    requires InOrder(before, w) && last !in w
    ensures InOrder(before + [last], w + [last])
  {
    var t := before + [last];
    assert t[..|t| - 1] == before;
    forall p | p != last ensures LastUse(t, p) == LastUse(before, p) {
    }
  }

  /** What `Recent` means: each page of the trace once, in the order of last uses. */
  lemma {:induction false} RecentOrder(t: seq<int>)
    ensures InOrder(t, Recent(t)) && Distinct(Recent(t))
    ensures forall p :: p in Recent(t) <==> p in t
  {
    if |t| > 0 {
      var before, last := t[..|t| - 1], t[|t| - 1];
      RecentOrder(before);
      assert t == before + [last];
      var w := Without(Recent(before), last);
      assert Recent(t) == w + [last];
      hide Recent;
      WithoutInOrder(before, Recent(before), last);
      forall p ensures p in w <==> p in before && p != last {
        WithoutContents(Recent(before), last, p);
      }
      hide Without;
      UsedLast(before, last, w);
      assert forall i, j | 0 <= i < j < |w + [last]| :: LastUse(t, (w + [last])[i]) < LastUse(t, (w + [last])[j]);
    }
  }

  /** The LRU cache is the trace: its pages are the most recently used, as many as fit, oldest first, each once. */
  lemma {:induction false} LruHoldsMostRecent(n: nat, uses: seq<Use>)
    requires n >= 1
    ensures Pages(After(Lru, n, uses)) == Latest(Recent(UsedPages(uses)), n)
  {
    if |uses| > 0 {
      var before, u := uses[..|uses| - 1], uses[|uses| - 1];
      LruHoldsMostRecent(n, before);
      AfterWellFormed(Lru, n, before);
      TranslatedPages(Lru, n, After(Lru, n, before), u.0, u.1);
      RecentOrder(UsedPages(before));
      LatestMoved(Recent(UsedPages(before)), n, u.0);
      assert UsedPages(uses)[..|uses| - 1] == UsedPages(before);
    }
  }

  /** A larger LRU cache holds whatever a smaller one does after the same translations. */
  lemma LruInclusion(n: nat, m: nat, uses: seq<Use>, page: int)
    requires 1 <= n <= m && page in Pages(After(Lru, n, uses))
    ensures page in Pages(After(Lru, m, uses))
  {
    LruHoldsMostRecent(n, uses);
    LruHoldsMostRecent(m, uses);
    LatestGrows(Recent(UsedPages(uses)), n, m, page);
  }

  /** So a larger LRU cache never misses more. */
  lemma {:induction false} LruNeverMissesMore(n: nat, m: nat, uses: seq<Use>)
    requires 1 <= n <= m
    ensures Misses(Lru, m, uses) <= Misses(Lru, n, uses)
  {
    if |uses| > 0 {
      var before, u := uses[..|uses| - 1], uses[|uses| - 1];
      LruNeverMissesMore(n, m, before);
      AfterWellFormed(Lru, n, before);
      AfterWellFormed(Lru, m, before);
      TranslatedPages(Lru, n, After(Lru, n, before), u.0, u.1);
      TranslatedPages(Lru, m, After(Lru, m, before), u.0, u.1);
      if u.0 in Pages(After(Lru, n, before)) {
        LruInclusion(n, m, before, u.0);
      }
    }
  }

  // ---------- FIFO holds the pages of the last misses ----------

  /** The pages that missed, in order. */
  function Missed(n: nat, uses: seq<Use>): seq<int>
    requires n >= 1
  {
    if |uses| == 0 then [] else
      var before, page := uses[..|uses| - 1], uses[|uses| - 1].0;
      Missed(n, before) + if page in Pages(After(Fifo, n, before)) then [] else [page]
  }

  lemma LatestAdded(s: seq<int>, n: nat, x: int)
    requires n >= 1
    ensures var l := Latest(s, n); Latest(s + [x], n) == if |l| < n then l + [x] else l[1..] + [x]
  {
  }

  lemma FifoStep(n: nat, uses: seq<Use>)
    requires n >= 1 && |uses| > 0
    ensures var before, u := uses[..|uses| - 1], uses[|uses| - 1];
      && Pages(After(Fifo, n, uses)) == Stepped(Fifo, n, Pages(After(Fifo, n, before)), u.0)
      && Misses(Fifo, n, uses) == Misses(Fifo, n, before) + if u.0 in Pages(After(Fifo, n, before)) then 0 else 1
  {
    var before, u := uses[..|uses| - 1], uses[|uses| - 1];
    AfterWellFormed(Fifo, n, before);
    TranslatedPages(Fifo, n, After(Fifo, n, before), u.0, u.1);
    hide Translated, FrameIn, Stepped, WellFormed, Pages;
  }

  /** The FIFO cache holds the pages of the last misses, as many as fit: a hit changes nothing. */
  lemma {:induction false} FifoHoldsLastMisses(n: nat, uses: seq<Use>)
    requires n >= 1
    ensures Pages(After(Fifo, n, uses)) == Latest(Missed(n, uses), n)
    ensures |Missed(n, uses)| == Misses(Fifo, n, uses)
  {
    if |uses| > 0 {
      var before, u := uses[..|uses| - 1], uses[|uses| - 1];
      FifoHoldsLastMisses(n, before);
      FifoStep(n, uses);
      LatestAdded(Missed(n, before), n, u.0);
      var hit := u.0 in Pages(After(Fifo, n, before));
      assert Missed(n, uses) == if hit then Missed(n, before) + [] else Missed(n, before) + [u.0];
      assert Missed(n, before) + [] == Missed(n, before);
      hide Latest, After, Misses, Pages, Missed;
    }
  }
}
