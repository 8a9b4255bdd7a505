/** The user space: one byte buffer, addressed by frame and offset. */
module UserSpace {
  import opened Words
  import opened MemoryModel

  /** Frame `f` of a buffer lies inside it. */
  lemma FrameInside(size: nat, pageSize: nat, f: nat)
    requires pageSize >= 1 && f < size / pageSize
    ensures f * pageSize + pageSize <= size
  {
    assert size == size / pageSize * pageSize + size % pageSize;
    Grows(f + 1, size / pageSize, pageSize);
  }

  /** Two frames do not overlap. */
  lemma FramesApart(pageSize: nat, f: nat, g: nat)
    ensures f < g ==> f * pageSize + pageSize <= g * pageSize
    ensures g < f ==> g * pageSize + pageSize <= f * pageSize
  {
    if f < g {
      Grows(f + 1, g, pageSize);
    } else if g < f {
      Grows(g + 1, f, pageSize);
    }
  }

  lemma Grows(a: nat, b: nat, n: nat)
    requires a <= b
    ensures a * n <= b * n
  {
  }

  /** `after` is `before` with `data` written from position `at` on. */
  ghost predicate Written(before: seq<byte>, after: seq<byte>, at: nat, data: seq<byte>) {
    && |after| == |before| && at + |data| <= |before|
    && (forall i | 0 <= i < |data| :: after[at + i] == data[i])
    && forall i | 0 <= i < |before| && !(at <= i < at + |data|) :: after[i] == before[i]
  }

  lemma WrittenApart(before: seq<byte>, after: seq<byte>, at: nat, data: seq<byte>, o: nat, n: nat)
    requires Written(before, after, at, data) && o + n <= |before| && (o + n <= at || at + |data| <= o)
    ensures after[o..o + n] == before[o..o + n]
  {
  }

  lemma WrittenInside(before: seq<byte>, after: seq<byte>, d: nat, data: seq<byte>, o: nat, n: nat)
    requires o + n <= |before| && d + |data| <= n && Written(before, after, o + d, data)
    ensures after[o..o + n] == Patch(before[o..o + n], d, data)
  {
    var a, b := after[o..o + n], Patch(before[o..o + n], d, data);
    forall i | 0 <= i < n ensures a[i] == b[i] {
      if d <= i < d + |data| {
        assert b[i] == b[d..d + |data|][i - d];
        assert after[o + d + (i - d)] == data[i - d];
      }
    }
  }

  lemma SubSlice(s: seq<byte>, o: nat, n: nat, d: nat, k: nat)
    requires o + n <= |s| && d + k <= n
    ensures s[o..o + n][d..d + k] == s[o + d..o + d + k]
  {
    var page := s[o..o + n];
    var a, b := page[d..d + k], s[o + d..o + d + k];
    forall i | 0 <= i < k ensures a[i] == b[i] {
      assert page[d + i] == s[o + (d + i)];
    }
  }

  // ---------- frames ----------

  ghost function FrameOf(bytes: seq<byte>, pageSize: nat, f: nat): (b: Bytes)
    requires pageSize >= 1 && f < |bytes| / pageSize
    ensures |b| == pageSize
  {
    FrameInside(|bytes|, pageSize, f);
    bytes[f * pageSize..f * pageSize + pageSize]
  }

  /** The contents of every frame. */
  ghost function FramesOf(bytes: seq<byte>, pageSize: nat): (frames: seq<Bytes>)
    requires pageSize >= 1
    ensures |frames| == |bytes| / pageSize
    ensures forall f | 0 <= f < |frames| :: frames[f] == FrameOf(bytes, pageSize, f) && |frames[f]| == pageSize
  {
    seq(|bytes| / pageSize, f requires 0 <= f < |bytes| / pageSize => FrameOf(bytes, pageSize, f))
  }

  lemma SlicePatched(before: seq<byte>, after: seq<byte>, n: nat, a: nat, o: nat, d: nat, data: seq<byte>)
    requires Written(before, after, a + d, data) && o + n <= |before| && d + |data| <= n
    requires o == a || o + n <= a || a + n <= o
    ensures |after| == |before|
    ensures n > 0 ==> after[o..o + n] == if o == a then Patch(before[o..o + n], d, data) else before[o..o + n]
  {
    if o == a {
      WrittenInside(before, after, d, data, o, n);
    } else {
      WrittenApart(before, after, a + d, data, o, n);
    }
  }

  lemma FrameIs(bytes: seq<byte>, pageSize: nat, f: nat)
    requires pageSize >= 1 && f < |bytes| / pageSize
    ensures f * pageSize + pageSize <= |bytes|
    ensures FrameOf(bytes, pageSize, f) == bytes[f * pageSize..f * pageSize + pageSize]
  {
    FrameInside(|bytes|, pageSize, f);
  }

  /** Writing inside frame `f` patches that frame and no other. */
  lemma FramePatched(before: seq<byte>, after: seq<byte>, pageSize: nat, f: nat, d: nat, data: seq<byte>, g: nat)
    requires pageSize >= 1 && f < |before| / pageSize && g < |before| / pageSize && d + |data| <= pageSize
    requires Written(before, after, f * pageSize + d, data)
    ensures |after| == |before|
    ensures FrameOf(after, pageSize, g)
      == if g == f then Patch(FrameOf(before, pageSize, f), d, data) else FrameOf(before, pageSize, g)
  {
    hide Written, Patch, FrameOf;
    FrameIs(before, pageSize, g);
    FramesApart(pageSize, f, g);
    SlicePatched(before, after, pageSize, f * pageSize, g * pageSize, d, data);
    FrameIs(after, pageSize, g);
  }

  lemma FramesPatched(before: seq<byte>, after: seq<byte>, pageSize: nat, f: nat, d: nat, data: seq<byte>)
    requires pageSize >= 1 && f < |before| / pageSize && d + |data| <= pageSize
    requires Written(before, after, f * pageSize + d, data)
    ensures FramesOf(after, pageSize) == FramesOf(before, pageSize)[f := Patch(FrameOf(before, pageSize, f), d, data)]
  {
    assert |after| == |before|;
    hide Written, Patch, FrameOf;
    forall g | 0 <= g < |before| / pageSize
      ensures FramesOf(after, pageSize)[g]
        == FramesOf(before, pageSize)[f := Patch(FrameOf(before, pageSize, f), d, data)][g]
    {
      FramePatched(before, after, pageSize, f, d, data, g);
    }
  }

  // ---------- words that do not fit in their page ----------

  /** Writing any word at an offset of frame `f` leaves every other frame as it was. */
  ghost predicate WordStays(bytes: seq<byte>, pageSize: nat, f: nat, d: nat)
    requires pageSize >= 1 && f * pageSize + d + 4 <= |bytes|
  {
    forall w: u32, g: nat | g != f && g < |bytes| / pageSize ::
      FrameOf(Patch(bytes, f * pageSize + d, WordBytes(w)), pageSize, g) == FrameOf(bytes, pageSize, g)
  }

  lemma PatchWrites(s: seq<byte>, at: nat, patch: seq<byte>)
    requires at + |patch| <= |s|
    ensures Written(s, Patch(s, at, patch), at, patch)
  {
    var r := Patch(s, at, patch);
    forall i | 0 <= i < |patch| ensures r[at + i] == patch[i] {
      assert r[at..at + |patch|][i] == r[at + i];
    }
  }

  lemma FitsThenStays(bytes: seq<byte>, pageSize: nat, f: nat, d: nat)
    requires pageSize >= 1 && f < |bytes| / pageSize && f * pageSize + d + 4 <= |bytes| && d + 4 <= pageSize
    ensures WordStays(bytes, pageSize, f, d)
  {
    hide Patch, WordBytes, Written, FrameOf;
    forall w: u32, g: nat | g != f && g < |bytes| / pageSize
      ensures FrameOf(Patch(bytes, f * pageSize + d, WordBytes(w)), pageSize, g) == FrameOf(bytes, pageSize, g)
    {
      PatchWrites(bytes, f * pageSize + d, WordBytes(w));
      FramePatched(bytes, Patch(bytes, f * pageSize + d, WordBytes(w)), pageSize, f, d, WordBytes(w), g);
    }
  }

  /** The byte that a word of four equal bytes leaves at the start of the next frame. */
  lemma SpilledByte(bytes: seq<byte>, pageSize: nat, f: nat, d: nat, w: u32, b: byte)
    requires pageSize >= 1 && d < pageSize < d + 4 && f * pageSize + d + 4 <= |bytes|
    requires f + 1 < |bytes| / pageSize && WordBytes(w) == [b, b, b, b]
    ensures FrameOf(Patch(bytes, f * pageSize + d, WordBytes(w)), pageSize, f + 1)[0] == b
  {
    var at := f * pageSize + d;
    var after := Patch(bytes, at, WordBytes(w));
    FrameInside(|bytes|, pageSize, f + 1);
    assert (f + 1) * pageSize == at + (pageSize - d);
    PatchWrites(bytes, at, WordBytes(w));
    hide Patch, WordBytes;
    assert after[at + (pageSize - d)] == b;
  }

  /**
   * A word written at an offset of a frame that another frame follows leaves the other frames alone, whatever the word,
   * if and only if it fits in the page; the program only looks at where it starts.
   */
  lemma WordStaysExactly(bytes: seq<byte>, pageSize: nat, f: nat, d: nat)
    requires pageSize >= 1 && d < pageSize && f + 1 < |bytes| / pageSize && f * pageSize + d + 4 <= |bytes|
    ensures WordStays(bytes, pageSize, f, d) <==> d + 4 <= pageSize
  {
    if d + 4 <= pageSize {
      FitsThenStays(bytes, pageSize, f, d);
    } else {
      SpilledByte(bytes, pageSize, f, d, 0, 0);
      SpilledByte(bytes, pageSize, f, d, 0x0101_0101, 1);
      var w: u32 := if FrameOf(bytes, pageSize, f + 1)[0] == 0 then 0x0101_0101 else 0;
      hide Patch, WordBytes, FrameOf;
      assert FrameOf(Patch(bytes, f * pageSize + d, WordBytes(w)), pageSize, f + 1) != FrameOf(bytes, pageSize, f + 1);
    }
  }

  class Buffer {
    const pageSize: nat
    const bytes: array<byte>

    constructor (memorySize: nat, pageSize: nat)
      requires pageSize >= 1
      ensures this.pageSize == pageSize && bytes.Length == memorySize && fresh(bytes)
    {
      this.pageSize := pageSize;
      bytes := new byte[memorySize];
    }

    ghost function Count(): nat
      requires pageSize >= 1
    {
      bytes.Length / pageSize
    }

    ghost function Frames(): (frames: seq<Bytes>)
      requires pageSize >= 1
      reads bytes
      ensures |frames| == Count() && forall f | 0 <= f < |frames| :: |frames[f]| == pageSize
    {
      FramesOf(bytes[..], pageSize)
    }

    /** Copies `data` to offset `d` of a frame; no other byte changes. */
    method Put(f: nat, d: nat, data: seq<byte>)
      requires pageSize >= 1 && f < Count() && d + |data| <= pageSize
      modifies bytes
      ensures Frames() == old(Frames()[f := Patch(Frames()[f], d, data)])
    {
      FrameInside(bytes.Length, pageSize, f);
      var at := f * pageSize + d;
      ghost var before := bytes[..];
      forall i | 0 <= i < |data| {
        bytes[at + i] := data[i];
      }
      assert Written(before, bytes[..], at, data);
      hide Written, Patch, FrameOf;
      FramesPatched(before, bytes[..], pageSize, f, d, data);
    }

    /** Copies `n` bytes from offset `d` of a frame. */
    method Get(f: nat, d: nat, n: nat) returns (data: seq<byte>)
      requires pageSize >= 1 && f < Count() && d + n <= pageSize
      ensures data == Frames()[f][d..d + n]
    {
      FrameInside(bytes.Length, pageSize, f);
      var o := f * pageSize;
      data := bytes[o + d..o + d + n];
      SubSlice(bytes[..], o, pageSize, d, n);
      assert Frames()[f] == bytes[..][o..o + pageSize];
    }

    method WriteWord(f: nat, d: nat, w: u32)
      requires pageSize >= 1 && f < Count() && d + 4 <= pageSize
      modifies bytes
      ensures Frames() == old(Frames()[f := Patch(Frames()[f], d, WordBytes(w))])
    {
      Put(f, d, WordBytes(w));
    }

    method ReadWord(f: nat, d: nat) returns (w: u32)
      requires pageSize >= 1 && f < Count() && d + 4 <= pageSize
      ensures w == BytesWord(Frames()[f][d..d + 4])
    {
      var b := Get(f, d, 4);
      w := BytesWord(b);
    }

    method WriteFrame(f: nat, data: Bytes)
      requires pageSize >= 1 && f < Count() && |data| == pageSize
      modifies bytes
      ensures Frames() == old(Frames()[f := data])
    {
      Put(f, 0, data);
      assert Patch(old(Frames()[f]), 0, data) == data;
    }

    method ReadFrame(f: nat) returns (data: Bytes)
      requires pageSize >= 1 && f < Count()
      ensures data == Frames()[f]
    {
      data := Get(f, 0, pageSize);
    }
  }
}
