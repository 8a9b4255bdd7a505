/** Bytes, 32-bit words and the little-endian layout that a word has in a C buffer. */
module Words {

  type byte = x: nat | x < 0x100

  type u32 = x: nat | x < 0x1_0000_0000

  /** The four bytes a `memcpy` of an unsigned word leaves in memory. */
  function WordBytes(w: u32): (b: seq<byte>)
    ensures |b| == 4
  {
    [w % 0x100, w / 0x100 % 0x100, w / 0x1_0000 % 0x100, w / 0x100_0000]
  }

  /** The word a `memcpy` of four bytes yields. */
  function BytesWord(b: seq<byte>): u32
    requires |b| == 4
  {
    b[0] as int + 0x100 * b[1] as int + 0x1_0000 * b[2] as int + 0x100_0000 * b[3] as int
  }

  /** The least significant byte comes first. */
  lemma LittleEndian(w: u32)
    ensures var b := WordBytes(w);
      b[0] as int + 0x100 * b[1] as int + 0x1_0000 * b[2] as int + 0x100_0000 * b[3] as int == w
  {
    assert w / 0x100 / 0x100 == w / 0x1_0000;
    assert w / 0x1_0000 / 0x100 == w / 0x100_0000;
  }

  lemma WordRoundTrip(w: u32)
    ensures BytesWord(WordBytes(w)) == w
  {
    assert w / 0x100 / 0x100 == w / 0x1_0000;
    assert w / 0x1_0000 / 0x100 == w / 0x100_0000;
  }

  /** `s` with `patch` written over it from position `at` on. */
  function Patch(s: seq<byte>, at: nat, patch: seq<byte>): (r: seq<byte>)
    requires at + |patch| <= |s|
    ensures |r| == |s|
    ensures r[at..at + |patch|] == patch
    ensures forall i :: 0 <= i < |s| && !(at <= i < at + |patch|) ==> r[i] == s[i]
  {
    s[..at] + patch + s[at + |patch|..]
  }
}
