/** The byte layout of the messages: instruction lists, processes, programs and packages. */
module WireFormat {
  import opened Words

  type Bytes = seq<byte>

  type i32 = x: int | -0x8000_0000 <= x < 0x8000_0000

  /** A C string without its terminator. */
  type Text = s: seq<byte> | forall i | 0 <= i < |s| :: s[i] != 0

  datatype Command = Command(code: u32, parameters: seq<Text>)

  /** The fields of a process that travel between kernel and cpu. */
  datatype PcbMessage = PcbMessage(id: i32, counter: i32, table: i32, condition: i32, executed: i32, estimated: i32,
                                   io: i32, commands: seq<Command>)

  datatype Program = Program(size: i32, commands: seq<Command>)

  datatype Package = Package(header: u32, payload: Bytes)

  /** A count or a size stored in a 32-bit word. */
  function CountBytes(n: nat): (b: Bytes)
    ensures |b| == 4
  {
    WordBytes(n % 0x1_0000_0000)
  }

  /** A signed word, in two's complement. */
  function Unsigned(x: i32): u32 {
    if x < 0 then x + 0x1_0000_0000 else x
  }

  function Signed(w: u32): i32 {
    if w < 0x8000_0000 then w else w - 0x1_0000_0000
  }

  function IntBytes(x: i32): (b: Bytes)
    ensures |b| == 4
  {
    WordBytes(Unsigned(x))
  }

  // ---------- instruction lists ----------

  function ParameterBytes(p: Text): Bytes {
    CountBytes(|p| + 1) + (p + [0])
  }

  function ParametersBytes(ps: seq<Text>): Bytes {
    if |ps| == 0 then [] else ParameterBytes(ps[0]) + ParametersBytes(ps[1..])
  }

  function CommandBytes(c: Command): Bytes {
    WordBytes(c.code) + CountBytes(|c.parameters|) + ParametersBytes(c.parameters)
  }

  function CommandsBytes(cs: seq<Command>): Bytes {
    if |cs| == 0 then [] else CommandBytes(cs[0]) + CommandsBytes(cs[1..])
  }

  function ListBytes(cs: seq<Command>): Bytes {
    CountBytes(|cs|) + CommandsBytes(cs)
  }

  // ---------- messages ----------

  function PcbBytes(m: PcbMessage): Bytes {
    IntBytes(m.id) + IntBytes(m.counter) + IntBytes(m.table) + IntBytes(m.condition) + IntBytes(m.executed)
    + IntBytes(m.estimated) + IntBytes(m.io) + CountBytes(|ListBytes(m.commands)|) + ListBytes(m.commands)
  }

  function ProgramBytes(p: Program): Bytes {
    IntBytes(p.size) + CountBytes(|ListBytes(p.commands)|) + ListBytes(p.commands)
  }

  function PackageBytes(p: Package): Bytes {
    WordBytes(p.header) + CountBytes(|p.payload|) + p.payload
  }

  /** A size that an offset, which is a signed word, can hold. */
  predicate Fits(b: Bytes) {
    |b| < 0x8000_0000
  }

  // ---------- words ----------

  lemma CountRoundTrip(n: nat)
    requires n < 0x1_0000_0000
    ensures BytesWord(CountBytes(n)) == n
  {
    WordRoundTrip(n);
    assert n % 0x1_0000_0000 == n;
    hide WordBytes, BytesWord;
  }

  lemma IntRoundTrip(x: i32)
    ensures Signed(BytesWord(IntBytes(x))) == x
  {
    WordRoundTrip(Unsigned(x));
  }

  // ---------- where the fields are ----------

  /** The word at an offset of a message. */
  function WordIn(b: Bytes, offset: nat): u32
    requires offset + 4 <= |b|
  {
    BytesWord(b[offset..offset + 4])
  }

  function IntIn(b: Bytes, offset: nat): i32
    requires offset + 4 <= |b|
  {
    Signed(WordIn(b, offset))
  }

  lemma IntAt(before: Bytes, x: i32, after: Bytes)
    ensures IntIn(before + IntBytes(x) + after, |before|) == x
  {
    var b := before + IntBytes(x) + after;
    assert b[|before|..|before| + 4] == IntBytes(x);
    IntRoundTrip(x);
  }

  lemma CountAt(before: Bytes, n: nat, after: Bytes)
    requires n < 0x1_0000_0000
    ensures WordIn(before + CountBytes(n) + after, |before|) == n
  {
    var b := before + CountBytes(n) + after;
    assert b[|before|..|before| + 4] == CountBytes(n);
    CountRoundTrip(n);
  }

  /** A process: seven signed words in this order, the size of the list, and the list. */
  lemma PcbLayout(m: PcbMessage)
    requires |ListBytes(m.commands)| < 0x1_0000_0000
    ensures var b := PcbBytes(m);
      && |b| == 32 + |ListBytes(m.commands)|
      && IntIn(b, 0) == m.id && IntIn(b, 4) == m.counter && IntIn(b, 8) == m.table && IntIn(b, 12) == m.condition
      && IntIn(b, 16) == m.executed && IntIn(b, 20) == m.estimated && IntIn(b, 24) == m.io
      && WordIn(b, 28) == |ListBytes(m.commands)| && b[32..] == ListBytes(m.commands)
  {
    var list := ListBytes(m.commands);
    hide ListBytes, IntBytes, CountBytes, IntIn, WordIn;
    var b := PcbBytes(m);
    var ints := [m.id, m.counter, m.table, m.condition, m.executed, m.estimated, m.io];
    forall k | 0 <= k < 7 ensures IntIn(b, 4 * k) == ints[k] {
      assert b == b[..4 * k] + IntBytes(ints[k]) + b[4 * k + 4..];
      IntAt(b[..4 * k], ints[k], b[4 * k + 4..]);
    }
    assert IntIn(b, 4 * 1) == ints[1] && IntIn(b, 4 * 2) == ints[2] && IntIn(b, 4 * 3) == ints[3];
    assert IntIn(b, 4 * 4) == ints[4] && IntIn(b, 4 * 5) == ints[5] && IntIn(b, 4 * 6) == ints[6];
    assert IntIn(b, 4 * 0) == ints[0];
    assert b == b[..28] + CountBytes(|list|) + list;
    CountAt(b[..28], |list|, list);
  }

  /** A program: its size, the size of the list, and the list. */
  lemma ProgramLayout(p: Program)
    requires |ListBytes(p.commands)| < 0x1_0000_0000
    ensures var b := ProgramBytes(p);
      && |b| == 8 + |ListBytes(p.commands)| && IntIn(b, 0) == p.size
      && WordIn(b, 4) == |ListBytes(p.commands)| && b[8..] == ListBytes(p.commands)
  {
    var list := ListBytes(p.commands);
    hide ListBytes, IntBytes, CountBytes, IntIn, WordIn;
    var b := ProgramBytes(p);
    assert b == [] + IntBytes(p.size) + (CountBytes(|list|) + list);
    IntAt([], p.size, CountBytes(|list|) + list);
    assert b == IntBytes(p.size) + CountBytes(|list|) + list;
    CountAt(IntBytes(p.size), |list|, list);
  }

  /** A package: its header, the size of the payload, and the payload. */
  lemma PackageLayout(p: Package)
    requires |p.payload| < 0x1_0000_0000
    ensures var b := PackageBytes(p);
      |b| == 8 + |p.payload| && WordIn(b, 0) == p.header && WordIn(b, 4) == |p.payload| && b[8..] == p.payload
  {
    var b := PackageBytes(p);
    assert b[0..4] == WordBytes(p.header);
    WordRoundTrip(p.header);
    assert b == WordBytes(p.header) + CountBytes(|p.payload|) + p.payload;
    hide CountBytes;
    CountAt(WordBytes(p.header), |p.payload|, p.payload);
  }

  /** An instruction: its code, how many parameters it has, and for each its size with the terminator, text and zero. */
  lemma CommandLayout(c: Command)
    requires |c.parameters| < 0x1_0000_0000
    ensures var b := CommandBytes(c);
      |b| >= 8 && WordIn(b, 0) == c.code && WordIn(b, 4) == |c.parameters| && b[8..] == ParametersBytes(c.parameters)
  {
    var b, more := CommandBytes(c), ParametersBytes(c.parameters);
    assert b[0..4] == WordBytes(c.code);
    WordRoundTrip(c.code);
    assert b == WordBytes(c.code) + CountBytes(|c.parameters|) + more;
    hide CountBytes;
    CountAt(WordBytes(c.code), |c.parameters|, more);
  }

  lemma ParameterLayout(p: Text)
    requires |p| + 1 < 0x1_0000_0000
    ensures var b := ParameterBytes(p);
      |b| == 4 + |p| + 1 && WordIn(b, 0) == |p| + 1 && b[4..4 + |p|] == p && b[4 + |p|] == 0
  {
    assert ParameterBytes(p) == [] + CountBytes(|p| + 1) + (p + [0]);
    CountAt([], |p| + 1, p + [0]);
    hide CountBytes, WordIn;
  }

  // ---------- lists in parts ----------

  lemma {:induction false} ParametersJoined(ps: seq<Text>, qs: seq<Text>)
    ensures ParametersBytes(ps + qs) == ParametersBytes(ps) + ParametersBytes(qs)
  {
    if |ps| == 0 {
      assert ps + qs == qs;
    } else {
      assert (ps + qs)[1..] == ps[1..] + qs;
      ParametersJoined(ps[1..], qs);
    }
  }

  lemma {:induction false} CommandsJoined(cs: seq<Command>, ds: seq<Command>)
    ensures CommandsBytes(cs + ds) == CommandsBytes(cs) + CommandsBytes(ds)
  {
    if |cs| == 0 {
      assert cs + ds == ds;
    } else {
      assert (cs + ds)[1..] == cs[1..] + ds;
      CommandsJoined(cs[1..], ds);
    }
  }

  lemma ParametersAppended(ps: seq<Text>, p: Text)
    ensures ParametersBytes(ps + [p]) == ParametersBytes(ps) + ParameterBytes(p)
  {
    ParametersJoined(ps, [p]);
    assert ParametersBytes([p]) == ParameterBytes(p) + [];
  }

  lemma CommandsAppended(cs: seq<Command>, c: Command)
    ensures CommandsBytes(cs + [c]) == CommandsBytes(cs) + CommandBytes(c)
  {
    CommandsJoined(cs, [c]);
    assert CommandsBytes([c]) == CommandBytes(c) + [];
  }

  lemma {:induction false} ParametersSize(ps: seq<Text>)
    ensures |ParametersBytes(ps)| >= 5 * |ps|
    ensures forall p | p in ps :: |p| + 5 <= |ParametersBytes(ps)|
  {
    if |ps| > 0 {
      ParametersSize(ps[1..]);
      assert ps == [ps[0]] + ps[1..];
    }
  }

  lemma {:induction false} CommandsSize(cs: seq<Command>)
    ensures |CommandsBytes(cs)| >= 8 * |cs|
    ensures forall c | c in cs :: |CommandBytes(c)| <= |CommandsBytes(cs)|
  {
    if |cs| > 0 {
      CommandsSize(cs[1..]);
      assert cs == [cs[0]] + cs[1..];
    }
  }

  // ---------- the format is unambiguous ----------

  lemma SamePrefix(a: Bytes, b: Bytes, r: Bytes, s: Bytes)
    requires a + r == b + s && |a| == |b|
    ensures a == b && r == s
  {
    assert a == (a + r)[..|a|] && b == (b + s)[..|b|];
    assert r == (a + r)[|a|..] && s == (b + s)[|b|..];
  }

  lemma Grouped(a: Bytes, b: Bytes, r: Bytes)
    ensures a + b + r == a + (b + r)
  {
  }

  lemma Regrouped(a: Bytes, b: Bytes, c: Bytes, r: Bytes)
    ensures a + b + c + r == a + (b + (c + r))
  {
  }

  lemma SameCount(n: nat, m: nat, r: Bytes, s: Bytes)
    requires CountBytes(n) + r == CountBytes(m) + s && n < 0x1_0000_0000 && m < 0x1_0000_0000
    ensures n == m && r == s
  {
    SamePrefix(CountBytes(n), CountBytes(m), r, s);
    CountRoundTrip(n);
    CountRoundTrip(m);
  }

  lemma SameWord(w: u32, v: u32, r: Bytes, s: Bytes)
    requires WordBytes(w) + r == WordBytes(v) + s
    ensures w == v && r == s
  {
    SamePrefix(WordBytes(w), WordBytes(v), r, s);
    WordRoundTrip(w);
    WordRoundTrip(v);
  }

  lemma SameInt(x: i32, y: i32, r: Bytes, s: Bytes)
    requires IntBytes(x) + r == IntBytes(y) + s
    ensures x == y && r == s
  {
    SameWord(Unsigned(x), Unsigned(y), r, s);
  }

  lemma SameParameter(p: Text, q: Text, r: Bytes, s: Bytes)
    requires ParameterBytes(p) + r == ParameterBytes(q) + s && |p| + 1 < 0x1_0000_0000 && |q| + 1 < 0x1_0000_0000
    ensures p == q && r == s
  {
    assert ParameterBytes(p) + r == CountBytes(|p| + 1) + (p + [0] + r);
    assert ParameterBytes(q) + s == CountBytes(|q| + 1) + (q + [0] + s);
    SameCount(|p| + 1, |q| + 1, p + [0] + r, q + [0] + s);
    SamePrefix(p + [0], q + [0], r, s);
    SamePrefix(p, q, [0], [0]);
  }

  lemma {:induction false} SameParameters(ps: seq<Text>, qs: seq<Text>, r: Bytes, s: Bytes)
    requires ParametersBytes(ps) + r == ParametersBytes(qs) + s && |ps| == |qs|
    requires Fits(ParametersBytes(ps)) && Fits(ParametersBytes(qs))
    ensures ps == qs && r == s
  {
    if |ps| > 0 {
      ParametersSize(ps);
      ParametersSize(qs);
      var a, b := ParametersBytes(ps[1..]) + r, ParametersBytes(qs[1..]) + s;
      Grouped(ParameterBytes(ps[0]), ParametersBytes(ps[1..]), r);
      Grouped(ParameterBytes(qs[0]), ParametersBytes(qs[1..]), s);
      assert ParameterBytes(ps[0]) + a == ParameterBytes(qs[0]) + b;
      assert Fits(ParametersBytes(ps[1..])) && Fits(ParametersBytes(qs[1..]));
      hide ParametersBytes, ParameterBytes;
      SameParameter(ps[0], qs[0], a, b);
      SameParameters(ps[1..], qs[1..], r, s);
      assert ps == [ps[0]] + ps[1..] && qs == [qs[0]] + qs[1..];
    } else {
      assert [] + r == r && [] + s == s;
    }
  }

  lemma SameCommand(c: Command, d: Command, r: Bytes, s: Bytes)
    requires CommandBytes(c) + r == CommandBytes(d) + s && Fits(CommandBytes(c)) && Fits(CommandBytes(d))
    ensures c == d && r == s
  {
    var a, b := ParametersBytes(c.parameters) + r, ParametersBytes(d.parameters) + s;
    ParametersSize(c.parameters);
    ParametersSize(d.parameters);
    hide ParametersBytes, WordBytes, CountBytes, BytesWord;
    Regrouped(WordBytes(c.code), CountBytes(|c.parameters|), ParametersBytes(c.parameters), r);
    Regrouped(WordBytes(d.code), CountBytes(|d.parameters|), ParametersBytes(d.parameters), s);
    SameWord(c.code, d.code, CountBytes(|c.parameters|) + a, CountBytes(|d.parameters|) + b);
    SameCount(|c.parameters|, |d.parameters|, a, b);
    SameParameters(c.parameters, d.parameters, r, s);
  }

  lemma {:induction false} SameCommands(cs: seq<Command>, ds: seq<Command>, r: Bytes, s: Bytes)
    requires CommandsBytes(cs) + r == CommandsBytes(ds) + s && |cs| == |ds|
    requires Fits(CommandsBytes(cs)) && Fits(CommandsBytes(ds))
    ensures cs == ds && r == s
  {
    if |cs| > 0 {
      var a, b := CommandsBytes(cs[1..]) + r, CommandsBytes(ds[1..]) + s;
      Grouped(CommandBytes(cs[0]), CommandsBytes(cs[1..]), r);
      Grouped(CommandBytes(ds[0]), CommandsBytes(ds[1..]), s);
      assert CommandBytes(cs[0]) + a == CommandBytes(ds[0]) + b;
      assert Fits(CommandsBytes(cs[1..])) && Fits(CommandsBytes(ds[1..]));
      assert Fits(CommandBytes(cs[0])) && Fits(CommandBytes(ds[0]));
      hide CommandsBytes, CommandBytes;
      SameCommand(cs[0], ds[0], a, b);
      SameCommands(cs[1..], ds[1..], r, s);
      assert cs == [cs[0]] + cs[1..] && ds == [ds[0]] + ds[1..];
    } else {
      assert [] + r == r && [] + s == s;
    }
  }

  /** Two instruction lists with the same bytes, whatever follows them, are the same list. */
  lemma ListUnambiguous(cs: seq<Command>, ds: seq<Command>, r: Bytes, s: Bytes)
    requires ListBytes(cs) + r == ListBytes(ds) + s && Fits(ListBytes(cs)) && Fits(ListBytes(ds))
    ensures cs == ds && r == s
  {
    CommandsSize(cs);
    CommandsSize(ds);
    var a, b := CommandsBytes(cs) + r, CommandsBytes(ds) + s;
    hide CommandsBytes, WordBytes, CountBytes, BytesWord;
    assert ListBytes(cs) + r == CountBytes(|cs|) + a;
    assert ListBytes(ds) + s == CountBytes(|ds|) + b;
    SameCount(|cs|, |ds|, a, b);
    SameCommands(cs, ds, r, s);
  }

  /** So a program is recovered from its bytes. */
  lemma ProgramUnambiguous(p: Program, q: Program, r: Bytes, s: Bytes)
    requires ProgramBytes(p) + r == ProgramBytes(q) + s && Fits(ProgramBytes(p)) && Fits(ProgramBytes(q))
    ensures p == q && r == s
  {
    hide ListBytes, IntBytes, CountBytes;
    var a, b := ListBytes(p.commands), ListBytes(q.commands);
    Regrouped(IntBytes(p.size), CountBytes(|a|), a, r);
    Regrouped(IntBytes(q.size), CountBytes(|b|), b, s);
    SameInt(p.size, q.size, CountBytes(|a|) + (a + r), CountBytes(|b|) + (b + s));
    SameCount(|a|, |b|, a + r, b + s);
    ListUnambiguous(p.commands, q.commands, r, s);
  }

  /** And a process. */
  lemma PcbUnambiguous(m: PcbMessage, n: PcbMessage, r: Bytes, s: Bytes)
    requires PcbBytes(m) + r == PcbBytes(n) + s && Fits(PcbBytes(m)) && Fits(PcbBytes(n))
    ensures m == n && r == s
  {
    var a, b := ListBytes(m.commands), ListBytes(n.commands);
    PcbRest(m, r);
    PcbRest(n, s);
    hide ListBytes, IntBytes, CountBytes, PcbBytes, WordsThen;
    WordsSame(m, n, CountBytes(|a|) + (a + r), CountBytes(|b|) + (b + s));
    SameCount(|a|, |b|, a + r, b + s);
    ListUnambiguous(m.commands, n.commands, r, s);
  }

  /** The seven words of a process, and then the rest. */
  function WordsThen(m: PcbMessage, rest: Bytes): Bytes {
    IntBytes(m.id) + (IntBytes(m.counter) + (IntBytes(m.table) + (IntBytes(m.condition) + (IntBytes(m.executed)
    + (IntBytes(m.estimated) + (IntBytes(m.io) + rest))))))
  }

  lemma PcbRest(m: PcbMessage, r: Bytes)
    ensures PcbBytes(m) + r == WordsThen(m, CountBytes(|ListBytes(m.commands)|) + (ListBytes(m.commands) + r))
    ensures |ListBytes(m.commands)| <= |PcbBytes(m)|
  {
    hide ListBytes, IntBytes, CountBytes;
  }

  lemma WordsSame(m: PcbMessage, n: PcbMessage, r: Bytes, s: Bytes)
    requires WordsThen(m, r) == WordsThen(n, s)
    ensures m.(commands := []) == n.(commands := []) && r == s
  {
    hide IntBytes;
    var r1, s1 := IntBytes(m.io) + r, IntBytes(n.io) + s;
    var r2, s2 := IntBytes(m.estimated) + r1, IntBytes(n.estimated) + s1;
    var r3, s3 := IntBytes(m.executed) + r2, IntBytes(n.executed) + s2;
    var r4, s4 := IntBytes(m.condition) + r3, IntBytes(n.condition) + s3;
    var r5, s5 := IntBytes(m.table) + r4, IntBytes(n.table) + s4;
    var r6, s6 := IntBytes(m.counter) + r5, IntBytes(n.counter) + s5;
    SameInt(m.id, n.id, r6, s6);
    SameInt(m.counter, n.counter, r5, s5);
    SameInt(m.table, n.table, r4, s4);
    SameInt(m.condition, n.condition, r3, s3);
    SameInt(m.executed, n.executed, r2, s2);
    SameInt(m.estimated, n.estimated, r1, s1);
    SameInt(m.io, n.io, r, s);
  }

  /** And a package, so its payload can be told apart from whatever follows it on the wire. */
  lemma PackageUnambiguous(p: Package, q: Package, r: Bytes, s: Bytes)
    requires PackageBytes(p) + r == PackageBytes(q) + s && Fits(PackageBytes(p)) && Fits(PackageBytes(q))
    ensures p == q && r == s
  {
    hide WordBytes, CountBytes;
    Regrouped(WordBytes(p.header), CountBytes(|p.payload|), p.payload, r);
    Regrouped(WordBytes(q.header), CountBytes(|q.payload|), q.payload, s);
    SameWord(p.header, q.header, CountBytes(|p.payload|) + (p.payload + r), CountBytes(|q.payload|) + (q.payload + s));
    SameCount(|p.payload|, |q.payload|, p.payload + r, q.payload + s);
    SamePrefix(p.payload, q.payload, r, s);
  }
}
