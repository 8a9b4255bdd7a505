/**
 * Writing messages into byte buffers and reading them back, field by field with a running offset. Writers are proved
 * to fill a buffer of the size computed beforehand with the bytes of module `WireFormat`; readers, to give back what
 * was written and to consume exactly its bytes.
 */
module Serialization {
  import opened Words
  import opened WireFormat

  // ---------- copying into and out of a buffer ----------

  method PutWord(buffer: array<byte>, offset: nat, w: u32) returns (next: nat)
    requires offset + 4 <= buffer.Length
    modifies buffer
    ensures next == offset + 4 && buffer[..next] == old(buffer[..offset]) + WordBytes(w)
  {
    var b := WordBytes(w);
    buffer[offset], buffer[offset + 1], buffer[offset + 2], buffer[offset + 3] := b[0], b[1], b[2], b[3];
    next := offset + 4;
    assert buffer[..next] == buffer[..offset] + [b[0], b[1], b[2], b[3]];
  }

  method PutCount(buffer: array<byte>, offset: nat, n: nat) returns (next: nat)
    requires offset + 4 <= buffer.Length
    modifies buffer
    ensures next == offset + 4 && buffer[..next] == old(buffer[..offset]) + CountBytes(n)
  {
    next := PutWord(buffer, offset, n % 0x1_0000_0000);
  }

  method PutBytes(buffer: array<byte>, offset: nat, data: Bytes) returns (next: nat)
    requires offset + |data| <= buffer.Length
    modifies buffer
    ensures next == offset + |data| && buffer[..next] == old(buffer[..offset]) + data
  {
    for i := 0 to |data|
      invariant buffer[..offset + i] == old(buffer[..offset]) + data[..i]
    {
      buffer[offset + i] := data[i];
      assert buffer[..offset + i + 1] == buffer[..offset + i] + [data[i]];
    }
    next := offset + |data|;
  }

  method GetWord(buffer: array<byte>, offset: nat) returns (w: u32)
    requires offset + 4 <= buffer.Length
    ensures w == BytesWord(buffer[offset..offset + 4])
  {
    w := BytesWord([buffer[offset], buffer[offset + 1], buffer[offset + 2], buffer[offset + 3]]);
    assert buffer[offset..offset + 4] == [buffer[offset], buffer[offset + 1], buffer[offset + 2], buffer[offset + 3]];
  }

  method GetBytes(buffer: array<byte>, offset: nat, n: nat) returns (data: Bytes)
    requires offset + n <= buffer.Length
    ensures data == buffer[offset..offset + n]
  {
    data := [];
    for i := 0 to n
      invariant data == buffer[offset..offset + i]
    {
      data := data + [buffer[offset + i]];
    }
  }

  // ---------- writing instruction lists ----------

  method MeasureParameters(ps: seq<Text>) returns (size: nat)
    ensures size == |ParametersBytes(ps)|
  {
    size := 0;
    for i := 0 to |ps|
      invariant size == |ParametersBytes(ps[..i])|
    {
      assert ps[..i + 1] == ps[..i] + [ps[i]];
      ParametersAppended(ps[..i], ps[i]);
      size := size + 4 + |ps[i]| + 1;
    }
    assert ps[..|ps|] == ps;
  }

  /** The size of the stream, computed before writing it. */
  method MeasureCommands(cs: seq<Command>) returns (size: nat, count: nat)
    ensures size == |CommandsBytes(cs)| && count == |cs|
  {
    size, count := 0, 0;
    while count < |cs|
      invariant count <= |cs| && size == |CommandsBytes(cs[..count])|
    {
      assert cs[..count + 1] == cs[..count] + [cs[count]];
      CommandsAppended(cs[..count], cs[count]);
      var parameters := MeasureParameters(cs[count].parameters);
      size := size + 8 + parameters;
      count := count + 1;
    }
    assert cs[..|cs|] == cs;
  }

  method PutParameter(buffer: array<byte>, offset: nat, p: Text) returns (next: nat)
    requires offset + |ParameterBytes(p)| <= buffer.Length
    modifies buffer
    ensures next == offset + |ParameterBytes(p)| && buffer[..next] == old(buffer[..offset]) + ParameterBytes(p)
  {
    next := PutCount(buffer, offset, |p| + 1);
    next := PutBytes(buffer, next, p + [0]);
  }

  method PutParameters(buffer: array<byte>, offset: nat, ps: seq<Text>) returns (next: nat)
    requires offset + |ParametersBytes(ps)| <= buffer.Length
    modifies buffer
    ensures next == offset + |ParametersBytes(ps)| && buffer[..next] == old(buffer[..offset]) + ParametersBytes(ps)
  {
    next := offset;
    ghost var before := buffer[..offset];
    for i := 0 to |ps|
      invariant next == offset + |ParametersBytes(ps[..i])| <= buffer.Length
      invariant buffer[..next] == before + ParametersBytes(ps[..i])
    {
      ParameterSpace(ps, i);
      Grouped(before, ParametersBytes(ps[..i]), ParameterBytes(ps[i]));
      hide ParametersBytes, ParameterBytes;
      next := PutParameter(buffer, next, ps[i]);
    }
    assert ps[..|ps|] == ps;
  }

  lemma ParameterSpace(ps: seq<Text>, i: nat)
    requires i < |ps|
    ensures ParametersBytes(ps[..i + 1]) == ParametersBytes(ps[..i]) + ParameterBytes(ps[i])
    ensures |ParametersBytes(ps[..i + 1])| <= |ParametersBytes(ps)|
  {
    assert ps[..i + 1] == ps[..i] + [ps[i]];
    ParametersAppended(ps[..i], ps[i]);
    ParametersJoined(ps[..i + 1], ps[i + 1..]);
    assert ps[..i + 1] + ps[i + 1..] == ps;
  }

  lemma CommandSpace(cs: seq<Command>, i: nat)
    requires i < |cs|
    ensures CommandsBytes(cs[..i + 1]) == CommandsBytes(cs[..i]) + CommandBytes(cs[i])
    ensures |CommandsBytes(cs[..i + 1])| <= |CommandsBytes(cs)|
  {
    assert cs[..i + 1] == cs[..i] + [cs[i]];
    CommandsAppended(cs[..i], cs[i]);
    CommandsJoined(cs[..i + 1], cs[i + 1..]);
    assert cs[..i + 1] + cs[i + 1..] == cs;
  }

  method PutCommand(buffer: array<byte>, offset: nat, c: Command) returns (next: nat)
    requires offset + |CommandBytes(c)| <= buffer.Length
    modifies buffer
    ensures next == offset + |CommandBytes(c)| && buffer[..next] == old(buffer[..offset]) + CommandBytes(c)
  {
    next := PutWord(buffer, offset, c.code);
    next := PutWord(buffer, next, |c.parameters| % 0x1_0000_0000);
    if |c.parameters| > 0 {
      next := PutParameters(buffer, next, c.parameters);
    }
  }

  method PutCommands(buffer: array<byte>, offset: nat, cs: seq<Command>) returns (next: nat)
    requires offset + |CommandsBytes(cs)| <= buffer.Length
    modifies buffer
    ensures next == offset + |CommandsBytes(cs)| && buffer[..next] == old(buffer[..offset]) + CommandsBytes(cs)
  {
    next := offset;
    ghost var before := buffer[..offset];
    for i := 0 to |cs|
      invariant next == offset + |CommandsBytes(cs[..i])| <= buffer.Length
      invariant buffer[..next] == before + CommandsBytes(cs[..i])
    {
      CommandSpace(cs, i);
      Grouped(before, CommandsBytes(cs[..i]), CommandBytes(cs[i]));
      hide CommandsBytes, CommandBytes;
      next := PutCommand(buffer, next, cs[i]);
    }
    assert cs[..|cs|] == cs;
  }

  /** Fills a buffer of exactly the size measured; the running offset ends at that size. */
  method SerializeCommands(cs: seq<Command>) returns (buffer: array<byte>)
    ensures fresh(buffer) && buffer[..] == ListBytes(cs)
  {
    hide CommandsBytes, WordBytes;
    var size, count := MeasureCommands(cs);
    buffer := new byte[size + 4](_ => 0);
    var offset := PutCount(buffer, 0, count);
    offset := PutCommands(buffer, offset, cs);
    assert offset == buffer.Length && buffer[..] == buffer[..offset];
  }

  // ---------- reading instruction lists ----------

  /** The string in a block of bytes: up to its first zero. */
  function TextIn(block: Bytes): Text {
    if |block| == 0 || block[0] == 0 then [] else
      var rest := TextIn(block[1..]);
      assert forall i | 0 <= i < |rest| :: rest[i] != 0;
      [block[0]] + rest
  }

  lemma {:induction false} TextRead(p: Text)
    ensures TextIn(p + [0]) == p
  {
    if |p| > 0 {
      assert (p + [0])[1..] == p[1..] + [0];
      TextRead(p[1..]);
    }
  }

  /** From `offset` on, the buffer has `data` and then `rest`. */
  ghost predicate Holds(buffer: array<byte>, offset: nat, data: Bytes, rest: Bytes)
    reads buffer
  {
    offset <= buffer.Length && buffer[offset..] == data + rest
  }

  lemma HoldsNext(buffer: array<byte>, offset: nat, a: Bytes, b: Bytes, rest: Bytes)
    requires Holds(buffer, offset, a + b, rest)
    ensures offset + |a| <= buffer.Length && buffer[offset..offset + |a|] == a && Holds(buffer, offset + |a|, b, rest)
  {
    assert buffer[offset..] == a + (b + rest);
    assert buffer[offset..][..|a|] == a && buffer[offset..][|a|..] == b + rest;
    assert buffer[offset..][..|a|] == buffer[offset..offset + |a|];
    assert buffer[offset..][|a|..] == buffer[offset + |a|..];
  }

  method TakeCount(buffer: array<byte>, offset: nat, ghost n: nat, ghost more: Bytes, ghost rest: Bytes)
    returns (w: u32, next: nat)
    requires Holds(buffer, offset, CountBytes(n) + more, rest) && n < 0x1_0000_0000
    ensures w == n && next == offset + 4 && Holds(buffer, next, more, rest)
  {
    HoldsNext(buffer, offset, CountBytes(n), more, rest);
    CountRoundTrip(n);
    w := GetWord(buffer, offset);
    next := offset + 4;
  }

  method TakeWord(buffer: array<byte>, offset: nat, ghost v: u32, ghost more: Bytes, ghost rest: Bytes)
    returns (w: u32, next: nat)
    requires Holds(buffer, offset, WordBytes(v) + more, rest)
    ensures w == v && next == offset + 4 && Holds(buffer, next, more, rest)
  {
    HoldsNext(buffer, offset, WordBytes(v), more, rest);
    WordRoundTrip(v);
    w := GetWord(buffer, offset);
    next := offset + 4;
  }

  method TakeParameter(buffer: array<byte>, offset: nat, ghost p: Text, ghost more: Bytes, ghost rest: Bytes)
    returns (text: Text, next: nat)
    requires Holds(buffer, offset, ParameterBytes(p) + more, rest) && |p| + 1 < 0x1_0000_0000
    ensures text == p && next == offset + |ParameterBytes(p)| && Holds(buffer, next, more, rest)
  {
    assert ParameterBytes(p) + more == CountBytes(|p| + 1) + (p + [0] + more);
    var size, at := TakeCount(buffer, offset, |p| + 1, p + [0] + more, rest);
    HoldsNext(buffer, at, p + [0], more, rest);
    var block := GetBytes(buffer, at, size);
    TextRead(p);
    return TextIn(block), at + size;
  }

  lemma ParametersFrom(ps: seq<Text>, p: nat)
    requires p < |ps|
    ensures ParametersBytes(ps[p..]) == ParameterBytes(ps[p]) + ParametersBytes(ps[p + 1..])
  {
    assert ps[p..][1..] == ps[p + 1..];
  }

  method TakeParameters(buffer: array<byte>, offset: nat, count: nat, ghost ps: seq<Text>,
                        ghost more: Bytes, ghost rest: Bytes)
    returns (parameters: seq<Text>, next: nat)
    requires Holds(buffer, offset, ParametersBytes(ps) + more, rest) && Fits(ParametersBytes(ps)) && count == |ps|
    ensures parameters == ps && next == offset + |ParametersBytes(ps)| && Holds(buffer, next, more, rest)
  {
    parameters, next := [], offset;
    ParametersSize(ps);
    for p := 0 to count
      invariant parameters == ps[..p] && Holds(buffer, next, ParametersBytes(ps[p..]) + more, rest)
      invariant next + |ParametersBytes(ps[p..])| == offset + |ParametersBytes(ps)|
    {
      ghost var later := ParametersBytes(ps[p + 1..]) + more;
      ParametersFrom(ps, p);
      Grouped(ParameterBytes(ps[p]), ParametersBytes(ps[p + 1..]), more);
      assert ps[p] in ps;
      hide ParametersBytes, ParameterBytes, Holds;
      var text;
      text, next := TakeParameter(buffer, next, ps[p], later, rest);
      parameters := parameters + [text];
      assert ps[..p + 1] == ps[..p] + [ps[p]];
    }
    assert ps[..count] == ps && [] + more == more;
  }

  method TakeCommand(buffer: array<byte>, offset: nat, ghost c: Command, ghost more: Bytes, ghost rest: Bytes)
    returns (command: Command, next: nat)
    requires Holds(buffer, offset, CommandBytes(c) + more, rest) && Fits(CommandBytes(c))
    ensures command == c && next == offset + |CommandBytes(c)| && Holds(buffer, next, more, rest)
  {
    ghost var ps := c.parameters;
    ghost var after := ParametersBytes(ps) + more;
    ParametersSize(ps);
    Regrouped(WordBytes(c.code), CountBytes(|ps|), ParametersBytes(ps), more);
    hide WordBytes, CountBytes, BytesWord, ParametersBytes, Holds;
    var code, at := TakeWord(buffer, offset, c.code, CountBytes(|ps|) + after, rest);
    var count, start := TakeCount(buffer, at, |ps|, after, rest);
    var parameters: seq<Text> := [];
    next := start;
    if count > 0 {
      parameters, next := TakeParameters(buffer, start, count, ps, more, rest);
    } else {
      assert ParametersBytes(ps) == [] && [] + more == more by {
        ParametersNone(ps);
      }
    }
    command := Command(code, parameters);
  }

  lemma ParametersNone(ps: seq<Text>)
    requires |ps| == 0
    ensures ParametersBytes(ps) == []
  {
  }

  /** Reads back the list that was written, and no byte past it. */
  method DeserializeCommands(buffer: array<byte>, ghost cs: seq<Command>, ghost rest: Bytes)
    returns (list: seq<Command>, offset: nat)
    requires buffer[..] == ListBytes(cs) + rest && Fits(ListBytes(cs))
    ensures list == cs && offset == |ListBytes(cs)|
  {
    CommandsSize(cs);
    assert buffer[0..] == buffer[..];
    var count;
    count, offset := TakeCount(buffer, 0, |cs|, CommandsBytes(cs), rest);
    list := [];
    for i := 0 to count
      invariant list == cs[..i] && Holds(buffer, offset, CommandsBytes(cs[i..]), rest)
      invariant offset + |CommandsBytes(cs[i..])| == 4 + |CommandsBytes(cs)|
    {
      assert cs[i..][1..] == cs[i + 1..];
      assert cs[i] in cs;
      var command;
      command, offset := TakeCommand(buffer, offset, cs[i], CommandsBytes(cs[i + 1..]), rest);
      list := list + [command];
    }
  }

  // ---------- processes, programs and packages ----------

  method PutInt(buffer: array<byte>, offset: nat, x: i32) returns (next: nat)
    requires offset + 4 <= buffer.Length
    modifies buffer
    ensures next == offset + 4 && buffer[..next] == old(buffer[..offset]) + IntBytes(x)
  {
    next := PutWord(buffer, offset, Unsigned(x));
  }

  method TakeInt(buffer: array<byte>, offset: nat, ghost x: i32, ghost more: Bytes, ghost rest: Bytes)
    returns (v: i32, next: nat)
    requires Holds(buffer, offset, IntBytes(x) + more, rest)
    ensures v == x && next == offset + 4 && Holds(buffer, next, more, rest)
  {
    var w;
    w, next := TakeWord(buffer, offset, Unsigned(x), more, rest);
    IntRoundTrip(x);
    v := Signed(w);
  }

  /** The fields before the instructions. */
  function FieldBytes(m: PcbMessage): Bytes {
    IntBytes(m.id) + IntBytes(m.counter) + IntBytes(m.table) + IntBytes(m.condition) + IntBytes(m.executed)
    + IntBytes(m.estimated) + IntBytes(m.io)
  }

  method PutFields(buffer: array<byte>, m: PcbMessage) returns (offset: nat)
    requires buffer.Length >= 7 * 4
    modifies buffer
    ensures offset == 7 * 4 && buffer[..offset] == FieldBytes(m)
  {
    hide IntBytes;
    offset := PutInt(buffer, 0, m.id);
    offset := PutInt(buffer, offset, m.counter);
    offset := PutInt(buffer, offset, m.table);
    offset := PutInt(buffer, offset, m.condition);
    offset := PutInt(buffer, offset, m.executed);
    offset := PutInt(buffer, offset, m.estimated);
    offset := PutInt(buffer, offset, m.io);
  }

  method SerializePcb(m: PcbMessage) returns (buffer: array<byte>)
    ensures fresh(buffer) && buffer[..] == PcbBytes(m)
  {
    assert PcbBytes(m) == FieldBytes(m) + CountBytes(|ListBytes(m.commands)|) + ListBytes(m.commands);
    hide PcbBytes, FieldBytes, ListBytes, WordBytes, CountBytes;
    var commands := SerializeCommands(m.commands);
    buffer := new byte[8 * 4 + commands.Length](_ => 0);
    var offset := PutFields(buffer, m);
    offset := PutCount(buffer, offset, commands.Length);
    if commands.Length > 0 {
      offset := PutBytes(buffer, offset, commands[..]);
    }
    assert offset == buffer.Length && buffer[..] == buffer[..offset];
  }

  /** Reads the instruction list at the end of a message: its size, its bytes, and the list in them. */
  method TakeList(buffer: array<byte>, offset: nat, ghost cs: seq<Command>, ghost rest: Bytes)
    returns (list: seq<Command>, next: nat)
    requires Holds(buffer, offset, CountBytes(|ListBytes(cs)|) + ListBytes(cs), rest) && Fits(ListBytes(cs))
    ensures list == cs && next == offset + 4 + |ListBytes(cs)|
  {
    var size, at := TakeCount(buffer, offset, |ListBytes(cs)|, ListBytes(cs), rest);
    assert ListBytes(cs) + [] == ListBytes(cs);
    HoldsNext(buffer, at, ListBytes(cs), [], rest);
    var block := GetBytes(buffer, at, size);
    var inner := new byte[size](i requires 0 <= i < size => block[i]);
    assert inner[..] == block;
    var consumed;
    list, consumed := DeserializeCommands(inner, cs, []);
    next := at + size;
  }

  /** Gives back the process that was written, from a buffer that may go on. */
  lemma FieldsGrouped(m: PcbMessage)
    ensures PcbBytes(m) == IntBytes(m.id) + (IntBytes(m.counter) + (IntBytes(m.table) + (IntBytes(m.condition)
      + (IntBytes(m.executed) + (IntBytes(m.estimated) + (IntBytes(m.io)
      + (CountBytes(|ListBytes(m.commands)|) + ListBytes(m.commands))))))))
    ensures |PcbBytes(m)| == 8 * 4 + |ListBytes(m.commands)|
  {
    hide ListBytes, IntBytes, CountBytes;
  }

  method DeserializePcb(buffer: array<byte>, ghost m: PcbMessage, ghost rest: Bytes)
    returns (p: PcbMessage, offset: nat)
    requires buffer[..] == PcbBytes(m) + rest && Fits(PcbBytes(m))
    ensures p == m && offset == |PcbBytes(m)|
  {
    ghost var tail := CountBytes(|ListBytes(m.commands)|) + ListBytes(m.commands);
    ghost var r1 := IntBytes(m.io) + tail;
    ghost var r2 := IntBytes(m.estimated) + r1;
    ghost var r3 := IntBytes(m.executed) + r2;
    ghost var r4 := IntBytes(m.condition) + r3;
    ghost var r5 := IntBytes(m.table) + r4;
    ghost var r6 := IntBytes(m.counter) + r5;
    FieldsGrouped(m);
    assert buffer[0..] == buffer[..];
    hide PcbBytes, ListBytes, WordBytes, IntBytes, CountBytes;
    var id, counter, table, condition, executed, estimated, io, commands;
    id, offset := TakeInt(buffer, 0, m.id, r6, rest);
    counter, offset := TakeInt(buffer, offset, m.counter, r5, rest);
    table, offset := TakeInt(buffer, offset, m.table, r4, rest);
    condition, offset := TakeInt(buffer, offset, m.condition, r3, rest);
    executed, offset := TakeInt(buffer, offset, m.executed, r2, rest);
    estimated, offset := TakeInt(buffer, offset, m.estimated, r1, rest);
    io, offset := TakeInt(buffer, offset, m.io, tail, rest);
    commands, offset := TakeList(buffer, offset, m.commands, rest);
    p := PcbMessage(id, counter, table, condition, executed, estimated, io, commands);
  }

  method SerializeProgram(p: Program) returns (buffer: array<byte>)
    ensures fresh(buffer) && buffer[..] == ProgramBytes(p)
  {
    hide ListBytes, WordBytes, IntBytes, CountBytes;
    var commands := SerializeCommands(p.commands);
    buffer := new byte[2 * 4 + commands.Length](_ => 0);
    var offset := PutInt(buffer, 0, p.size);
    offset := PutCount(buffer, offset, commands.Length);
    if commands.Length > 0 {
      offset := PutBytes(buffer, offset, commands[..]);
    }
    assert offset == buffer.Length && buffer[..] == buffer[..offset];
  }

  method DeserializeProgram(buffer: array<byte>, ghost p: Program, ghost rest: Bytes) returns (q: Program, offset: nat)
    requires buffer[..] == ProgramBytes(p) + rest && Fits(ProgramBytes(p))
    ensures q == p && offset == |ProgramBytes(p)|
  {
    hide ListBytes, WordBytes, IntBytes, CountBytes;
    ghost var tail := CountBytes(|ListBytes(p.commands)|) + ListBytes(p.commands);
    assert ProgramBytes(p) == IntBytes(p.size) + tail && buffer[0..] == buffer[..];
    var size, commands;
    size, offset := TakeInt(buffer, 0, p.size, tail, rest);
    commands, offset := TakeList(buffer, offset, p.commands, rest);
    q := Program(size, commands);
  }

  method SerializePackage(header: u32, payload: array<byte>) returns (stream: array<byte>)
    ensures fresh(stream) && stream[..] == PackageBytes(Package(header, payload[..]))
  {
    stream := new byte[2 * 4 + payload.Length](_ => 0);
    var offset := PutWord(stream, 0, header);
    offset := PutCount(stream, offset, payload.Length);
    if payload.Length > 0 {
      offset := PutBytes(stream, offset, payload[..]);
    }
    assert offset == stream.Length && stream[..] == stream[..offset];
  }

  method DeserializePackage(stream: array<byte>, ghost p: Package, ghost rest: Bytes)
    returns (header: u32, payload: array<byte>)
    requires stream[..] == PackageBytes(p) + rest && Fits(PackageBytes(p))
    ensures header == p.header && fresh(payload) && payload[..] == p.payload
  {
    hide WordBytes, CountBytes;
    ghost var tail := CountBytes(|p.payload|) + p.payload;
    assert PackageBytes(p) == WordBytes(p.header) + tail && stream[0..] == stream[..];
    var offset, size;
    header, offset := TakeWord(stream, 0, p.header, tail, rest);
    size, offset := TakeCount(stream, offset, |p.payload|, p.payload, rest);
    assert p.payload + [] == p.payload;
    HoldsNext(stream, offset, p.payload, [], rest);
    var block := GetBytes(stream, offset, size);
    payload := new byte[size](i requires 0 <= i < size => block[i]);
    assert payload[..] == block;
  }

  // ---------- the whole way ----------

  /** A process sent as a package arrives with every field that travels as it was. */
  method SendPcb(header: u32, m: PcbMessage) returns (arrivedHeader: u32, arrived: PcbMessage)
    requires Fits(PackageBytes(Package(header, PcbBytes(m))))
    ensures arrivedHeader == header && arrived == m
  {
    var buffer := SerializePcb(m);
    var stream := SerializePackage(header, buffer);
    assert stream[..] == stream[..] + [];
    var payload;
    arrivedHeader, payload := DeserializePackage(stream, Package(header, PcbBytes(m)), []);
    assert payload[..] == PcbBytes(m) + [];
    var consumed;
    arrived, consumed := DeserializePcb(payload, m, []);
  }

  /** And so does a program. */
  method SendProgram(header: u32, p: Program) returns (arrivedHeader: u32, arrived: Program)
    requires Fits(PackageBytes(Package(header, ProgramBytes(p))))
    ensures arrivedHeader == header && arrived == p
  {
    var buffer := SerializeProgram(p);
    var stream := SerializePackage(header, buffer);
    assert stream[..] == stream[..] + [];
    var payload;
    arrivedHeader, payload := DeserializePackage(stream, Package(header, ProgramBytes(p)), []);
    assert payload[..] == ProgramBytes(p) + [];
    var consumed;
    arrived, consumed := DeserializeProgram(payload, p, []);
  }
}
