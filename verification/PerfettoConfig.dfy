/** The Perfetto trace configuration as protobuf bytes, and a wire-format reader for it.  The
    encoder builds nested messages out of varint and length-delimited fields; the reader knows
    nothing of the configuration but the field numbers, and what it recovers is what the request
    asked for. */
module PerfettoConfig {
  import opened Wrappers

  type Byte = x: int | 0 <= x < 256
  type Bytes = seq<Byte>

  const TRACE_MAX_BYTES: nat := 32 * 1024 * 1024
  const BUFFER_KB: nat := 16384

  /** "linux.ftrace" in ASCII. */
  const SOURCE_NAME: Bytes := [108, 105, 110, 117, 120, 46, 102, 116, 114, 97, 99, 101]

  // ---------- varints ----------

  function Varint(n: nat): Bytes {
    if n < 128 then [n] else [n % 128 + 128] + Varint(n / 128)
  }

  method EncodeVarint(n: nat) returns (bytes: Bytes)
    ensures bytes == Varint(n)
  {
    bytes := [];
    var rest, more := n, true;
    while more
      invariant more ==> bytes + Varint(rest) == Varint(n)
      invariant !more ==> bytes == Varint(n)
      decreases rest, more
    {
      var byte := rest % 128;
      if rest >= 128 { Continues(bytes, rest); }
      rest := rest / 128;
      bytes := bytes + [if rest != 0 then byte + 128 else byte];
      more := rest != 0;
    }
  }

  lemma Continues(bytes: Bytes, rest: nat)
    requires rest >= 128
    ensures bytes + Varint(rest) == bytes + [rest % 128 + 128] + Varint(rest / 128)
  {
  }

  /** The value of the varint at the front, and what follows it. */
  function ReadVarint(bs: Bytes): Option<(nat, Bytes)> {
    if bs == [] then None
    else if bs[0] < 128 then Some((bs[0], bs[1..]))
    else match ReadVarint(bs[1..])
      case None => None
      case Some((v, rest)) => Some((v * 128 + (bs[0] - 128), rest))
  }

  /** Whatever follows it, a varint is read back and ends where it ends. */
  lemma {:induction false} VarintRoundTrip(n: nat, rest: Bytes)
    ensures ReadVarint(Varint(n) + rest) == Some((n, rest))
  {
    if n >= 128 {
      VarintRoundTrip(n / 128, rest);
      assert (Varint(n) + rest)[1..] == Varint(n / 128) + rest;
    } else {
      assert ([n] + rest)[1..] == rest;
    }
  }

  lemma {:induction false} ReadConsumes(bs: Bytes)
    requires ReadVarint(bs).Some?
    ensures |ReadVarint(bs).value.1| < |bs|
  {
    if bs[0] >= 128 { ReadConsumes(bs[1..]); }
  }

  /** No encoding of a number is shorter. */
  lemma {:induction false} VarintMinimal(bs: Bytes)
    requires ReadVarint(bs).Some?
    ensures |Varint(ReadVarint(bs).value.0)| <= |bs| - |ReadVarint(bs).value.1|
  {
    if bs[0] >= 128 {
      VarintMinimal(bs[1..]);
      ReadConsumes(bs[1..]);
      var v := ReadVarint(bs[1..]).value.0;
      assert (v * 128 + (bs[0] - 128)) / 128 == v;
    }
  }

  // ---------- fields ----------

  datatype Field = Uint(number: nat, value: nat) | Message(number: nat, content: Bytes)

  function EncodeField(f: Field): Bytes {
    match f
    case Uint(number, value) => Varint(number * 8) + Varint(value)
    case Message(number, content) => Varint(number * 8 + 2) + Varint(|content|) + content
  }

  function Encode(fs: seq<Field>): Bytes {
    if fs == [] then [] else EncodeField(fs[0]) + Encode(fs[1..])
  }

  /** The field at the front and what follows it; only the two wire types in use. */
  function ReadField(bs: Bytes): Option<(Field, Bytes)> {
    match ReadVarint(bs)
    case None => None
    case Some((tag, rest)) =>
      match ReadVarint(rest)
      case None => None
      case Some((value, after)) =>
        if tag % 8 == 0 then Some((Uint(tag / 8, value), after))
        else if tag % 8 == 2 && value <= |after| then Some((Message(tag / 8, after[..value]), after[value..]))
        else None
  }

  lemma ReadFieldConsumes(bs: Bytes)
    requires ReadField(bs).Some?
    ensures |ReadField(bs).value.1| < |bs|
  {
    ReadConsumes(bs);
    ReadConsumes(ReadVarint(bs).value.1);
  }

  function ReadFields(bs: Bytes): Option<seq<Field>>
    decreases |bs|
  {
    if bs == [] then Some([])
    else match ReadField(bs)
      case None => None
      case Some((f, rest)) =>
        ReadFieldConsumes(bs);
        match ReadFields(rest)
        case None => None
        case Some(fs) => Some([f] + fs)
  }

  lemma FieldRoundTrip(f: Field, rest: Bytes)
    ensures ReadField(EncodeField(f) + rest) == Some((f, rest))
  {
    match f
    case Uint(number, value) =>
      assert EncodeField(f) + rest == Varint(number * 8) + (Varint(value) + rest);
      VarintRoundTrip(number * 8, Varint(value) + rest);
      VarintRoundTrip(value, rest);
    case Message(number, content) =>
      assert EncodeField(f) + rest == Varint(number * 8 + 2) + (Varint(|content|) + (content + rest));
      VarintRoundTrip(number * 8 + 2, Varint(|content|) + (content + rest));
      VarintRoundTrip(|content|, content + rest);
  }

  lemma EncodeFieldNonEmpty(f: Field)
    ensures |EncodeField(f)| > 0
  {
  }

  /** Every list of fields is read back from its bytes. */
  lemma {:induction false} FieldsRoundTrip(fs: seq<Field>)
    ensures ReadFields(Encode(fs)) == Some(fs)
  {
    if fs != [] {
      EncodeFieldNonEmpty(fs[0]);
      FieldRoundTrip(fs[0], Encode(fs[1..]));
      FieldsRoundTrip(fs[1..]);
      assert fs == [fs[0]] + fs[1..];
    }
  }

  // ---------- the configuration ----------

  /** A category name is given as the bytes of its UTF-8 encoding. */
  function Categories(categories: seq<Bytes>): (fs: seq<Field>)
    ensures |fs| == |categories| && forall i :: 0 <= i < |fs| ==> fs[i] == Message(2, categories[i])
  {
    seq(|categories|, i requires 0 <= i < |categories| => Message(2, categories[i]))
  }

  function Buffer(): seq<Field> { [Uint(1, BUFFER_KB), Uint(4, 1)] }

  function Source(ftrace: Bytes): seq<Field> { [Message(1, SOURCE_NAME), Message(100, ftrace)] }

  function Top(buffer: Bytes, sources: Bytes, duration: nat): seq<Field> {
    [Message(1, buffer), Message(2, sources), Uint(3, duration), Uint(8, 1), Uint(10, TRACE_MAX_BYTES)]
  }

  function TraceConfig(duration: nat, categories: seq<Bytes>): Bytes {
    Encode(Top(Encode(Buffer()), Encode([Message(1, Encode(Source(Encode(Categories(categories)))))]), duration))
  }

  // ---------- reading a configuration by field numbers ----------

  datatype Config = Config(bufferKb: nat, fillPolicy: nat, source: Bytes, categories: seq<Bytes>,
                           duration: nat, writeIntoFile: nat, maxFileBytes: nat)

  /** The number in the first field `number` that is a number. */
  function NumberOf(fs: seq<Field>, number: nat): Option<nat> {
    if fs == [] then None
    else if fs[0].Uint? && fs[0].number == number then Some(fs[0].value)
    else NumberOf(fs[1..], number)
  }

  function ContentsOf(fs: seq<Field>, number: nat): seq<Bytes> {
    if fs == [] then []
    else (if fs[0].Message? && fs[0].number == number then [fs[0].content] else []) + ContentsOf(fs[1..], number)
  }

  /** The only message with field number `number`, as fields. */
  function Inside(fs: seq<Field>, number: nat): Option<seq<Field>> {
    var found := ContentsOf(fs, number);
    if |found| == 1 then ReadFields(found[0]) else None
  }

  function Parse(bs: Bytes): Option<Config> {
    var top := ReadFields(bs);
    if top.None? then None
    else
      var buffer, sources := Inside(top.value, 1), Inside(top.value, 2);
      var source := if sources.Some? then Inside(sources.value, 1) else None;
      var ftrace := if source.Some? then Inside(source.value, 100) else None;
      if buffer.None? || ftrace.None? || |ContentsOf(source.value, 1)| != 1 then None
      else
        var kb, policy := NumberOf(buffer.value, 1), NumberOf(buffer.value, 4);
        var duration, write, max := NumberOf(top.value, 3), NumberOf(top.value, 8), NumberOf(top.value, 10);
        if kb.None? || policy.None? || duration.None? || write.None? || max.None? then None
        else Some(Config(kb.value, policy.value, ContentsOf(source.value, 1)[0], ContentsOf(ftrace.value, 2),
                         duration.value, write.value, max.value))
  }

  lemma {:induction false} CategoriesRead(categories: seq<Bytes>)
    ensures ContentsOf(Categories(categories), 2) == categories
  {
    if categories != [] {
      CategoriesRead(categories[1..]);
      assert Categories(categories)[1..] == Categories(categories[1..]);
      assert categories == [categories[0]] + categories[1..];
    }
  }

  lemma ReadsFirst(f: Field, fs: seq<Field>, n: nat)
    ensures ContentsOf([f] + fs, n) == (if f.Message? && f.number == n then [f.content] else []) + ContentsOf(fs, n)
    ensures NumberOf([f] + fs, n) == if f.Uint? && f.number == n then Some(f.value) else NumberOf(fs, n)
  {
  }

  lemma SourceReads(ftrace: Bytes)
    ensures ContentsOf(Source(ftrace), 1) == [SOURCE_NAME]
    ensures ContentsOf(Source(ftrace), 100) == [ftrace]
  {
    var a, b := Message(1, SOURCE_NAME), Message(100, ftrace);
    assert Source(ftrace) == [a] + ([b] + []);
    forall n ensures ContentsOf([b] + [], n) == (if n == 100 then [ftrace] else []) { ReadsFirst(b, [], n); }
    ReadsFirst(a, [b] + [], 1);
    ReadsFirst(a, [b] + [], 100);
  }

  lemma BufferReads()
    ensures NumberOf(Buffer(), 1) == Some(BUFFER_KB) && NumberOf(Buffer(), 4) == Some(1)
  {
  }

  lemma NumbersRead(duration: nat)
    ensures var fs := [Uint(3, duration), Uint(8, 1), Uint(10, TRACE_MAX_BYTES)];
      && NumberOf(fs, 3) == Some(duration)
      && NumberOf(fs, 8) == Some(1)
      && NumberOf(fs, 10) == Some(TRACE_MAX_BYTES)
      && ContentsOf(fs, 1) == [] && ContentsOf(fs, 2) == []
  {
    var a, b, c := Uint(3, duration), Uint(8, 1), Uint(10, TRACE_MAX_BYTES);
    assert [a, b, c] == [a] + ([b] + ([c] + []));
    forall n
      ensures ContentsOf([a, b, c], n) == []
      ensures NumberOf([a, b, c], n) == if n == 3 then Some(duration) else if n == 8 then Some(1)
                                        else if n == 10 then Some(TRACE_MAX_BYTES) else None
    {
      ReadsFirst(c, [], n);
      ReadsFirst(b, [c] + [], n);
      ReadsFirst(a, [b] + ([c] + []), n);
    }
  }

  lemma TopReads(buffer: Bytes, sources: Bytes, duration: nat)
    ensures var fs := Top(buffer, sources, duration);
      && NumberOf(fs, 3) == Some(duration)
      && NumberOf(fs, 8) == Some(1)
      && NumberOf(fs, 10) == Some(TRACE_MAX_BYTES)
      && ContentsOf(fs, 1) == [buffer] && ContentsOf(fs, 2) == [sources]
  {
    var fs := Top(buffer, sources, duration);
    NumbersRead(duration);
    assert fs[1..][1..] == [Uint(3, duration), Uint(8, 1), Uint(10, TRACE_MAX_BYTES)];
  }

  lemma InsideReads(fs: seq<Field>, number: nat, inner: seq<Field>)
    requires ContentsOf(fs, number) == [Encode(inner)]
    ensures Inside(fs, number) == Some(inner)
  {
    FieldsRoundTrip(inner);
  }

  /** What every reader of the wire format finds in the encoded configuration: exactly the
      preset, the duration and the categories. */
  lemma ConfigRoundTrip(duration: nat, categories: seq<Bytes>)
    ensures Parse(TraceConfig(duration, categories))
         == Some(Config(BUFFER_KB, 1, SOURCE_NAME, categories, duration, 1, TRACE_MAX_BYTES))
  {
    var ftrace := Categories(categories);
    var source := Source(Encode(ftrace));
    var sources := [Message(1, Encode(source))];
    var top := Top(Encode(Buffer()), Encode(sources), duration);
    FieldsRoundTrip(top);
    TopReads(Encode(Buffer()), Encode(sources), duration);
    InsideReads(top, 1, Buffer());
    InsideReads(top, 2, sources);
    InsideReads(sources, 1, source);
    SourceReads(Encode(ftrace));
    InsideReads(source, 100, ftrace);
    BufferReads();
    CategoriesRead(categories);
  }

  /** Distinct requests give distinct bytes. */
  lemma ConfigInjective(duration: nat, categories: seq<Bytes>, duration': nat, categories': seq<Bytes>)
    requires TraceConfig(duration, categories) == TraceConfig(duration', categories')
    ensures duration == duration' && categories == categories'
  {
    ConfigRoundTrip(duration, categories);
    ConfigRoundTrip(duration', categories');
  }
}
