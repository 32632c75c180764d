/** Texts as UTF-16 code units, and the UTF-8 bytes they cross a pipe as.  A surrogate pair is
    encoded in four bytes, and any other unit in one, two or three.  The decoder takes its input
    in pieces of any size, and keeps the bytes of an unfinished character until the next piece
    brings the rest of them. */
module Utf8 {
  type CodeUnit = u: int | 0 <= u < 0x1_0000
  type Text = seq<CodeUnit>

  type Byte = b: int | 0 <= b < 256
  type Bytes = seq<Byte>

  predicate IsSurrogate(u: CodeUnit) { 0xD800 <= u < 0xE000 }

  /** The text starts with a surrogate pair. */
  predicate Paired(t: Text) { |t| >= 2 && 0xD800 <= t[0] < 0xDC00 && 0xDC00 <= t[1] < 0xE000 }

  /** The units of the first character. */
  function Width(t: Text): (n: nat)
    requires t != []
    ensures 0 < n <= |t|
  {
    if Paired(t) then 2 else 1
  }

  /** The code point of a surrogate pair. */
  function PairPoint(high: CodeUnit, low: CodeUnit): (p: nat)
    requires 0xD800 <= high < 0xDC00 && 0xDC00 <= low < 0xE000
    ensures 0x1_0000 <= p < 0x11_0000
  {
    0x1_0000 + (high - 0xD800) * 0x400 + (low - 0xDC00)
  }

  /** A continuation byte carries six bits. */
  function Continuation(bits: nat): (b: Byte)
    requires bits < 64
    ensures Carried(b) == bits
  {
    0x80 + bits
  }

  function Carried(b: Byte): (bits: nat)
    ensures bits < 64
  {
    b % 64
  }

  /** The bytes of the first character.  A surrogate on its own is encoded like any other unit,
      which is as long as what an encoder puts in its place. */
  function EncodeFirst(t: Text): Bytes
    requires t != []
  {
    if Paired(t) then
      var p := PairPoint(t[0], t[1]);
      var q := p / 64;
      var h := q / 64;
      [0xF0 + h / 64, Continuation(h % 64), Continuation(q % 64), Continuation(p % 64)]
    else
      var p: nat := t[0];
      var q := p / 64;
      if p < 0x80 then [p]
      else if p < 0x800 then [0xC0 + q, Continuation(p % 64)]
      else [0xE0 + q / 64, Continuation(q % 64), Continuation(p % 64)]
  }

  function Encode(t: Text): Bytes {
    if t == [] then [] else EncodeFirst(t) + Encode(t[Width(t)..])
  }

  /** How many bytes the first character has. */
  function Size(t: Text): nat
    requires t != []
  {
    if Paired(t) then 4 else if t[0] < 0x80 then 1 else if t[0] < 0x800 then 2 else 3
  }

  /** `Buffer.byteLength`. */
  function ByteLength(t: Text): nat {
    if t == [] then 0 else Size(t) + ByteLength(t[Width(t)..])
  }

  /** No surrogate stands alone. */
  predicate WellFormed(t: Text) {
    t == [] || ((Paired(t) || !IsSurrogate(t[0])) && WellFormed(t[Width(t)..]))
  }

  // ---------- the incremental decoder ----------

  /** How many bytes a character has, by its first byte. */
  function Length(first: Byte): nat {
    if first < 0xC0 then 1 else if first < 0xE0 then 2 else if first < 0xF0 then 3 else 4
  }

  /** The units of a code point. */
  function Units(p: nat): Text {
    if p < 0x1_0000 then [p]
    else var bits := (p - 0x1_0000) % 0x10_0000; [0xD800 + bits / 0x400, 0xDC00 + bits % 0x400]
  }

  /** The code point of one complete character. */
  function Point(b: Bytes): nat
    requires b != [] && |b| == Length(b[0])
  {
    var first: nat := b[0];
    if |b| == 1 then first
    else if |b| == 2 then (first - 0xC0) * 64 + Carried(b[1])
    else if |b| == 3 then ((first - 0xE0) * 64 + Carried(b[1])) * 64 + Carried(b[2])
    else (((first - 0xF0) * 64 + Carried(b[1])) * 64 + Carried(b[2])) * 64 + Carried(b[3])
  }

  /** What one chunk yields: the characters it completes, and the bytes of an incomplete one. */
  datatype Decoded = Decoded(text: Text, pending: Bytes)

  function Decode(pending: Bytes, bytes: Bytes): Decoded
    decreases |bytes|
  {
    if bytes == [] then Decoded([], pending)
    else
      var b := pending + [bytes[0]];
      if |b| == Length(b[0]) then
        var more := Decode([], bytes[1..]);
        more.(text := Units(Point(b)) + more.text)
      else Decode(b, bytes[1..])
  }

  /** The texts that the chunks of a stream are decoded to. */
  function DecodeChunks(pending: Bytes, chunks: seq<Bytes>): seq<Text>
    decreases |chunks|
  {
    if chunks == [] then []
    else
      var first := Decode(pending, chunks[0]);
      [first.text] + DecodeChunks(first.pending, chunks[1..])
  }

  function Joined<T>(parts: seq<seq<T>>): seq<T> {
    if parts == [] then [] else parts[0] + Joined(parts[1..])
  }

  lemma UnitDecodes(u: CodeUnit)
    ensures var b := EncodeFirst([u]); |b| == Length(b[0]) && Point(b) == u
  {
  }

  lemma PairDecodes(high: CodeUnit, low: CodeUnit)
    requires 0xD800 <= high < 0xDC00 && 0xDC00 <= low < 0xE000
    ensures var b := EncodeFirst([high, low]); |b| == Length(b[0]) && Point(b) == PairPoint(high, low)
  {
  }

  lemma PairUnits(high: CodeUnit, low: CodeUnit)
    requires 0xD800 <= high < 0xDC00 && 0xDC00 <= low < 0xE000
    ensures Units(PairPoint(high, low)) == [high, low]
  {
  }

  lemma FirstOnly(t: Text)
    requires t != []
    ensures EncodeFirst(t) == EncodeFirst(t[..Width(t)])
    ensures t[..Width(t)] == if Paired(t) then [t[0], t[1]] else [t[0]]
  {
  }

  lemma FirstDecodes(t: Text)
    requires t != []
    ensures EncodeFirst(t) == EncodeFirst(t[..Width(t)])
    ensures |EncodeFirst(t)| == Length(EncodeFirst(t)[0]) <= 4
    ensures Units(Point(EncodeFirst(t))) == t[..Width(t)]
  {
    FirstOnly(t);
    if Paired(t) {
      PairDecodes(t[0], t[1]);
      PairUnits(t[0], t[1]);
    } else {
      UnitDecodes(t[0]);
    }
  }

  /** The decoder after `k` of the bytes of a character. */
  lemma {:induction false} CharacterDecodes(b: Bytes, k: nat, rest: Bytes)
    requires b != [] && |b| == Length(b[0]) && k < |b|
    ensures Decode(b[..k], b[k..] + rest) == Decoded(Units(Point(b)) + Decode([], rest).text, Decode([], rest).pending)
    decreases |b| - k
  {
    var bytes := b[k..] + rest;
    assert b[..k] + [bytes[0]] == b[..k + 1];
    assert bytes[1..] == b[k + 1..] + rest;
    if k + 1 == |b| {
      assert b[..|b|] == b && bytes[1..] == rest;
    } else {
      CharacterDecodes(b, k + 1, rest);
    }
  }

  lemma {:induction false} CharacterPends(b: Bytes, k: nat, m: nat)
    requires b != [] && |b| == Length(b[0]) && k <= m < |b|
    ensures Decode(b[..k], b[k..m]) == Decoded([], b[..m])
    decreases m - k
  {
    if k < m {
      assert b[..k] + [b[k..m][0]] == b[..k + 1] && b[k..m][1..] == b[k + 1..m];
      CharacterPends(b, k + 1, m);
    }
  }

  lemma {:induction false} DecodeConcat(pending: Bytes, a: Bytes, b: Bytes)
    ensures var first := Decode(pending, a); var more := Decode(first.pending, b);
      Decode(pending, a + b) == Decoded(first.text + more.text, more.pending)
    decreases |a|
  {
    if a == [] {
      assert a + b == b;
    } else {
      var p := pending + [a[0]];
      assert (a + b)[1..] == a[1..] + b;
      if |p| == Length(p[0]) { DecodeConcat([], a[1..], b); } else { DecodeConcat(p, a[1..], b); }
    }
  }

  lemma CutPast<T>(x: seq<T>, y: seq<T>, front: seq<T>, back: seq<T>)
    requires x + y == front + back
    ensures |x| < |front| ==> x == front[..|x|]
    ensures |x| >= |front| ==> x == front + x[|front|..] && x[|front|..] + y == back
  {
    assert x == (x + y)[..|x|];
    if |x| >= |front| {
      assert front == (front + back)[..|front|] == x[..|front|];
      assert x[|front|..] + y == (x + y)[|front|..];
      assert back == (front + back)[|front|..];
    }
  }

  lemma {:induction false} WellFormedConcat(a: Text, b: Text)
    requires WellFormed(a) && WellFormed(b)
    ensures WellFormed(a + b)
    decreases |a|
  {
    if a == [] {
      assert a + b == b;
    } else {
      WellFormedConcat(a[Width(a)..], b);
      assert Width(a + b) == Width(a) && (a + b)[Width(a)..] == a[Width(a)..] + b;
    }
  }

  /** What the decoder has made of the bytes `x` of a text that goes on with the bytes `y`. */
  ghost predicate UpTo(t: Text, rest: Text, d: Decoded, x: Bytes, y: Bytes) {
    && t == d.text + rest && WellFormed(d.text) && WellFormed(rest)
    && Encode(d.text) + d.pending == x && d.pending + y == Encode(rest)
    && |d.pending| <= 3 && Decode([], d.pending) == Decoded([], d.pending)
  }

  lemma CutInFirst(t: Text, x: Bytes, y: Bytes)
    requires WellFormed(t) && t != [] && x + y == Encode(t) && |x| < |EncodeFirst(t)|
    ensures UpTo(t, t, Decode([], x), x, y)
  {
    var b := EncodeFirst(t);
    FirstDecodes(t);
    CutPast(x, y, b, Encode(t[Width(t)..]));
    CharacterPends(b, 0, |x|);
    assert b[..0] == [] && b[0..|x|] == x;
    assert [] + t == t;
  }

  lemma CutLater(t: Text, x: Bytes, y: Bytes, rest: Text)
    requires WellFormed(t) && t != []
    requires UpTo(t[Width(t)..], rest, Decode([], x), x, y)
    ensures UpTo(t, rest, Decode([], EncodeFirst(t) + x), EncodeFirst(t) + x, y)
  {
    var b, d := EncodeFirst(t), Decode([], x);
    FirstDecodes(t);
    CharacterDecodes(b, 0, x);
    assert b[..0] == [] && b[0..] == b;
    FirstAlone(t, d.text);
    FirstWellFormed(t);
    WellFormedConcat(t[..Width(t)], d.text);
    Regroup(b, Encode(d.text), d.pending);
    Regroup(t[..Width(t)], d.text, rest);
  }

  lemma FirstWellFormed(t: Text)
    requires WellFormed(t) && t != []
    ensures WellFormed(t[..Width(t)])
  {
    assert t[..Width(t)][Width(t)..] == [];
  }

  lemma Regroup<T>(a: seq<T>, b: seq<T>, c: seq<T>)
    ensures a + (b + c) == a + b + c
  {
  }

  /** Wherever the bytes of a text are cut, the decoder has the characters before the cut and
      keeps the bytes of the one that is cut. */
  lemma {:induction false} DecodesUpTo(t: Text, x: Bytes, y: Bytes) returns (rest: Text)
    requires WellFormed(t) && x + y == Encode(t)
    ensures UpTo(t, rest, Decode([], x), x, y)
    decreases |t|
  {
    if t == [] {
      rest := [];
    } else if |x| < |EncodeFirst(t)| {
      CutInFirst(t, x, y);
      rest := t;
    } else {
      var n, tail := |EncodeFirst(t)|, t[Width(t)..];
      CutPast(x, y, EncodeFirst(t), Encode(tail));
      rest := DecodesUpTo(tail, x[n..], y);
      CutLater(t, x[n..], y, rest);
    }
  }

  /** A first character keeps its bytes whatever well-formed text comes behind it. */
  lemma FirstAlone(t: Text, more: Text)
    requires WellFormed(t) && t != []
    ensures Encode(t[..Width(t)] + more) == EncodeFirst(t) + Encode(more)
  {
    var whole := t[..Width(t)] + more;
    assert Width(whole) == Width(t) && whole[..Width(t)] == t[..Width(t)];
    assert whole[Width(t)..] == more;
    FirstDecodes(t);
    FirstDecodes(whole);
  }

  /** No chunk ends or begins within a character. */
  ghost predicate Whole(chunks: seq<Text>) {
    forall i :: 0 <= i < |chunks| ==> WellFormed(chunks[i])
  }

  /** The whole stream, however it is cut: the chunks are decoded to the text, cut between its
      characters, and a chunk's text has at most three bytes more than the chunk. */
  lemma {:induction false} ChunksDecode(pending: Bytes, chunks: seq<Bytes>, t: Text)
    requires WellFormed(t) && pending + Joined(chunks) == Encode(t)
    requires |pending| <= 3 && Decode([], pending) == Decoded([], pending)
    ensures Joined(DecodeChunks(pending, chunks)) == t && Whole(DecodeChunks(pending, chunks))
    ensures |DecodeChunks(pending, chunks)| == |chunks|
    ensures forall i :: 0 <= i < |chunks| ==> ByteLength(DecodeChunks(pending, chunks)[i]) <= |chunks[i]| + 3
    decreases |chunks|
  {
    if chunks == [] {
      assert pending + Joined(chunks) == pending;
      NothingPends(t, pending);
    } else {
      var x, y := pending + chunks[0], Joined(chunks[1..]);
      assert x + y == pending + Joined(chunks);
      var rest := DecodesUpTo(t, x, y);
      DecodeConcat([], pending, chunks[0]);
      var d := Decode(pending, chunks[0]);
      assert d == Decode([], x);
      ByteLengthExactly(d.text);
      ChunksDecode(d.pending, chunks[1..], rest);
    }
  }

  lemma NothingPends(t: Text, pending: Bytes)
    requires WellFormed(t) && pending == Encode(t) && Decode([], pending) == Decoded([], pending)
    ensures t == []
  {
    if t != [] {
      FirstDecodes(t);
      var b := EncodeFirst(t);
      assert b[..0] == [] && b[0..] == b && |Units(Point(b))| > 0;
      CharacterDecodes(b, 0, Encode(t[Width(t)..]));
    }
  }

  // ---------- how a text may be cut ----------

  lemma {:induction false} EncodeConcat(a: Text, b: Text)
    requires WellFormed(a)
    ensures Encode(a + b) == Encode(a) + Encode(b)
    decreases |a|
  {
    if a == [] {
      assert a + b == b;
    } else {
      var tail := a[Width(a)..];
      EncodeConcat(tail, b);
      FirstAlone(a, tail + b);
      assert a == a[..Width(a)] + tail;
      Regroup(a[..Width(a)], tail, b);
      Regroup(EncodeFirst(a), Encode(tail), Encode(b));
    }
  }

  function EncodeEach(chunks: seq<Text>): seq<Bytes> {
    if chunks == [] then [] else [Encode(chunks[0])] + EncodeEach(chunks[1..])
  }

  lemma TextDecodes(t: Text)
    requires WellFormed(t)
    ensures Decode([], Encode(t)) == Decoded(t, [])
  {
    assert Encode(t) + [] == Encode(t);
    var rest := DecodesUpTo(t, Encode(t), []);
    var d := Decode([], Encode(t));
    assert d.pending + [] == d.pending;
    NothingPends(rest, d.pending);
  }

  lemma {:induction false} EachDecodes(chunks: seq<Text>)
    requires Whole(chunks)
    ensures DecodeChunks([], EncodeEach(chunks)) == chunks
  {
    if chunks != [] {
      TextDecodes(chunks[0]);
      EachDecodes(chunks[1..]);
      assert EncodeEach(chunks)[1..] == EncodeEach(chunks[1..]);
    }
  }

  lemma {:induction false} EachEncodes(chunks: seq<Text>)
    requires Whole(chunks)
    ensures Joined(EncodeEach(chunks)) == Encode(Joined(chunks))
  {
    if chunks != [] {
      EachEncodes(chunks[1..]);
      EncodeConcat(chunks[0], Joined(chunks[1..]));
      assert EncodeEach(chunks)[1..] == EncodeEach(chunks[1..]);
    }
  }

  /** The decoder yields the chunks, for some way to cut the bytes of the text. */
  ghost predicate Decodable(t: Text, chunks: seq<Text>) {
    exists pieces: seq<Bytes> :: Joined(pieces) == Encode(t) && DecodeChunks([], pieces) == chunks
  }

  /** What the decoder can yield are exactly the ways to cut the text between its characters. */
  lemma DecodableExactly(t: Text, chunks: seq<Text>)
    requires WellFormed(t)
    ensures Decodable(t, chunks) <==> Joined(chunks) == t && Whole(chunks)
  {
    if Decodable(t, chunks) {
      var pieces: seq<Bytes> :| Joined(pieces) == Encode(t) && DecodeChunks([], pieces) == chunks;
      assert [] + Joined(pieces) == Joined(pieces);
      ChunksDecode([], pieces, t);
    }
    if Joined(chunks) == t && Whole(chunks) {
      EachDecodes(chunks);
      EachEncodes(chunks);
    }
  }

  /** A text may be cut behind anything but a surrogate. */
  lemma {:induction false} WellFormedParts(a: Text, b: Text)
    requires WellFormed(a + b) && (a == [] || !IsSurrogate(a[|a| - 1]))
    ensures WellFormed(a) && WellFormed(b)
    decreases |a|
  {
    if a == [] {
      assert a + b == b;
    } else {
      assert Width(a + b) == Width(a) && (a + b)[Width(a)..] == a[Width(a)..] + b;
      WellFormedParts(a[Width(a)..], b);
    }
  }

  function Characters(t: Text): seq<Text> {
    if t == [] then [] else [t[..Width(t)]] + Characters(t[Width(t)..])
  }

  lemma {:induction false} CharactersJoin(t: Text)
    ensures Joined(Characters(t)) == t
    ensures WellFormed(t) ==> Whole(Characters(t))
    decreases |t|
  {
    if t != [] {
      CharactersJoin(t[Width(t)..]);
      assert Characters(t)[1..] == Characters(t[Width(t)..]);
      if WellFormed(t) { FirstWellFormed(t); }
    }
  }

  // ---------- lengths ----------

  lemma {:induction false} ByteLengthExactly(t: Text)
    ensures ByteLength(t) == |Encode(t)|
    decreases |t|
  {
    if t != [] { ByteLengthExactly(t[Width(t)..]); }
  }

  /** A text has no more units than bytes, and no part of it has more bytes than the whole. */
  lemma {:induction false} UnitsAtMostBytes(t: Text)
    ensures |t| <= ByteLength(t)
    decreases |t|
  {
    if t != [] { UnitsAtMostBytes(t[Width(t)..]); }
  }

  lemma {:induction false} PrefixShorter(a: Text, b: Text)
    ensures ByteLength(a) <= ByteLength(a + b)
    decreases |a|
  {
    if a != [] {
      var n := Width(a);
      if Width(a + b) == n {
        assert (a + b)[n..] == a[n..] + b;
        PrefixShorter(a[n..], b);
      } else {
        assert |a| == 1;
      }
    }
  }

  lemma {:induction false} SuffixShorter(a: Text, b: Text)
    ensures ByteLength(b) <= ByteLength(a + b)
    decreases |a|
  {
    if a == [] {
      assert a + b == b;
    } else {
      var n := Width(a);
      if Width(a + b) == n {
        assert (a + b)[n..] == a[n..] + b;
        SuffixShorter(a[n..], b);
      } else {
        assert |a| == 1 && (a + b)[2..] == b[1..];
        assert Width(b) == 1;
      }
    }
  }

  lemma {:induction false} ConcatAtMost(a: Text, b: Text)
    ensures ByteLength(a + b) <= ByteLength(a) + ByteLength(b)
    decreases |a|
  {
    if a == [] {
      assert a + b == b;
    } else {
      var n := Width(a);
      if Width(a + b) == n {
        assert (a + b)[n..] == a[n..] + b;
        ConcatAtMost(a[n..], b);
      } else {
        assert |a| == 1 && (a + b)[2..] == b[1..];
        assert Width(b) == 1;
      }
    }
  }
}
