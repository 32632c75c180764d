/** Splitting a chunked stream into newline-terminated messages, with a limit on the bytes of a
    line and on those of the buffer. */
module Framing {
  import opened Utf8
  import opened Wrappers

  const NEWLINE: CodeUnit := 10
  const MAX_LINE := 1024 * 1024
  const MAX_BUFFER := 2 * 1024 * 1024

  /** The position of the first newline, or the length. */
  function NewlineIndex(t: Text): (i: nat)
    ensures i <= |t|
  {
    if t == [] || t[0] == NEWLINE then 0 else 1 + NewlineIndex(t[1..])
  }

  /** A line within the limit that decodes. */
  function Accept<M>(decode: Text -> Option<M>, line: Text): Option<M> {
    if ByteLength(line) > MAX_LINE then None else decode(line)
  }

  predicate Overflows(buffer: Text) { ByteLength(buffer) > MAX_BUFFER }

  /** What one pass over the buffer leaves, and the messages it handled. */
  datatype Pass<M> = Pass(rest: Text, handled: seq<M>)

  /** A pass stops behind the first line that is too long or does not decode. */
  function Drain<M>(decode: Text -> Option<M>, buffer: Text): Pass<M>
    decreases |buffer|
  {
    var i := NewlineIndex(buffer);
    if i == |buffer| then Pass(buffer, [])
    else match Accept(decode, buffer[..i])
      case None => Pass(buffer[i + 1..], [])
      case Some(m) =>
        var more := Drain(decode, buffer[i + 1..]);
        more.(handled := [m] + more.handled)
  }

  /** One pass per chunk, over what the previous passes left, unless the buffer overflows. */
  function DrainAll<M>(decode: Text -> Option<M>, buffer: Text, chunks: seq<Text>): Pass<M>
    decreases |chunks|
  {
    if chunks == [] then Pass(buffer, [])
    else
      var filled := buffer + chunks[0];
      var first := if Overflows(filled) then Pass(filled, []) else Drain(decode, filled);
      var more := DrainAll(decode, first.rest, chunks[1..]);
      Pass(more.rest, first.handled + more.handled)
  }

  predicate NoOverflow<M>(decode: Text -> Option<M>, buffer: Text, chunks: seq<Text>)
    decreases |chunks|
  {
    chunks == [] ||
    (!Overflows(buffer + chunks[0]) && NoOverflow(decode, Drain(decode, buffer + chunks[0]).rest, chunks[1..]))
  }

  // ---------- the stream as lines ----------

  function Lines(t: Text): seq<Text>
    decreases |t|
  {
    var i := NewlineIndex(t);
    if i == |t| then [] else [t[..i]] + Lines(t[i + 1..])
  }

  /** What follows the first `n` lines. */
  function Skip(t: Text, n: nat): Text
    decreases n
  {
    var i := NewlineIndex(t);
    if n == 0 || i == |t| then t else Skip(t[i + 1..], n - 1)
  }

  /** The messages of the lines that are accepted, in order. */
  function Accepted<M>(decode: Text -> Option<M>, lines: seq<Text>): seq<M> {
    if lines == [] then []
    else match Accept(decode, lines[0])
      case None => Accepted(decode, lines[1..])
      case Some(m) => [m] + Accepted(decode, lines[1..])
  }

  /** The lines one pass consumes: all, or up to and including the first refused one. */
  function Consumed<M>(decode: Text -> Option<M>, buffer: Text): nat
    decreases |buffer|
  {
    var i := NewlineIndex(buffer);
    if i == |buffer| then 0
    else if Accept(decode, buffer[..i]).None? then 1
    else 1 + Consumed(decode, buffer[i + 1..])
  }

  function ConsumedAll<M>(decode: Text -> Option<M>, buffer: Text, chunks: seq<Text>): nat
    decreases |chunks|
  {
    if chunks == [] then 0
    else
      Consumed(decode, buffer + chunks[0])
      + ConsumedAll(decode, Drain(decode, buffer + chunks[0]).rest, chunks[1..])
  }

  lemma IndexInConcat(t: Text, more: Text)
    ensures NewlineIndex(t) < |t| ==> NewlineIndex(t + more) == NewlineIndex(t)
    ensures NewlineIndex(t) == |t| ==> NewlineIndex(t + more) == |t| + NewlineIndex(more)
  {
    if t == [] {
      assert t + more == more;
    } else {
      assert (t + more)[1..] == t[1..] + more;
    }
  }

  lemma {:induction false} LinesOfSkip(t: Text, n: nat)
    requires n <= |Lines(t)|
    ensures Lines(Skip(t, n)) == Lines(t)[n..]
    decreases n
  {
    if n > 0 {
      var i := NewlineIndex(t);
      LinesOfSkip(t[i + 1..], n - 1);
      assert Lines(t)[n..] == Lines(t[i + 1..])[n - 1..];
    }
  }

  lemma FirstLineStays(t: Text, more: Text)
    requires NewlineIndex(t) < |t|
    ensures var i := NewlineIndex(t);
      && NewlineIndex(t + more) == i && (t + more)[..i] == t[..i]
      && (t + more)[..i + 1] == t[..i + 1] && (t + more)[i + 1..] == t[i + 1..] + more
  {
    IndexInConcat(t, more);
  }

  /** More text behind complete lines leaves them as they are. */
  lemma {:induction false} SkipOfConcat(t: Text, more: Text, n: nat)
    requires n <= |Lines(t)|
    ensures n <= |Lines(t + more)| && Lines(t + more)[..n] == Lines(t)[..n]
    ensures Skip(t + more, n) == Skip(t, n) + more
    decreases n
  {
    if n > 0 {
      var i := NewlineIndex(t);
      FirstLineStays(t, more);
      SkipOfConcat(t[i + 1..], more, n - 1);
      PrefixWithFirst(t[..i], Lines(t[i + 1..]), n);
      PrefixWithFirst(t[..i], Lines(t[i + 1..] + more), n);
    }
  }

  lemma PrefixWithFirst<T>(first: T, rest: seq<T>, n: nat)
    requires 0 < n <= |rest| + 1
    ensures ([first] + rest)[..n] == [first] + rest[..n - 1]
  {
  }

  lemma {:induction false} SkipTwice(t: Text, n: nat, m: nat)
    requires n <= |Lines(t)|
    ensures Skip(Skip(t, n), m) == Skip(t, n + m)
    decreases n
  {
    if n > 0 { SkipTwice(t[NewlineIndex(t) + 1..], n - 1, m); }
  }

  lemma {:induction false} SkipShorter(t: Text, n: nat)
    ensures ByteLength(Skip(t, n)) <= ByteLength(t)
    decreases n
  {
    var i := NewlineIndex(t);
    if n > 0 && i < |t| {
      SkipShorter(t[i + 1..], n - 1);
      SuffixShorter(t[..i + 1], t[i + 1..]);
      assert t == t[..i + 1] + t[i + 1..];
    }
  }

  lemma {:induction false} AcceptedOfConcat<M>(decode: Text -> Option<M>, a: seq<Text>, b: seq<Text>)
    ensures Accepted(decode, a + b) == Accepted(decode, a) + Accepted(decode, b)
  {
    if a == [] {
      assert a + b == b;
    } else {
      assert (a + b)[1..] == a[1..] + b;
      AcceptedOfConcat(decode, a[1..], b);
    }
  }

  /** One pass consumes lines from the front: all of them, or up to and including the first
      refused one. */
  lemma {:induction false} DrainConsumes<M>(decode: Text -> Option<M>, buffer: Text)
    ensures var lines, n := Lines(buffer), Consumed(decode, buffer);
      && n <= |lines| && Drain(decode, buffer) == Pass(Skip(buffer, n), Accepted(decode, lines[..n]))
      && (n < |lines| ==> n > 0 && Accept(decode, lines[n - 1]).None?)
      && (forall k :: 0 <= k < n - 1 ==> Accept(decode, lines[k]).Some?)
    decreases |buffer|
  {
    var i := NewlineIndex(buffer);
    if i < |buffer| {
      var lines, n := Lines(buffer), Consumed(decode, buffer);
      if Accept(decode, buffer[..i]).Some? {
        DrainConsumes(decode, buffer[i + 1..]);
      }
      assert lines[..n] == [buffer[..i]] + lines[1..][..n - 1];
      assert lines[1..] == Lines(buffer[i + 1..]);
    }
  }

  /** A pass over the stream consumed its first `n` lines. */
  ghost predicate Consumes<M>(decode: Text -> Option<M>, data: Text, pass: Pass<M>, n: nat) {
    n <= |Lines(data)| && pass == Pass(Skip(data, n), Accepted(decode, Lines(data)[..n]))
  }

  /** If lines are left over, the last one consumed is a refused one, and from there on all of
      the stream is within the buffer's limit. */
  ghost predicate Stopped<M>(decode: Text -> Option<M>, data: Text, n: nat) {
    n < |Lines(data)| ==> n > 0 && Accept(decode, Lines(data)[n - 1]).None? && !Overflows(Skip(data, n - 1))
  }

  lemma JoinedFirst(buffer: Text, chunks: seq<Text>)
    requires chunks != []
    ensures buffer + Joined(chunks) == (buffer + chunks[0]) + Joined(chunks[1..])
  {
  }

  /** One chunk, then the others: their lines follow each other. */
  lemma RestFollows<M>(decode: Text -> Option<M>, filled: Text, more: Text)
    ensures var k, rest := Consumed(decode, filled), Drain(decode, filled).rest;
      && rest == Skip(filled, k) && k <= |Lines(filled + more)|
      && Skip(filled + more, k) == rest + more
      && Lines(rest + more) == Lines(filled + more)[k..]
      && Drain(decode, filled).handled == Accepted(decode, Lines(filled + more)[..k])
  {
    DrainConsumes(decode, filled);
    SkipOfConcat(filled, more, Consumed(decode, filled));
    LinesOfSkip(filled + more, Consumed(decode, filled));
  }

  lemma ConsumesStep<M>(decode: Text -> Option<M>, filled: Text, more: Text, later: Pass<M>, m: nat)
    requires Consumes(decode, Drain(decode, filled).rest + more, later, m)
    ensures Consumes(decode, filled + more, Pass(later.rest, Drain(decode, filled).handled + later.handled),
                     Consumed(decode, filled) + m)
  {
    var k, lines := Consumed(decode, filled), Lines(filled + more);
    RestFollows(decode, filled, more);
    SkipTwice(filled + more, k, m);
    PrefixInTwo(lines, k, m);
    AcceptedOfConcat(decode, lines[..k], lines[k..][..m]);
  }

  lemma PrefixInTwo<T>(s: seq<T>, k: nat, m: nat)
    requires k + m <= |s|
    ensures s[..k + m] == s[..k] + s[k..][..m]
  {
  }

  lemma StoppedStep<M>(decode: Text -> Option<M>, filled: Text, more: Text, m: nat)
    requires Stopped(decode, Drain(decode, filled).rest + more, m)
    ensures Stopped(decode, filled + more, Consumed(decode, filled) + m)
  {
    RestFollows(decode, filled, more);
    if m > 0 { LineBehind(decode, filled, more, m - 1); }
  }

  lemma LineBehind<M>(decode: Text -> Option<M>, filled: Text, more: Text, m: nat)
    ensures var k, rest := Consumed(decode, filled), Drain(decode, filled).rest;
      && Skip(rest + more, m) == Skip(filled + more, k + m)
      && (m < |Lines(rest + more)| ==>
            k + m < |Lines(filled + more)| && Lines(rest + more)[m] == Lines(filled + more)[k + m])
  {
    RestFollows(decode, filled, more);
    SkipTwice(filled + more, Consumed(decode, filled), m);
  }

  lemma StoppedAtOnce<M>(decode: Text -> Option<M>, filled: Text)
    requires !Overflows(filled)
    ensures Stopped(decode, filled, Consumed(decode, filled))
  {
    var k := Consumed(decode, filled);
    DrainConsumes(decode, filled);
    if k > 0 { SkipShorter(filled, k - 1); }
  }

  /** Without overflow, what is handled are the messages of the lines consumed so far. */
  lemma {:induction false} ChunksConsume<M>(decode: Text -> Option<M>, buffer: Text, chunks: seq<Text>)
    requires NoOverflow(decode, buffer, chunks)
    ensures Consumes(decode, buffer + Joined(chunks), DrainAll(decode, buffer, chunks),
                     ConsumedAll(decode, buffer, chunks))
    ensures chunks != [] ==> Stopped(decode, buffer + Joined(chunks), ConsumedAll(decode, buffer, chunks))
    decreases |chunks|
  {
    if chunks == [] {
      assert buffer + Joined(chunks) == buffer;
    } else {
      var filled, more := buffer + chunks[0], Joined(chunks[1..]);
      var rest := Drain(decode, filled).rest;
      JoinedFirst(buffer, chunks);
      ChunksConsume(decode, rest, chunks[1..]);
      ConsumesStep(decode, filled, more, DrainAll(decode, rest, chunks[1..]), ConsumedAll(decode, rest, chunks[1..]));
      if |chunks| == 1 {
        assert filled + more == filled;
        StoppedAtOnce(decode, filled);
      } else {
        StoppedStep(decode, filled, more, ConsumedAll(decode, rest, chunks[1..]));
      }
    }
  }

  // ---------- how the stream may be cut ----------

  /** Every line with its newline, and what follows the last, is within the buffer's limit. */
  predicate Fits(t: Text)
    decreases |t|
  {
    var i := NewlineIndex(t);
    if i == |t| then !Overflows(t) else !Overflows(t[..i + 1]) && Fits(t[i + 1..])
  }

  lemma {:induction false} ShortFits(t: Text)
    requires !Overflows(t)
    ensures Fits(t)
    decreases |t|
  {
    var i := NewlineIndex(t);
    if i < |t| {
      assert t == t[..i + 1] + t[i + 1..];
      PrefixShorter(t[..i + 1], t[i + 1..]);
      SuffixShorter(t[..i + 1], t[i + 1..]);
      ShortFits(t[i + 1..]);
    }
  }

  lemma {:induction false} SkipFits(t: Text, n: nat)
    requires Fits(t)
    ensures Fits(Skip(t, n))
    decreases n
  {
    var i := NewlineIndex(t);
    if n > 0 && i < |t| { SkipFits(t[i + 1..], n - 1); }
  }

  lemma {:induction false} FitsBehind(t: Text, more: Text, n: nat)
    requires n <= |Lines(t)| && Fits(t) && Fits(Skip(t, n) + more)
    ensures Fits(t + more)
    decreases n
  {
    if n > 0 {
      var i := NewlineIndex(t);
      FirstLineStays(t, more);
      FitsBehind(t[i + 1..], more, n - 1);
    }
  }

  /** A stream that does not fit overflows however it is cut. */
  lemma {:induction false} NoOverflowFits<M>(decode: Text -> Option<M>, buffer: Text, chunks: seq<Text>)
    requires Fits(buffer) && NoOverflow(decode, buffer, chunks)
    ensures Fits(buffer + Joined(chunks))
    decreases |chunks|
  {
    if chunks == [] {
      assert buffer + Joined(chunks) == buffer;
    } else {
      var filled, more := buffer + chunks[0], Joined(chunks[1..]);
      var k := Consumed(decode, filled);
      DrainConsumes(decode, filled);
      ShortFits(filled);
      SkipFits(filled, k);
      NoOverflowFits(decode, Skip(filled, k), chunks[1..]);
      FitsBehind(filled, more, k);
      JoinedFirst(buffer, chunks);
    }
  }

  lemma NewlineFound(buffer: Text, more: Text)
    requires NewlineIndex(buffer) == |buffer|
    ensures NewlineIndex(buffer + [NEWLINE] + more) == |buffer|
  {
    IndexInConcat(buffer, [NEWLINE]);
    IndexInConcat(buffer + [NEWLINE], more);
  }

  lemma SliceAround<T>(a: seq<T>, x: T, b: seq<T>)
    ensures (a + [x] + b)[..|a|] == a && (a + [x] + b)[|a| + 1..] == b && (a + [x] + b)[..|a| + 1] == a + [x]
  {
  }

  /** Behind a partial line, one more unit that ends it. */
  lemma NewlineEnds<M>(decode: Text -> Option<M>, buffer: Text, more: Text)
    requires NewlineIndex(buffer) == |buffer|
    ensures var next := buffer + [NEWLINE];
      && Consumed(decode, next) == 1 && Drain(decode, next).rest == []
      && Lines(next + more) == [buffer] + Lines(more)
      && (Fits(next + more) ==> !Overflows(next) && Fits(more))
  {
    var next := buffer + [NEWLINE];
    NewlineFound(buffer, []);
    NewlineFound(buffer, more);
    SliceAround(buffer, NEWLINE, []);
    SliceAround(buffer, NEWLINE, more);
    assert next + [] == next;
  }

  /** One more character that does not. */
  lemma CharacterGrows<M>(decode: Text -> Option<M>, buffer: Text, c: Text, more: Text)
    requires NewlineIndex(buffer) == |buffer| && NewlineIndex(c) == |c| && Fits(buffer + c + more)
    ensures var next := buffer + c;
      && NewlineIndex(next) == |next|
      && Consumed(decode, next) == 0
      && Drain(decode, next).rest == next
      && !Overflows(next)
  {
    var next := buffer + c;
    IndexInConcat(buffer, c);
    IndexInConcat(next, more);
    var i := NewlineIndex(next + more);
    if i < |next + more| {
      assert (next + more)[..i + 1] == next + (next + more)[..i + 1][|next|..];
      PrefixShorter(next, (next + more)[..i + 1][|next|..]);
    } else {
      PrefixShorter(next, more);
    }
  }

  /** Character by character, every line is consumed, also after a refused one. */
  lemma {:induction false} CharactersConsumeAll<M>(decode: Text -> Option<M>, buffer: Text, data: Text)
    requires NewlineIndex(buffer) == |buffer| && Fits(buffer + data)
    ensures NoOverflow(decode, buffer, Characters(data))
    ensures ConsumedAll(decode, buffer, Characters(data)) == |Lines(buffer + data)|
    decreases |data|
  {
    if data == [] {
      assert buffer + data == buffer;
    } else {
      var c, more := data[..Width(data)], data[Width(data)..];
      assert buffer + data == buffer + c + more;
      assert Characters(data)[1..] == Characters(more);
      if data[0] == NEWLINE {
        assert c == [NEWLINE];
        NewlineEnds(decode, buffer, more);
        assert [] + more == more;
        CharactersConsumeAll(decode, [], more);
      } else {
        CharacterGrows(decode, buffer, c, more);
        CharactersConsumeAll(decode, buffer + c, more);
      }
    }
  }

  /** Fed character by character, a stream that fits has every accepted line handled. */
  lemma OneByOneHandlesAll<M>(decode: Text -> Option<M>, buffer: Text, data: Text)
    requires NewlineIndex(buffer) == |buffer| && Fits(buffer + data)
    ensures Joined(Characters(data)) == data && NoOverflow(decode, buffer, Characters(data))
    ensures DrainAll(decode, buffer, Characters(data)).handled == Accepted(decode, Lines(buffer + data))
  {
    CharactersJoin(data);
    CharactersConsumeAll(decode, buffer, data);
    ChunksConsume(decode, buffer, Characters(data));
    assert Lines(buffer + data)[..|Lines(buffer + data)|] == Lines(buffer + data);
  }

  // ---------- when the cutting matters ----------

  /** A message of a kind that is `seen` stands behind a refused line, and from that line on the
      stream is short enough to arrive in one chunk. */
  ghost predicate Late<M>(decode: Text -> Option<M>, seen: M -> bool, t: Text) {
    Fits(t) && exists r, j :: LateAt(decode, seen, t, r, j)
  }

  ghost predicate LateAt<M>(decode: Text -> Option<M>, seen: M -> bool, t: Text, r: int, j: int) {
    var lines := Lines(t);
    && 0 <= r < j < |lines| && Accept(decode, lines[r]).None? && !Overflows(Skip(t, r))
    && Accept(decode, lines[j]).Some? && seen(Accept(decode, lines[j]).value)
  }

  /** Two ways to cut the stream `data` between characters, as the decoder of its bytes does,
      neither of which makes the buffer overflow. */
  ghost predicate Cuttings<M>(decode: Text -> Option<M>, buffer: Text, data: Text, a: seq<Text>, b: seq<Text>) {
    && Joined(a) == data && Whole(a) && NoOverflow(decode, buffer, a)
    && Joined(b) == data && Whole(b) && NoOverflow(decode, buffer, b)
  }

  /** If nothing seen is late, whatever any cutting leaves over holds nothing that is seen. */
  lemma LeftoverUnseen<M>(decode: Text -> Option<M>, seen: M -> bool, buffer: Text, chunks: seq<Text>)
    requires NewlineIndex(buffer) == |buffer| && Fits(buffer)
    requires NoOverflow(decode, buffer, chunks) && !Late(decode, seen, buffer + Joined(chunks))
    ensures var lines, n := Lines(buffer + Joined(chunks)), ConsumedAll(decode, buffer, chunks);
      && n <= |lines|
      && (n < |lines| ==> n > 0 && Accept(decode, lines[n - 1]).None?)
      && (forall j :: n <= j < |lines| && Accept(decode, lines[j]).Some? ==> !seen(Accept(decode, lines[j]).value))
  {
    var data := buffer + Joined(chunks);
    var lines, n := Lines(data), ConsumedAll(decode, buffer, chunks);
    NoOverflowFits(decode, buffer, chunks);
    ChunksConsume(decode, buffer, chunks);
    if chunks == [] {
      assert data == buffer;
    } else if n < |lines| {
      forall j | n <= j < |lines| && Accept(decode, lines[j]).Some? ensures !seen(Accept(decode, lines[j]).value) {
        assert !LateAt(decode, seen, data, n - 1, j);
      }
    }
  }

  /** `chunks` cut the stream so that its first `n` lines are consumed and no others. */
  ghost predicate Leaves<M>(decode: Text -> Option<M>, buffer: Text, data: Text, chunks: seq<Text>, n: nat) {
    Joined(chunks) == data && NoOverflow(decode, buffer, chunks) && ConsumedAll(decode, buffer, chunks) == n
  }

  /** Every chunk but the last ends with a line. */
  ghost predicate AtLines(chunks: seq<Text>) {
    forall i :: 0 <= i < |chunks| - 1 ==> chunks[i] != [] && chunks[i][|chunks[i]| - 1] == NEWLINE
  }

  lemma {:induction false} LinesWhole(chunks: seq<Text>)
    requires AtLines(chunks) && WellFormed(Joined(chunks))
    ensures Whole(chunks)
  {
    if |chunks| == 1 {
      assert chunks[0] + Joined(chunks[1..]) == chunks[0];
    } else if chunks != [] {
      WellFormedParts(chunks[0], Joined(chunks[1..]));
      LinesWhole(chunks[1..]);
    }
  }

  lemma LeavesInOne<M>(decode: Text -> Option<M>, data: Text)
    requires !Overflows(data)
    ensures Leaves(decode, [], data, [data], Consumed(decode, data))
  {
    assert data + [] == data && [] + data == data;
    assert [data][1..] == [];
  }

  lemma LeavesBehind<M>(decode: Text -> Option<M>, line: Text, back: Text, later: seq<Text>, n: nat)
    requires !Overflows(line) && Consumed(decode, line) == 1 && Drain(decode, line).rest == []
    requires Leaves(decode, [], back, later, n)
    ensures Leaves(decode, [], line + back, [line] + later, n + 1)
  {
    assert ([line] + later)[1..] == later && [] + line == line;
  }

  /** A cutting that stops at the refused line `r` and leaves over all that follows it. */
  lemma {:induction false} StoppingCut<M>(decode: Text -> Option<M>, t: Text, r: nat) returns (chunks: seq<Text>)
    requires Fits(t) && r < |Lines(t)| && Accept(decode, Lines(t)[r]).None? && !Overflows(Skip(t, r))
    ensures Leaves(decode, [], t, chunks, r + 1)
    ensures chunks != [] && NewlineIndex(t) < |chunks[0]| && AtLines(chunks)
    decreases r
  {
    if r == 0 {
      LeavesInOne(decode, t);
      chunks := [t];
    } else {
      var line, back := FirstLine(decode, t, r);
      var later := StoppingCut(decode, back, r - 1);
      LeavesBehind(decode, line, back, later, r);
      LineBefore(line, later);
      chunks := [line] + later;
    }
  }

  lemma LineBefore(line: Text, later: seq<Text>)
    requires line != [] && line[|line| - 1] == NEWLINE && AtLines(later)
    ensures AtLines([line] + later)
  {
  }

  lemma {:induction false} EndsLine(t: Text)
    requires NewlineIndex(t) < |t|
    ensures t[NewlineIndex(t)] == NEWLINE
  {
    if t[0] != NEWLINE { EndsLine(t[1..]); }
  }

  lemma FirstLine<M>(decode: Text -> Option<M>, t: Text, r: nat) returns (line: Text, back: Text)
    requires Fits(t) && 0 < r < |Lines(t)|
    ensures t == line + back && |line| == NewlineIndex(t) + 1 && |back| < |t| && line[|line| - 1] == NEWLINE
    ensures Fits(back) && !Overflows(line) && Consumed(decode, line) == 1 && Drain(decode, line).rest == []
    ensures r - 1 < |Lines(back)| && Lines(back)[r - 1] == Lines(t)[r] && Skip(back, r - 1) == Skip(t, r)
  {
    LineAlone(decode, t);
    EndsLine(t);
    line, back := t[..NewlineIndex(t) + 1], t[NewlineIndex(t) + 1..];
  }

  lemma LineAlone<M>(decode: Text -> Option<M>, t: Text)
    requires NewlineIndex(t) < |t|
    ensures var line := t[..NewlineIndex(t) + 1]; Consumed(decode, line) == 1 && Drain(decode, line).rest == []
  {
    var line, back := t[..NewlineIndex(t) + 1], t[NewlineIndex(t) + 1..];
    assert t == line + back;
    IndexInConcat(line, back);
    assert line[|line|..] == [];
  }

  /** The beginning of the first chunk may have come before. */
  lemma LeavesBuffered<M>(decode: Text -> Option<M>, buffer: Text, data: Text, chunks: seq<Text>, n: nat)
    returns (cut: seq<Text>)
    requires Leaves(decode, [], buffer + data, chunks, n) && chunks != [] && |buffer| < |chunks[0]|
    ensures Leaves(decode, buffer, data, cut, n)
    ensures cut == [chunks[0][|buffer|..]] + chunks[1..]
  {
    var first := chunks[0][|buffer|..];
    cut := [first] + chunks[1..];
    assert chunks[0] == (buffer + data)[..|chunks[0]|];
    assert buffer + first == chunks[0] && [] + chunks[0] == chunks[0];
    assert cut[1..] == chunks[1..];
    assert data == (buffer + data)[|buffer|..] == first + Joined(chunks[1..]);
  }

  lemma LaterStart(chunks: seq<Text>, n: nat)
    requires AtLines(chunks) && chunks != [] && n < |chunks[0]|
    ensures AtLines([chunks[0][n..]] + chunks[1..])
  {
  }

  // ---------- the messages of a stream ----------

  /** No accepted line comes after a refused one. */
  ghost predicate Clean<M>(decode: Text -> Option<M>, lines: seq<Text>) {
    forall i, j :: 0 <= i < j < |lines| && Accept(decode, lines[i]).None? ==> Accept(decode, lines[j]).None?
  }

  lemma {:induction false} NothingAccepted<M>(decode: Text -> Option<M>, lines: seq<Text>)
    requires forall i :: 0 <= i < |lines| ==> Accept(decode, lines[i]).None?
    ensures Accepted(decode, lines) == []
  {
    if lines != [] { NothingAccepted(decode, lines[1..]); }
  }

  predicate Any<M>(m: M) { true }

  /** When no message is late, every cutting without overflow handles all messages. */
  lemma HandlesAll<M>(decode: Text -> Option<M>, buffer: Text, chunks: seq<Text>)
    requires NewlineIndex(buffer) == |buffer| && Fits(buffer) && NoOverflow(decode, buffer, chunks)
    requires !Late(decode, Any, buffer + Joined(chunks))
    ensures DrainAll(decode, buffer, chunks).handled == Accepted(decode, Lines(buffer + Joined(chunks)))
  {
    ChunksConsume(decode, buffer, chunks);
    LeftoverUnseen(decode, Any, buffer, chunks);
    AcceptedInFront(decode, Lines(buffer + Joined(chunks)), ConsumedAll(decode, buffer, chunks));
  }

  lemma AcceptedInFront<M>(decode: Text -> Option<M>, lines: seq<Text>, n: nat)
    requires n <= |lines| && forall j :: n <= j < |lines| ==> Accept(decode, lines[j]).None?
    ensures Accepted(decode, lines[..n]) == Accepted(decode, lines)
  {
    NothingAccepted(decode, lines[n..]);
    AcceptedOfConcat(decode, lines[..n], lines[n..]);
    assert lines == lines[..n] + lines[n..];
  }

  /** When no accepted line follows a refused one, every cutting without overflow handles the
      same messages. */
  lemma ChunkingIrrelevant<M>(decode: Text -> Option<M>, chunks: seq<Text>)
    requires NoOverflow(decode, [], chunks) && Clean(decode, Lines(Joined(chunks)))
    ensures DrainAll(decode, [], chunks).handled == Accepted(decode, Lines(Joined(chunks)))
  {
    assert [] + Joined(chunks) == Joined(chunks);
    HandlesAll(decode, [], chunks);
  }

  lemma {:induction false} AcceptedGrows<M>(decode: Text -> Option<M>, lines: seq<Text>, k: nat, j: nat)
    requires k <= j < |lines| && Accept(decode, lines[j]).Some?
    ensures |Accepted(decode, lines[..k])| < |Accepted(decode, lines)|
  {
    assert lines == lines[..k] + (lines[k..j] + ([lines[j]] + lines[j + 1..]));
    AcceptedOfConcat(decode, lines[..k], lines[k..j] + ([lines[j]] + lines[j + 1..]));
    AcceptedOfConcat(decode, lines[k..j], [lines[j]] + lines[j + 1..]);
    assert |Accepted(decode, [lines[j]] + lines[j + 1..])| > 0;
  }

  lemma LateMatters<M>(decode: Text -> Option<M>, seen: M -> bool, buffer: Text, data: Text, r: nat, j: nat)
    returns (cut: seq<Text>)
    requires NewlineIndex(buffer) == |buffer| && Fits(buffer + data) && WellFormed(data)
    requires LateAt(decode, seen, buffer + data, r, j)
    ensures Cuttings(decode, buffer, data, cut, Characters(data))
    ensures ConsumedAll(decode, buffer, cut) == r + 1
    ensures ConsumedAll(decode, buffer, Characters(data)) == |Lines(buffer + data)|
  {
    var chunks := StoppingCut(decode, buffer + data, r);
    IndexInConcat(buffer, data);
    cut := LeavesBuffered(decode, buffer, data, chunks, r + 1);
    LaterStart(chunks, |buffer|);
    LinesWhole(cut);
    CharactersJoin(data);
    CharactersConsumeAll(decode, buffer, data);
  }

  /** Exactly when all cuttings between characters that do not make the buffer overflow handle the same messages:
      no accepted line comes after a refused one from which the rest of the stream is within
      the buffer's limit.  (After a refusal the splitter stops, but the next chunk resumes it.
      A line beyond the limit makes every cutting overflow.) */
  lemma ChunkingMattersExactly<M>(decode: Text -> Option<M>, buffer: Text, data: Text)
    requires NewlineIndex(buffer) == |buffer| && Fits(buffer) && WellFormed(data)
    ensures (forall a: seq<Text>, b: seq<Text> | Cuttings(decode, buffer, data, a, b) ::
               DrainAll(decode, buffer, a).handled == DrainAll(decode, buffer, b).handled)
            <==> !Late(decode, Any, buffer + data)
  {
    if Late(decode, Any, buffer + data) {
      var lines := Lines(buffer + data);
      var r, j :| LateAt(decode, Any<M>, buffer + data, r, j);
      var cut := LateMatters(decode, Any, buffer, data, r, j);
      ChunksConsume(decode, buffer, cut);
      ChunksConsume(decode, buffer, Characters(data));
      AcceptedGrows(decode, lines, r + 1, j);
      assert lines[..|lines|] == lines;
    } else {
      forall a: seq<Text>, b: seq<Text> | Cuttings(decode, buffer, data, a, b)
        ensures DrainAll(decode, buffer, a).handled == DrainAll(decode, buffer, b).handled
      {
        HandlesAll(decode, buffer, a);
        HandlesAll(decode, buffer, b);
      }
    }
  }

  /** In a stream within the buffer's limit, that is when an accepted line comes after a refused
      one at all. */
  lemma ShortLateExactly<M>(decode: Text -> Option<M>, t: Text)
    requires !Overflows(t)
    ensures Late(decode, Any, t) <==> !Clean(decode, Lines(t))
  {
    ShortFits(t);
    if !Clean(decode, Lines(t)) {
      var lines := Lines(t);
      var r: nat, j: nat :| r < j < |lines| && Accept(decode, lines[r]).None? && Accept(decode, lines[j]).Some?;
      SkipShorter(t, r);
      assert LateAt(decode, Any<M>, t, r, j);
    }
  }

  // ---------- overflow ----------

  /** Once the buffer has overflowed nothing is handled any more. */
  lemma {:induction false} OverflowIsForEver<M>(decode: Text -> Option<M>, buffer: Text, chunks: seq<Text>)
    requires Overflows(buffer)
    ensures DrainAll(decode, buffer, chunks).handled == []
    ensures Overflows(DrainAll(decode, buffer, chunks).rest)
    decreases |chunks|
  {
    if chunks != [] {
      PrefixShorter(buffer, chunks[0]);
      OverflowIsForEver(decode, buffer + chunks[0], chunks[1..]);
    }
  }

  /** All lines are accepted, and what follows the last is within the limit of a line. */
  ghost predicate Accepting<M>(decode: Text -> Option<M>, t: Text) {
    && (forall j :: 0 <= j < |Lines(t)| ==> Accept(decode, Lines(t)[j]).Some?)
    && ByteLength(Skip(t, |Lines(t)|)) <= MAX_LINE
  }

  /** What is gathered of such a line is within the limit too. */
  lemma PartialShort<M>(decode: Text -> Option<M>, buffer: Text, more: Text)
    requires NewlineIndex(buffer) == |buffer| && Accepting(decode, buffer + more)
    ensures ByteLength(buffer) <= MAX_LINE
  {
    var t := buffer + more;
    var i := NewlineIndex(t);
    IndexInConcat(buffer, more);
    if i < |t| {
      assert Lines(t)[0] == t[..i] == buffer + more[..i - |buffer|];
      PrefixShorter(buffer, more[..i - |buffer|]);
    } else {
      PrefixShorter(buffer, more);
    }
  }

  /** After a pass over accepted lines the buffer holds less than a line. */
  lemma AcceptingRest<M>(decode: Text -> Option<M>, filled: Text, more: Text)
    requires Accepting(decode, filled + more)
    ensures var rest := Drain(decode, filled).rest;
      NewlineIndex(rest) == |rest| && Accepting(decode, rest + more)
  {
    var k, lines := Consumed(decode, filled), Lines(filled + more);
    RestFollows(decode, filled, more);
    DrainConsumes(decode, filled);
    SkipOfConcat(filled, more, |Lines(filled)|);
    assert lines[..|Lines(filled)|] == Lines(filled);
    if k > 0 { assert lines[..|Lines(filled)|][k - 1] == lines[k - 1]; }
    LinesOfSkip(filled, k);
    SkipTwice(filled + more, k, |lines| - k);
  }

  /** Accepted lines, in chunks that are no larger than the limit of a line, never make the
      buffer overflow, which is as large as two lines. */
  lemma {:induction false} BoundedChunksFit<M>(decode: Text -> Option<M>, buffer: Text, chunks: seq<Text>)
    requires NewlineIndex(buffer) == |buffer| && Accepting(decode, buffer + Joined(chunks))
    requires forall i :: 0 <= i < |chunks| ==> ByteLength(chunks[i]) <= MAX_LINE
    ensures NoOverflow(decode, buffer, chunks)
    decreases |chunks|
  {
    if chunks != [] {
      JoinedFirst(buffer, chunks);
      assert buffer + chunks[0] + Joined(chunks[1..]) == buffer + (chunks[0] + Joined(chunks[1..]));
      PartialShort(decode, buffer, chunks[0] + Joined(chunks[1..]));
      ConcatAtMost(buffer, chunks[0]);
      AcceptingRest(decode, buffer + chunks[0], Joined(chunks[1..]));
      BoundedChunksFit(decode, Drain(decode, buffer + chunks[0]).rest, chunks[1..]);
    }
  }
}
