/** The whole bridge, in both directions. */
module BridgeChannel {
  import Framing
  import Json
  import opened Utf8
  import opened Wrappers
  import WorkerInput

  // Printer, UTF-8, chunks and line framing together: from the worker's printer to the host's
  // splitter, and from the host to the worker's reader.

  function Stream(side: Json.Side, values: seq<Json.Value>): Text {
    if values == [] then [] else Json.Write(side, values[0]) + [Framing.NEWLINE] + Stream(side, values[1..])
  }

  function Texts(side: Json.Side, values: seq<Json.Value>): seq<Text> {
    if values == [] then [] else [Json.Write(side, values[0])] + Texts(side, values[1..])
  }

  /** Every printed text is within the limit of a line, in bytes. */
  ghost predicate Printable(side: Json.Side, values: seq<Json.Value>) {
    forall i :: 0 <= i < |values| ==>
      Json.Sendable(values[i]) && ByteLength(Json.Write(side, values[i])) <= Framing.MAX_LINE
  }

  lemma {:induction false} NoNewlineInside(t: Text)
    requires Framing.NEWLINE !in t
    ensures Framing.NewlineIndex(t) == |t|
  {
    if t != [] { NoNewlineInside(t[1..]); }
  }

  lemma PrintedLine(side: Json.Side, v: Json.Value, rest: Text)
    requires Json.Sendable(v)
    ensures var t := Json.Write(side, v);
      && Framing.NewlineIndex(t + [Framing.NEWLINE] + rest) == |t|
      && Framing.Lines(t + [Framing.NEWLINE] + rest) == [t] + Framing.Lines(rest)
      && (WellFormed(rest) ==> WellFormed(t + [Framing.NEWLINE] + rest))
  {
    var t := Json.Write(side, v);
    Json.WrittenPlain(side, v);
    NoNewlineInside(t);
    Framing.NewlineFound(t, rest);
    Framing.SliceAround(t, Framing.NEWLINE, rest);
    Json.WithoutSurrogates([Framing.NEWLINE]);
    WellFormedConcat(t, [Framing.NEWLINE]);
    if WellFormed(rest) { WellFormedConcat(t + [Framing.NEWLINE], rest); }
  }

  /** The lines of the stream are exactly the printed texts, and UTF-8 loses nothing of it. */
  lemma {:induction false} StreamLines(side: Json.Side, values: seq<Json.Value>)
    requires forall i :: 0 <= i < |values| ==> Json.Sendable(values[i])
    ensures Framing.Lines(Stream(side, values)) == Texts(side, values)
    ensures Framing.Skip(Stream(side, values), |values|) == []
    ensures WellFormed(Stream(side, values))
  {
    if values != [] {
      StreamLines(side, values[1..]);
      PrintedLine(side, values[0], Stream(side, values[1..]));
      Framing.SliceAround(Json.Write(side, values[0]), Framing.NEWLINE, Stream(side, values[1..]));
    }
  }

  lemma {:induction false} TextsAre(side: Json.Side, values: seq<Json.Value>)
    ensures |Texts(side, values)| == |values|
    ensures forall i :: 0 <= i < |values| ==> Texts(side, values)[i] == Json.Write(side, values[i])
  {
    if values != [] { TextsAre(side, values[1..]); }
  }

  // ---------- from the worker to the host ----------

  /** The worker prints values, the host takes the bytes in pieces: whatever the pieces, as long
      as each is smaller than a line may be, the host's buffer never overflows, and a decoder
      that accepts the printed texts is given exactly these, each once and in order. */
  lemma TextsSurviveChunking<M>(decode: Text -> Option<M>, values: seq<Json.Value>, pieces: seq<Bytes>)
    requires Printable(Json.WorkerSide, values)
    requires Joined(pieces) == Encode(Stream(Json.WorkerSide, values))
    requires forall i :: 0 <= i < |pieces| ==> |pieces[i]| + 3 <= Framing.MAX_LINE
    requires forall i :: 0 <= i < |values| ==> decode(Json.Write(Json.WorkerSide, values[i])).Some?
    ensures var chunks := DecodeChunks([], pieces);
      && Framing.NoOverflow(decode, [], chunks)
      && var handled := Framing.DrainAll(decode, [], chunks).handled;
      && |handled| == |values|
      && forall i :: 0 <= i < |values| ==> Some(handled[i]) == decode(Json.Write(Json.WorkerSide, values[i]))
  {
    var stream, chunks := Stream(Json.WorkerSide, values), DecodeChunks([], pieces);
    StreamLines(Json.WorkerSide, values);
    assert [] + Joined(pieces) == Joined(pieces);
    ChunksDecode([], pieces, stream);
    TextsAccepted(decode, values);
    assert [] + stream == stream;
    Framing.BoundedChunksFit(decode, [], chunks);
    Framing.ChunkingIrrelevant(decode, chunks);
  }

  lemma {:induction false} AllAccepted<M>(decode: Text -> Option<M>, lines: seq<Text>)
    requires forall i :: 0 <= i < |lines| ==> Framing.Accept(decode, lines[i]).Some?
    ensures |Framing.Accepted(decode, lines)| == |lines|
    ensures forall i :: 0 <= i < |lines| ==> Some(Framing.Accepted(decode, lines)[i]) == decode(lines[i])
  {
    if lines != [] { AllAccepted(decode, lines[1..]); }
  }

  lemma TextsAccepted<M>(decode: Text -> Option<M>, values: seq<Json.Value>)
    requires Printable(Json.WorkerSide, values)
    requires forall i :: 0 <= i < |values| ==> decode(Json.Write(Json.WorkerSide, values[i])).Some?
    ensures var texts := Texts(Json.WorkerSide, values);
      && |texts| == |values| == |Framing.Accepted(decode, texts)|
      && forall i :: 0 <= i < |values| ==>
           Some(Framing.Accepted(decode, texts)[i]) == decode(Json.Write(Json.WorkerSide, values[i]))
    ensures Framing.Accepting(decode, Stream(Json.WorkerSide, values))
  {
    StreamLines(Json.WorkerSide, values);
    TextsAre(Json.WorkerSide, values);
    AllAccepted(decode, Texts(Json.WorkerSide, values));
  }

  // ---------- from the host to the worker ----------

  const MAX_EXACT := 0x20_0000_0000_0000

  /** The host's numbers are doubles, which are exact up to here. */
  ghost predicate Exact(v: Json.Value) {
    match v
    case Long(n) => -MAX_EXACT <= n <= MAX_EXACT
    case List(items) => forall i :: 0 <= i < |items| ==> Exact(items[i])
    case Map(entries) => forall i :: 0 <= i < |entries| ==> Exact(entries[i].value)
    case _ => true
  }

  /** A message as the host sends it: with its newline within the limit, in bytes. */
  ghost predicate Callable(v: Json.Value) {
    && Json.Sendable(v) && Exact(v)
    && ByteLength(Json.Write(Json.HostSide, v) + [Framing.NEWLINE]) <= Framing.MAX_LINE
  }

  lemma {:induction false} CallsShort(values: seq<Json.Value>)
    requires forall i :: 0 <= i < |values| ==> Callable(values[i])
    ensures !WorkerInput.TooLong(Stream(Json.HostSide, values))
  {
    if values != [] {
      var t, rest := Json.Write(Json.HostSide, values[0]), Stream(Json.HostSide, values[1..]);
      CallsShort(values[1..]);
      PrintedLine(Json.HostSide, values[0], rest);
      Framing.SliceAround(t, Framing.NEWLINE, rest);
      PrefixShorter(t, [Framing.NEWLINE]);
      UnitsAtMostBytes(t);
    }
  }

  /** Messages within the host's limit never exceed the worker's, which counts units instead of
      bytes: however the bytes are cut, the worker's loop does not give up, and its reader is
      given the values that were sent, in order. */
  lemma CallsArrive(values: seq<Json.Value>, pieces: seq<Bytes>)
    requires forall i :: 0 <= i < |values| ==> Callable(values[i])
    requires Joined(pieces) == Encode(Stream(Json.HostSide, values))
    ensures var input := WorkerInput.FedAll(WorkerInput.EMPTY, Joined(DecodeChunks([], pieces)));
      && !input.failed && |input.lines| == |values|
      && forall i :: 0 <= i < |values| ==> Json.ReadAll(input.lines[i]) == Some(values[i])
  {
    var stream := Stream(Json.HostSide, values);
    StreamLines(Json.HostSide, values);
    assert [] + Joined(pieces) == Joined(pieces);
    ChunksDecode([], pieces, stream);
    CallsShort(values);
    assert [] + stream == stream;
    WorkerInput.ReadsExactly(WorkerInput.EMPTY, stream);
    TextsAre(Json.HostSide, values);
    forall i | 0 <= i < |values| ensures Json.ReadAll(Texts(Json.HostSide, values)[i]) == Some(values[i]) {
      Json.RoundTrip(Json.HostSide, values[i]);
    }
  }
}
