/** The host's handle on a worker process. */
module WorkerTransport {
  import opened Collections
  import opened Wrappers
  import Framing
  import Json
  import opened Utf8

  // Pending calls, their timers and abort listeners, and the stream of messages from the worker.

  datatype Message = Event(payload: Json.Value) | Reply(id: nat, refused: bool, payload: Json.Value)

  type Decoder = Text -> Option<Message>

  datatype Reason = SpawnFailed | ProcessExited | WriteFailed | InvalidMessage | MessageLimit

  datatype Emission = FromWorker(payload: Json.Value) | WorkerFailed(reason: Reason)

  datatype How = ByReply(refused: bool) | ByTimeout | ByAbort | ByFailure

  datatype Settlement = Settlement(id: nat, how: How)

  /** `issued`, `settled` and `emitted` log what callers and the session see. */
  datatype Transport = Transport(
    buffer: Text, pending: seq<nat>, armed: set<nat>, listening: set<nat>,
    sequence: nat, dead: bool, issued: seq<nat>, settled: seq<Settlement>, emitted: seq<Emission>)

  const START := Transport([], [], {}, {}, 0, false, [], [], [])

  function Without(ids: seq<nat>, id: nat): seq<nat> {
    if ids == [] then []
    else if ids[0] == id then Without(ids[1..], id)
    else [ids[0]] + Without(ids[1..], id)
  }

  function Settle(t: Transport, id: nat, how: How): Transport {
    t.(pending := Without(t.pending, id), armed := t.armed - {id}, listening := t.listening - {id},
       settled := t.settled + [Settlement(id, how)])
  }

  function FailureRecords(ids: seq<nat>): seq<Settlement> {
    seq(|ids|, i requires 0 <= i < |ids| => Settlement(ids[i], ByFailure))
  }

  /** Every pending call settles by the failure, oldest first. */
  function SettleAll(t: Transport): Transport {
    t.(pending := [], armed := t.armed - Elements(t.pending), listening := t.listening - Elements(t.pending),
       settled := t.settled + FailureRecords(t.pending))
  }

  function Fail(t: Transport, reason: Reason): Transport {
    if t.dead then t
    else
      var t' := SettleAll(t.(dead := true));
      t'.(emitted := t'.emitted + [WorkerFailed(reason)])
  }

  function Handle(t: Transport, m: Message): Transport {
    match m
    case Event(payload) => t.(emitted := t.emitted + [FromWorker(payload)])
    case Reply(id, refused, _) => if id in t.pending then Settle(t, id, ByReply(refused)) else t
  }

  function RefusalReason(line: Text): Reason {
    if ByteLength(line) > Framing.MAX_LINE then MessageLimit else InvalidMessage
  }

  /** The lines of the buffer up to the first refused one. */
  function Drained(t: Transport, decode: Decoder): Transport
    decreases |t.buffer|
  {
    var i := Framing.NewlineIndex(t.buffer);
    if i == |t.buffer| then t
    else
      var t' := t.(buffer := t.buffer[i + 1..]);
      match Framing.Accept(decode, t.buffer[..i])
      case None => Fail(t', RefusalReason(t.buffer[..i]))
      case Some(m) =>
        Drained(Handle(t', m), decode)
  }

  function OnData(t: Transport, decode: Decoder, chunk: Text): Transport {
    var t' := t.(buffer := t.buffer + chunk);
    if Framing.Overflows(t'.buffer) then Fail(t', MessageLimit) else Drained(t', decode)
  }

  /** How far a call gets: refused before an identifier is drawn, refused for its size, or
      registered, after which writing it may still throw. */
  datatype CallPath = RefusedEarly | TooLarge | Registered(signal: bool, writeThrows: bool)

  function Called(t: Transport, path: CallPath): Transport {
    if t.dead || path.RefusedEarly? then t
    else
      var id := t.sequence + 1;
      var t1 := t.(sequence := id);
      if path.TooLarge? then t1
      else
        var t2 := t1.(pending := t.pending + [id], armed := t.armed + {id}, issued := t.issued + [id],
                      listening := if path.signal then t.listening + {id} else t.listening);
        if path.writeThrows then Fail(t2, WriteFailed) else t2
  }

  datatype Action =
    | Data(chunk: Text)
    | Call(path: CallPath)
    | TimerFires(id: nat)
    | Aborted(id: nat)
    | Broken(reason: Reason)

  predicate Enabled(t: Transport, a: Action) {
    match a
    case TimerFires(id) => id in t.armed
    case Aborted(id) => id in t.listening
    case _ => true
  }

  function Apply(t: Transport, decode: Decoder, a: Action): Transport
    requires Enabled(t, a)
  {
    match a
    case Data(chunk) => OnData(t, decode, chunk)
    case Call(path) => Called(t, path)
    case TimerFires(id) => Settle(t, id, ByTimeout)
    case Aborted(id) => Settle(t, id, ByAbort)
    case Broken(reason) => Fail(t, reason)
  }

  // ---------- exactly once ----------

  function Ids(s: seq<Settlement>): seq<nat> {
    seq(|s|, i requires 0 <= i < |s| => s[i].id)
  }

  predicate IsFailure(e: Emission) { e.WorkerFailed? }

  function Failures(s: seq<Emission>): nat {
    if s == [] then 0 else Failures(s[..|s| - 1]) + if IsFailure(s[|s| - 1]) then 1 else 0
  }

  /** Every issued call is either pending, with its timer armed, or settled once; the failure
      is announced once, and leaves nothing pending. */
  ghost predicate Inv(t: Transport) {
    && multiset(Ids(t.settled)) + multiset(t.pending) == multiset(t.issued)
    && Unique(t.issued)
    && (forall id :: id in t.issued ==> id <= t.sequence)
    && t.armed == Elements(t.pending) && t.listening <= t.armed
    && (t.dead ==> t.pending == [])
    && Failures(t.emitted) == if t.dead then 1 else 0
  }

  lemma {:induction false} WithoutCounts(ids: seq<nat>, id: nat)
    ensures multiset(Without(ids, id)) == multiset(ids)[id := 0]
  {
    if ids != [] {
      WithoutCounts(ids[1..], id);
      assert ids == [ids[0]] + ids[1..];
    }
  }

  lemma {:induction false} UniqueCounts(ids: seq<nat>, id: nat)
    requires Unique(ids)
    ensures multiset(ids)[id] <= 1
  {
    if ids != [] {
      UniqueCounts(ids[1..], id);
      assert ids == [ids[0]] + ids[1..];
    }
  }

  lemma IdsAppend(s: seq<Settlement>, more: seq<Settlement>)
    ensures Ids(s + more) == Ids(s) + Ids(more)
  {
  }

  /** Moving the one call `id` from the pending to the settled changes neither sum nor order. */
  lemma OneSettles(settled: seq<Settlement>, pending: seq<nat>, id: nat, how: How)
    requires multiset(pending)[id] == 1
    ensures multiset(Ids(settled + [Settlement(id, how)])) + multiset(Without(pending, id))
         == multiset(Ids(settled)) + multiset(pending)
    ensures Elements(Without(pending, id)) == Elements(pending) - {id}
  {
    WithoutCounts(pending, id);
    IdsAppend(settled, [Settlement(id, how)]);
    assert Ids([Settlement(id, how)]) == [id];
    assert forall x :: x in Without(pending, id) <==> x in multiset(Without(pending, id));
  }

  lemma SettleKeepsInv(t: Transport, id: nat, how: How)
    requires Inv(t) && id in t.pending
    ensures Inv(Settle(t, id, how))
  {
    UniqueCounts(t.issued, id);
    assert multiset(t.pending)[id] <= multiset(t.issued)[id];
    OneSettles(t.settled, t.pending, id, how);
  }

  lemma FailKeepsInv(t: Transport, reason: Reason)
    requires Inv(t)
    ensures Inv(Fail(t, reason))
  {
    if !t.dead {
      var t' := Fail(t, reason);
      IdsAppend(t.settled, FailureRecords(t.pending));
      assert Ids(FailureRecords(t.pending)) == t.pending;
      assert t'.emitted[..|t'.emitted| - 1] == t.emitted;
    }
  }

  lemma HandleKeepsInv(t: Transport, m: Message)
    requires Inv(t)
    ensures Inv(Handle(t, m))
  {
    match m
    case Event(payload) =>
      assert Handle(t, m).emitted[..|t.emitted|] == t.emitted;
    case Reply(id, refused, _) =>
      if id in t.pending { SettleKeepsInv(t, id, ByReply(refused)); }
  }

  lemma {:induction false} DrainedKeepsInv(t: Transport, decode: Decoder)
    requires Inv(t)
    ensures Inv(Drained(t, decode))
    decreases |t.buffer|
  {
    var i := Framing.NewlineIndex(t.buffer);
    if i < |t.buffer| {
      var t' := t.(buffer := t.buffer[i + 1..]);
      match Framing.Accept(decode, t.buffer[..i])
      case None => FailKeepsInv(t', RefusalReason(t.buffer[..i]));
      case Some(m) =>
        HandleKeepsInv(t', m);
        DrainedKeepsInv(Handle(t', m), decode);
    }
  }

  lemma UniqueAppend(ids: seq<nat>, id: nat)
    requires Unique(ids) && id !in ids
    ensures Unique(ids + [id])
  {
  }

  lemma OneRegisters(settled: seq<Settlement>, pending: seq<nat>, issued: seq<nat>, id: nat)
    requires multiset(Ids(settled)) + multiset(pending) == multiset(issued)
    ensures multiset(Ids(settled)) + multiset(pending + [id]) == multiset(issued + [id])
    ensures Elements(pending + [id]) == Elements(pending) + {id}
  {
    assert multiset(pending + [id]) == multiset(pending) + multiset{id};
    assert multiset(issued + [id]) == multiset(issued) + multiset{id};
  }

  lemma RegisteredKeepsInv(t: Transport, signal: bool)
    requires Inv(t) && !t.dead
    ensures Inv(Called(t, Registered(signal, false)))
  {
    var t', id := Called(t, Registered(signal, false)), t.sequence + 1;
    OneRegisters(t.settled, t.pending, t.issued, id);
    UniqueAppend(t.issued, id);
    assert t'.pending == t.pending + [id] && t'.issued == t.issued + [id] && t'.settled == t.settled;
    assert t'.armed == Elements(t'.pending);
    assert t'.listening <= t'.armed;
    assert forall x :: x in t'.issued ==> x in t.issued || x == id;
  }

  lemma CalledKeepsInv(t: Transport, path: CallPath)
    requires Inv(t)
    ensures Inv(Called(t, path))
  {
    if !t.dead && path.Registered? {
      var calm := Called(t, path.(writeThrows := false));
      RegisteredKeepsInv(t, path.signal);
      FailKeepsInv(calm, WriteFailed);
    }
  }

  lemma StepKeepsInv(t: Transport, decode: Decoder, a: Action)
    requires Inv(t) && Enabled(t, a)
    ensures Inv(Apply(t, decode, a))
  {
    match a
    case Data(chunk) =>
      FailKeepsInv(t.(buffer := t.buffer + chunk), MessageLimit);
      DrainedKeepsInv(t.(buffer := t.buffer + chunk), decode);
    case Call(path) => CalledKeepsInv(t, path);
    case TimerFires(id) => SettleKeepsInv(t, id, ByTimeout);
    case Aborted(id) => SettleKeepsInv(t, id, ByAbort);
    case Broken(reason) => FailKeepsInv(t, reason);
  }

  ghost predicate Legal(t: Transport, decode: Decoder, run: seq<Action>)
    decreases |run|
  {
    run == [] || (Enabled(t, run[0]) && Legal(Apply(t, decode, run[0]), decode, run[1..]))
  }

  function Final(t: Transport, decode: Decoder, run: seq<Action>): Transport
    requires Legal(t, decode, run)
    decreases |run|
  {
    if run == [] then t else Final(Apply(t, decode, run[0]), decode, run[1..])
  }

  lemma {:induction false} RunKeepsInv(t: Transport, decode: Decoder, run: seq<Action>)
    requires Inv(t) && Legal(t, decode, run)
    ensures Inv(Final(t, decode, run))
    decreases |run|
  {
    if run != [] {
      StepKeepsInv(t, decode, run[0]);
      RunKeepsInv(Apply(t, decode, run[0]), decode, run[1..]);
    }
  }

  /** In every run: no call settles twice, a call that has not settled is pending with its
      timer armed, and once dead nothing is pending and the failure was announced once. */
  lemma CallsSettleExactlyOnce(decode: Decoder, run: seq<Action>)
    requires Legal(START, decode, run)
    ensures var t := Final(START, decode, run);
      && (forall id :: id in t.issued ==>
            multiset(Ids(t.settled))[id] == if id in t.pending then 0 else 1)
      && (forall id :: id in t.pending ==> id in t.issued && id in t.armed)
      && (t.dead ==> t.pending == [] && t.armed == {} && t.listening == {})
      && Failures(t.emitted) == if t.dead then 1 else 0
  {
    RunKeepsInv(START, decode, run);
    var t := Final(START, decode, run);
    forall id | id in t.issued
      ensures multiset(Ids(t.settled))[id] == if id in t.pending then 0 else 1
    {
      UniqueCounts(t.issued, id);
      assert multiset(t.issued)[id] == multiset(Ids(t.settled))[id] + multiset(t.pending)[id];
    }
    forall id | id in t.pending ensures id in t.issued {
      assert id in multiset(t.issued);
    }
  }

  // ---------- the stream as lines ----------

  function AfterLine(t: Transport, decode: Decoder, line: Text): Transport {
    match Framing.Accept(decode, line)
    case None => Fail(t, RefusalReason(line))
    case Some(m) => Handle(t, m)
  }

  /** What handling the lines one after the other leads to. */
  function AfterLines(t: Transport, decode: Decoder, lines: seq<Text>): Transport
    decreases |lines|
  {
    if lines == [] then t else AfterLines(AfterLine(t, decode, lines[0]), decode, lines[1..])
  }

  function FedAll(t: Transport, decode: Decoder, chunks: seq<Text>): Transport
    decreases |chunks|
  {
    if chunks == [] then t else FedAll(OnData(t, decode, chunks[0]), decode, chunks[1..])
  }

  /** All of a transport but what is left in its buffer. */
  function Seen(t: Transport): Transport { t.(buffer := []) }

  lemma LineKeepsBuffer(t: Transport, decode: Decoder, line: Text, buffer: Text)
    ensures AfterLine(t.(buffer := buffer), decode, line) == AfterLine(t, decode, line).(buffer := buffer)
  {
  }

  lemma {:induction false} LinesKeepBuffer(t: Transport, decode: Decoder, lines: seq<Text>, buffer: Text)
    ensures AfterLines(t.(buffer := buffer), decode, lines) == AfterLines(t, decode, lines).(buffer := buffer)
    decreases |lines|
  {
    if lines != [] {
      LineKeepsBuffer(t, decode, lines[0], buffer);
      LinesKeepBuffer(AfterLine(t, decode, lines[0]), decode, lines[1..], buffer);
    }
  }

  lemma {:induction false} LinesInTwo(t: Transport, decode: Decoder, a: seq<Text>, b: seq<Text>)
    ensures AfterLines(t, decode, a + b) == AfterLines(AfterLines(t, decode, a), decode, b)
    decreases |a|
  {
    if a == [] {
      assert a + b == b;
    } else {
      assert (a + b)[1..] == a[1..] + b;
      LinesInTwo(AfterLine(t, decode, a[0]), decode, a[1..], b);
    }
  }

  /** A pass over the buffer handles exactly the lines the splitter consumes. */
  ghost predicate SplitsAlike(t: Transport, decode: Decoder) {
    var n := Framing.Consumed(decode, t.buffer);
    && n <= |Framing.Lines(t.buffer)|
    && Drained(t, decode)
       == AfterLines(t, decode, Framing.Lines(t.buffer)[..n]).(buffer := Framing.Drain(decode, t.buffer).rest)
  }

  lemma {:induction false} DrainedIsSplitter(t: Transport, decode: Decoder)
    ensures SplitsAlike(t, decode)
    decreases |t.buffer|
  {
    var i := Framing.NewlineIndex(t.buffer);
    if i < |t.buffer| {
      var line, rest := t.buffer[..i], t.buffer[i + 1..];
      if Framing.Accept(decode, line).Some? {
        DrainedIsSplitter(AfterLine(t, decode, line).(buffer := rest), decode);
        SplitsFirst(t, decode, line, rest);
      } else {
        LineKeepsBuffer(t, decode, line, rest);
        assert Framing.Lines(t.buffer)[..1] == [line];
      }
    }
  }

  lemma SplitsFirst(t: Transport, decode: Decoder, line: Text, rest: Text)
    requires Framing.NewlineIndex(t.buffer) < |t.buffer| && Framing.Accept(decode, line).Some?
    requires line == t.buffer[..Framing.NewlineIndex(t.buffer)]
    requires rest == t.buffer[Framing.NewlineIndex(t.buffer) + 1..]
    requires SplitsAlike(AfterLine(t, decode, line).(buffer := rest), decode)
    ensures SplitsAlike(t, decode)
  {
    var n, lines := Framing.Consumed(decode, rest), Framing.Lines(rest);
    DrainedFirst(t, decode);
    LineKeepsBuffer(t, decode, line, rest);
    Framing.PrefixWithFirst(line, lines, n + 1);
    assert ([line] + lines[..n])[1..] == lines[..n];
    LinesKeepBuffer(AfterLine(t, decode, line), decode, lines[..n], rest);
  }

  /** The first line of the buffer, then the rest. */
  lemma DrainedFirst(t: Transport, decode: Decoder)
    requires Framing.NewlineIndex(t.buffer) < |t.buffer|
    ensures var i := Framing.NewlineIndex(t.buffer);
      var line, t' := t.buffer[..i], t.(buffer := t.buffer[i + 1..]);
      Drained(t, decode) == match Framing.Accept(decode, line)
                            case None => Fail(t', RefusalReason(line))
                            case Some(m) => Drained(Handle(t', m), decode)
  {
  }

  /** What shows of `end` is what the first `n` lines of the stream lead to. */
  ghost predicate ShowsLines(t: Transport, decode: Decoder, data: Text, end: Transport, n: nat) {
    n <= |Framing.Lines(data)| && Seen(end) == AfterLines(Seen(t), decode, Framing.Lines(data)[..n])
  }

  /** Without overflow, what shows after any chunks is what the lines consumed so far lead to. */
  lemma {:induction false} FedIsLines(t: Transport, decode: Decoder, chunks: seq<Text>)
    requires Framing.NoOverflow(decode, t.buffer, chunks)
    ensures ShowsLines(t, decode, t.buffer + Joined(chunks), FedAll(t, decode, chunks),
                       Framing.ConsumedAll(decode, t.buffer, chunks))
    decreases |chunks|
  {
    if chunks == [] {
      assert Framing.Lines(t.buffer + Joined(chunks))[..0] == [];
    } else {
      var t1 := OnData(t, decode, chunks[0]);
      assert t1.buffer == Framing.Drain(decode, t.buffer + chunks[0]).rest by {
        FirstChunk(t, decode, chunks[0], Joined(chunks[1..]));
      }
      Framing.JoinedFirst(t.buffer, chunks);
      FedIsLines(t1, decode, chunks[1..]);
      ShowsFurther(t, decode, chunks[0], Joined(chunks[1..]), FedAll(t1, decode, chunks[1..]),
                   Framing.ConsumedAll(decode, t1.buffer, chunks[1..]));
    }
  }

  lemma ShowsFurther(t: Transport, decode: Decoder, chunk: Text, more: Text, end: Transport, m: nat)
    requires !Framing.Overflows(t.buffer + chunk)
    requires var t1 := OnData(t, decode, chunk); ShowsLines(t1, decode, t1.buffer + more, end, m)
    ensures ShowsLines(t, decode, t.buffer + chunk + more, end, Framing.Consumed(decode, t.buffer + chunk) + m)
  {
    FirstChunk(t, decode, chunk, more);
    var lines := Framing.Lines(t.buffer + chunk + more);
    LinesFurther(Seen(t), decode, lines, Framing.Consumed(decode, t.buffer + chunk), m);
  }

  lemma LinesFurther(t: Transport, decode: Decoder, lines: seq<Text>, k: nat, m: nat)
    requires k <= |lines| && m <= |lines[k..]|
    ensures AfterLines(t, decode, lines[..k + m])
         == AfterLines(AfterLines(t, decode, lines[..k]), decode, lines[k..][..m])
  {
    Framing.PrefixInTwo(lines, k, m);
    LinesInTwo(t, decode, lines[..k], lines[k..][..m]);
  }

  lemma FirstChunk(t: Transport, decode: Decoder, chunk: Text, more: Text)
    requires !Framing.Overflows(t.buffer + chunk)
    ensures var filled, t1 := t.buffer + chunk, OnData(t, decode, chunk);
      var k, lines := Framing.Consumed(decode, filled), Framing.Lines(filled + more);
      && k <= |lines| && Seen(t1) == AfterLines(Seen(t), decode, lines[..k])
      && t1.buffer == Framing.Drain(decode, filled).rest && Framing.Lines(t1.buffer + more) == lines[k..]
  {
    var filled := t.buffer + chunk;
    var k := Framing.Consumed(decode, filled);
    Framing.RestFollows(decode, filled, more);
    Framing.DrainConsumes(decode, filled);
    Framing.SkipOfConcat(filled, more, k);
    DrainedIsSplitter(t.(buffer := filled), decode);
    LinesKeepBuffer(Seen(t), decode, Framing.Lines(filled)[..k], filled);
    LinesKeepBuffer(Seen(t), decode, Framing.Lines(filled)[..k], []);
  }

  predicate IsEvent(m: Message) { m.Event? }

  /** Once dead with nothing pending, a line shows only if it is an event. */
  lemma {:induction false} UnseenLines(t: Transport, decode: Decoder, lines: seq<Text>)
    requires t.dead && t.pending == []
    requires forall j :: 0 <= j < |lines| && Framing.Accept(decode, lines[j]).Some? ==>
               !IsEvent(Framing.Accept(decode, lines[j]).value)
    ensures AfterLines(t, decode, lines) == t
    decreases |lines|
  {
    if lines != [] {
      assert AfterLine(t, decode, lines[0]) == t;
      UnseenLines(t, decode, lines[1..]);
    }
  }

  /** A refused line leaves the transport dead with nothing pending. */
  lemma {:induction false} RefusalKills(t: Transport, decode: Decoder, lines: seq<Text>, k: nat)
    requires t.dead ==> t.pending == []
    requires k < |lines| ==> Framing.Accept(decode, lines[k]).None?
    ensures var t' := AfterLines(t, decode, lines);
      (t'.dead ==> t'.pending == []) && (k < |lines| || t.dead ==> t'.dead)
    decreases |lines|
  {
    if lines != [] {
      RefusalKills(AfterLine(t, decode, lines[0]), decode, lines[1..], if k == 0 then |lines| else k - 1);
    }
  }

  lemma {:induction false} EventsShow(t: Transport, decode: Decoder, lines: seq<Text>)
    ensures |t.emitted| <= |AfterLines(t, decode, lines).emitted|
    ensures (exists j :: 0 <= j < |lines| && Framing.Accept(decode, lines[j]).Some?
                         && IsEvent(Framing.Accept(decode, lines[j]).value)) ==>
              |t.emitted| < |AfterLines(t, decode, lines).emitted|
    decreases |lines|
  {
    if lines != [] {
      EventsShow(AfterLine(t, decode, lines[0]), decode, lines[1..]);
      assert forall j :: 0 < j < |lines| ==> lines[1..][j - 1] == lines[j];
    }
  }

  /** If no event is late, every cutting without overflow shows what all lines lead to. */
  lemma ShowsAll(t: Transport, decode: Decoder, chunks: seq<Text>)
    requires !t.dead && Framing.NewlineIndex(t.buffer) == |t.buffer| && Framing.Fits(t.buffer)
    requires Framing.NoOverflow(decode, t.buffer, chunks)
    requires !Framing.Late(decode, IsEvent, t.buffer + Joined(chunks))
    ensures Seen(FedAll(t, decode, chunks))
         == AfterLines(Seen(t), decode, Framing.Lines(t.buffer + Joined(chunks)))
  {
    var lines, n := Framing.Lines(t.buffer + Joined(chunks)), Framing.ConsumedAll(decode, t.buffer, chunks);
    FedIsLines(t, decode, chunks);
    Framing.LeftoverUnseen(decode, IsEvent, t.buffer, chunks);
    LeftoverShowsNothing(Seen(t), decode, lines, n);
  }

  lemma LeftoverShowsNothing(t: Transport, decode: Decoder, lines: seq<Text>, n: nat)
    requires !t.dead && n <= |lines| && (n < |lines| ==> n > 0 && Framing.Accept(decode, lines[n - 1]).None?)
    requires forall j :: n <= j < |lines| && Framing.Accept(decode, lines[j]).Some? ==>
               !IsEvent(Framing.Accept(decode, lines[j]).value)
    ensures AfterLines(t, decode, lines[..n]) == AfterLines(t, decode, lines)
  {
    if n < |lines| {
      LinesInTwo(t, decode, lines[..n], lines[n..]);
      assert lines == lines[..n] + lines[n..];
      RefusalKills(t, decode, lines[..n], n - 1);
      UnseenLines(AfterLines(t, decode, lines[..n]), decode, lines[n..]);
    } else {
      assert lines[..n] == lines;
    }
  }

  /** From a live transport: all cuttings of a stream, between characters, that do not make the buffer
      overflow lead to the same emissions, settlements and pending calls, if and only if no
      event comes after a refused line from which on the rest of the stream is within the
      buffer's limit. */
  lemma CuttingShowsExactly(t: Transport, decode: Decoder, data: Text)
    requires !t.dead && Framing.NewlineIndex(t.buffer) == |t.buffer| && Framing.Fits(t.buffer)
    requires WellFormed(data)
    ensures (forall a: seq<Text>, b: seq<Text> | Framing.Cuttings(decode, t.buffer, data, a, b) ::
               Seen(FedAll(t, decode, a)) == Seen(FedAll(t, decode, b)))
            <==> !Framing.Late(decode, IsEvent, t.buffer + data)
  {
    if Framing.Late(decode, IsEvent, t.buffer + data) {
      var r, j :| Framing.LateAt(decode, IsEvent, t.buffer + data, r, j);
      LateShows(t, decode, data, r, j);
    } else {
      forall a: seq<Text>, b: seq<Text> | Framing.Cuttings(decode, t.buffer, data, a, b)
        ensures Seen(FedAll(t, decode, a)) == Seen(FedAll(t, decode, b))
      {
        ShowsAll(t, decode, a);
        ShowsAll(t, decode, b);
      }
    }
  }

  lemma LateShows(t: Transport, decode: Decoder, data: Text, r: nat, j: nat)
    requires Framing.NewlineIndex(t.buffer) == |t.buffer| && Framing.Fits(t.buffer + data)
    requires WellFormed(data)
    requires Framing.LateAt(decode, IsEvent, t.buffer + data, r, j)
    ensures exists a: seq<Text>, b: seq<Text> ::
              Framing.Cuttings(decode, t.buffer, data, a, b) && Seen(FedAll(t, decode, a)) != Seen(FedAll(t, decode, b))
  {
    var a := Framing.LateMatters(decode, IsEvent, t.buffer, data, r, j);
    CutsDiffer(t, decode, data, a, Characters(data), r + 1, j);
  }

  /** One cutting consumes the first `n` lines, another all of them, and an event is between. */
  lemma CutsDiffer(t: Transport, decode: Decoder, data: Text, a: seq<Text>, b: seq<Text>, n: nat, j: nat)
    requires Framing.Cuttings(decode, t.buffer, data, a, b)
    requires Framing.ConsumedAll(decode, t.buffer, a) == n
    requires var lines := Framing.Lines(t.buffer + data);
      && Framing.ConsumedAll(decode, t.buffer, b) == |lines| && n <= j < |lines|
      && Framing.Accept(decode, lines[j]).Some? && IsEvent(Framing.Accept(decode, lines[j]).value)
    ensures Seen(FedAll(t, decode, a)) != Seen(FedAll(t, decode, b))
  {
    var lines := Framing.Lines(t.buffer + data);
    FedIsLines(t, decode, a);
    FedIsLines(t, decode, b);
    assert lines[..|lines|] == lines;
    EventShowsLater(Seen(t), decode, lines, n, j);
  }

  /** An event among the lines behind the first `n` shows. */
  lemma EventShowsLater(t: Transport, decode: Decoder, lines: seq<Text>, n: nat, j: nat)
    requires n <= j < |lines| && Framing.Accept(decode, lines[j]).Some?
    requires IsEvent(Framing.Accept(decode, lines[j]).value)
    ensures AfterLines(t, decode, lines[..n]) != AfterLines(t, decode, lines)
  {
    assert lines == lines[..n] + lines[n..];
    LinesInTwo(t, decode, lines[..n], lines[n..]);
    assert lines[n..][j - n] == lines[j];
    EventsShow(AfterLines(t, decode, lines[..n]), decode, lines[n..]);
  }

  // ---------- the buffer of a live transport ----------

  /** A live transport has less than a line in its buffer, within the limit. */
  predicate Partial(t: Transport) {
    !t.dead ==> Framing.NewlineIndex(t.buffer) == |t.buffer| && !Framing.Overflows(t.buffer)
  }

  lemma {:induction false} DrainedPartial(t: Transport, decode: Decoder)
    requires !Framing.Overflows(t.buffer)
    ensures Partial(Drained(t, decode)) && (t.dead ==> Drained(t, decode).dead)
    decreases |t.buffer|
  {
    var i := Framing.NewlineIndex(t.buffer);
    if i < |t.buffer| && Framing.Accept(decode, t.buffer[..i]).Some? {
      assert t.buffer == t.buffer[..i + 1] + t.buffer[i + 1..];
      SuffixShorter(t.buffer[..i + 1], t.buffer[i + 1..]);
      DrainedPartial(AfterLine(t.(buffer := t.buffer[i + 1..]), decode, t.buffer[..i]), decode);
    }
  }

  lemma StepKeepsPartial(t: Transport, decode: Decoder, a: Action)
    requires Partial(t) && Enabled(t, a)
    ensures Partial(Apply(t, decode, a))
  {
    match a
    case Data(chunk) =>
      if !Framing.Overflows(t.buffer + chunk) { DrainedPartial(t.(buffer := t.buffer + chunk), decode); }
    case _ =>
  }

  lemma {:induction false} RunKeepsPartial(t: Transport, decode: Decoder, run: seq<Action>)
    requires Partial(t) && Legal(t, decode, run)
    ensures Partial(Final(t, decode, run))
    decreases |run|
  {
    if run != [] {
      StepKeepsPartial(t, decode, run[0]);
      RunKeepsPartial(Apply(t, decode, run[0]), decode, run[1..]);
    }
  }

  /** After every run that leaves the transport live: when the cutting of what comes next shows. */
  lemma StreamShowsExactly(decode: Decoder, run: seq<Action>, data: Text)
    requires Legal(START, decode, run) && !Final(START, decode, run).dead && WellFormed(data)
    ensures var t := Final(START, decode, run);
      (forall a: seq<Text>, b: seq<Text> | Framing.Cuttings(decode, t.buffer, data, a, b) ::
         Seen(FedAll(t, decode, a)) == Seen(FedAll(t, decode, b)))
      <==> !Framing.Late(decode, IsEvent, t.buffer + data)
  {
    var t := Final(START, decode, run);
    RunKeepsPartial(START, decode, run);
    Framing.ShortFits(t.buffer);
    CuttingShowsExactly(t, decode, data);
  }

  // ---------- overflow ----------

  /** A dead transport whose buffer has overflowed shows nothing any more. */
  lemma {:induction false} OverflownIsSilent(t: Transport, decode: Decoder, chunks: seq<Text>)
    requires t.dead && Framing.Overflows(t.buffer)
    ensures Seen(FedAll(t, decode, chunks)) == Seen(t)
    decreases |chunks|
  {
    if chunks != [] {
      PrefixShorter(t.buffer, chunks[0]);
      OverflownIsSilent(OnData(t, decode, chunks[0]), decode, chunks[1..]);
    }
  }

  /** Any chunks at all: those before the first that makes the buffer overflow are handled, and
      that one is a failure by the message limit after which nothing shows. */
  lemma {:induction false} OverflowCutsOff(t: Transport, decode: Decoder, chunks: seq<Text>) returns (k: nat)
    ensures k <= |chunks| && Framing.NoOverflow(decode, t.buffer, chunks[..k])
    ensures var front := FedAll(t, decode, chunks[..k]);
      if k == |chunks| then FedAll(t, decode, chunks) == front
      else Framing.Overflows(front.buffer + chunks[k])
           && Seen(FedAll(t, decode, chunks)) == Seen(Fail(front, MessageLimit))
    decreases |chunks|
  {
    if chunks == [] { return 0; }
    var t1 := OnData(t, decode, chunks[0]);
    if Framing.Overflows(t.buffer + chunks[0]) {
      OverflownIsSilent(t1, decode, chunks[1..]);
      assert chunks[..0] == [];
      return 0;
    }
    FirstChunk(t, decode, chunks[0], []);
    k := OverflowCutsOff(t1, decode, chunks[1..]);
    assert chunks[..k + 1][0] == chunks[0] && chunks[..k + 1][1..] == chunks[1..][..k];
    k := k + 1;
  }

  // ---------- why a call settles ----------

  /** How a line settles the pending call `id`: by being refused, or as a reply with this number. */
  function LineFate(decode: Decoder, line: Text, id: nat): Option<How> {
    match Framing.Accept(decode, line)
    case None => Some(ByFailure)
    case Some(m) => if m.Reply? && m.id == id then Some(ByReply(m.refused)) else None
  }

  /** The first line that settles the call decides. */
  function LinesFate(decode: Decoder, lines: seq<Text>, id: nat): Option<How> {
    if lines == [] then None
    else if LineFate(decode, lines[0], id).Some? then LineFate(decode, lines[0], id)
    else LinesFate(decode, lines[1..], id)
  }

  /** How a step settles the call `id`, which is pending before it. */
  function Fate(t: Transport, decode: Decoder, a: Action, id: nat): Option<How> {
    match a
    case Data(chunk) =>
      var filled := t.buffer + chunk;
      if Framing.Overflows(filled) then Some(ByFailure) else LinesFate(decode, Framing.Lines(filled), id)
    case Call(path) => if path.Registered? && path.writeThrows then Some(ByFailure) else None
    case TimerFires(i) => if i == id then Some(ByTimeout) else None
    case Aborted(i) => if i == id then Some(ByAbort) else None
    case Broken(_) => Some(ByFailure)
  }

  /** The step is a call that cannot be written. */
  predicate Unwritten(t: Transport, a: Action) {
    a.Call? && !t.dead && a.path.Registered? && a.path.writeThrows
  }

  /** The step settles a pending call as `x` says, or the call it makes itself. */
  predicate Causes(t: Transport, decode: Decoder, a: Action, x: Settlement) {
    || (x.id in t.pending && Fate(t, decode, a, x.id) == Some(x.how))
    || (Unwritten(t, a) && x == Settlement(t.sequence + 1, ByFailure))
  }

  /** `t'` has the settlements of `t` and those that `fate` gives its pending calls, which are no
      longer pending. */
  ghost predicate Settles(t: Transport, t': Transport, fate: nat -> Option<How>) {
    && (forall x :: x in t'.settled <==> x in t.settled || (x.id in t.pending && fate(x.id) == Some(x.how)))
    && (forall id :: id in t'.pending <==> id in t.pending && fate(id).None?)
  }

  lemma {:induction false} WithoutExactly(ids: seq<nat>, id: nat)
    ensures forall x :: x in Without(ids, id) <==> x in ids && x != id
  {
    if ids != [] { WithoutExactly(ids[1..], id); }
  }

  lemma OneSettled(t: Transport, id: nat, how: How)
    requires id in t.pending
    ensures Settles(t, Settle(t, id, how), i => if i == id then Some(how) else None)
  {
    WithoutExactly(t.pending, id);
  }

  lemma RecordsExactly(ids: seq<nat>)
    ensures forall x :: x in FailureRecords(ids) <==> x.id in ids && x.how == ByFailure
  {
    forall x: Settlement | x.id in ids && x.how == ByFailure ensures x in FailureRecords(ids) {
      var i :| 0 <= i < |ids| && ids[i] == x.id;
      assert FailureRecords(ids)[i] == x;
    }
  }

  lemma AllFail(t: Transport, reason: Reason)
    requires t.dead ==> t.pending == []
    ensures Settles(t, Fail(t, reason), _ => Some(ByFailure)) && Fail(t, reason).dead
  {
    RecordsExactly(t.pending);
  }

  lemma LineSettles(t: Transport, decode: Decoder, line: Text)
    requires t.dead ==> t.pending == []
    ensures var t' := AfterLine(t, decode, line);
      Settles(t, t', (id: nat) => LineFate(decode, line, id)) && (t'.dead ==> t'.pending == [])
  {
    match Framing.Accept(decode, line)
    case None => AllFail(t, RefusalReason(line));
    case Some(m) => if m.Reply? && m.id in t.pending { OneSettled(t, m.id, ByReply(m.refused)); }
  }

  lemma {:induction false} LinesSettle(t: Transport, decode: Decoder, lines: seq<Text>)
    requires t.dead ==> t.pending == []
    ensures Settles(t, AfterLines(t, decode, lines), (id: nat) => LinesFate(decode, lines, id))
    decreases |lines|
  {
    if lines != [] {
      LineSettles(t, decode, lines[0]);
      LinesSettle(AfterLine(t, decode, lines[0]), decode, lines[1..]);
    }
  }

  /** What follows the first refused line decides nothing. */
  lemma {:induction false} FateInFront(decode: Decoder, lines: seq<Text>, n: nat, id: nat)
    requires n <= |lines| && (n < |lines| ==> n > 0 && Framing.Accept(decode, lines[n - 1]).None?)
    ensures LinesFate(decode, lines[..n], id) == LinesFate(decode, lines, id)
    decreases n
  {
    if n == |lines| {
      assert lines[..n] == lines;
    } else if n > 1 {
      assert lines[..n][1..] == lines[1..][..n - 1];
      FateInFront(decode, lines[1..], n - 1, id);
    }
  }

  lemma DataSettles(t: Transport, decode: Decoder, chunk: Text)
    requires t.dead ==> t.pending == []
    ensures Settles(t, OnData(t, decode, chunk), (id: nat) => Fate(t, decode, Data(chunk), id))
  {
    var t1 := t.(buffer := t.buffer + chunk);
    if Framing.Overflows(t1.buffer) {
      AllFail(t1, MessageLimit);
    } else {
      var n := Framing.Consumed(decode, t1.buffer);
      DrainedIsSplitter(t1, decode);
      Framing.DrainConsumes(decode, t1.buffer);
      LinesSettle(t1, decode, Framing.Lines(t1.buffer)[..n]);
      forall id ensures LinesFate(decode, Framing.Lines(t1.buffer)[..n], id) == Fate(t, decode, Data(chunk), id) {
        FateInFront(decode, Framing.Lines(t1.buffer), n, id);
      }
    }
  }

  lemma CallSettles(t: Transport, decode: Decoder, path: CallPath)
    requires t.dead ==> t.pending == []
    ensures forall x :: x in Called(t, path).settled <==> x in t.settled || Causes(t, decode, Call(path), x)
  {
    if !t.dead && path.Registered? && path.writeThrows {
      var calm := Called(t, path.(writeThrows := false));
      assert calm.pending == t.pending + [t.sequence + 1];
      AllFail(calm, WriteFailed);
    }
  }

  /** A step adds exactly the settlements it causes. */
  lemma StepSettlesExactly(t: Transport, decode: Decoder, a: Action)
    requires Inv(t) && Enabled(t, a)
    ensures forall x :: x in Apply(t, decode, a).settled <==> x in t.settled || Causes(t, decode, a, x)
  {
    match a
    case Data(chunk) => DataSettles(t, decode, chunk);
    case Call(path) => CallSettles(t, decode, path);
    case TimerFires(id) => OneSettled(t, id, ByTimeout);
    case Aborted(id) => OneSettled(t, id, ByAbort);
    case Broken(reason) => AllFail(t, reason);
  }

  lemma {:induction false} FailedLineKills(t: Transport, decode: Decoder, lines: seq<Text>, id: nat)
    requires t.dead ==> t.pending == []
    requires LinesFate(decode, lines, id) == Some(ByFailure)
    ensures AfterLines(t, decode, lines).dead
    decreases |lines|
  {
    var t1 := AfterLine(t, decode, lines[0]);
    LineSettles(t, decode, lines[0]);
    if LineFate(decode, lines[0], id).Some? {
      RefusalKills(t1, decode, lines[1..], |lines|);
    } else {
      FailedLineKills(t1, decode, lines[1..], id);
    }
  }

  /** Calls settle by failure in the one step in which the transport dies. */
  lemma FailureIsDeath(t: Transport, decode: Decoder, a: Action, x: Settlement)
    requires Inv(t) && Enabled(t, a) && Causes(t, decode, a, x) && x.how == ByFailure
    ensures !t.dead && Apply(t, decode, a).dead
  {
    if a.Data? && !Framing.Overflows(t.buffer + a.chunk) {
      var t1 := t.(buffer := t.buffer + a.chunk);
      var lines, n := Framing.Lines(t1.buffer), Framing.Consumed(decode, t1.buffer);
      DrainedIsSplitter(t1, decode);
      Framing.DrainConsumes(decode, t1.buffer);
      FateInFront(decode, lines, n, x.id);
      FailedLineKills(t1, decode, lines[..n], x.id);
    }
  }

  /** Some step of the run settles a call as `x` says. */
  ghost predicate CausedIn(t: Transport, decode: Decoder, run: seq<Action>, x: Settlement)
    requires Legal(t, decode, run)
    decreases |run|
  {
    run != [] && (Causes(t, decode, run[0], x) || CausedIn(Apply(t, decode, run[0]), decode, run[1..], x))
  }

  lemma {:induction false} RunSettlesExactly(t: Transport, decode: Decoder, run: seq<Action>)
    requires Inv(t) && Legal(t, decode, run)
    ensures forall x :: x in Final(t, decode, run).settled <==> x in t.settled || CausedIn(t, decode, run, x)
    decreases |run|
  {
    if run != [] {
      StepSettlesExactly(t, decode, run[0]);
      StepKeepsInv(t, decode, run[0]);
      RunSettlesExactly(Apply(t, decode, run[0]), decode, run[1..]);
    }
  }

  /** In every run the settlements are exactly those with a cause: while the call was pending,
      the first line of a chunk that was refused or carried its own reply, a buffer that
      overflowed, its own timer, its own abort, or the failure of the transport. */
  lemma SettledByItsCause(decode: Decoder, run: seq<Action>, x: Settlement)
    requires Legal(START, decode, run)
    ensures x in Final(START, decode, run).settled <==> CausedIn(START, decode, run, x)
  {
    RunSettlesExactly(START, decode, run);
  }

  // ---------- the transport object ----------

  class DebuggerProcess {
    const decode: Decoder
    var buffer: Text
    var pending: seq<nat>
    var armed: set<nat>
    var listening: set<nat>
    var sequence: nat
    var dead: bool
    var issued: seq<nat>
    var settled: seq<Settlement>
    var emitted: seq<Emission>

    function View(): Transport reads this {
      Transport(buffer, pending, armed, listening, sequence, dead, issued, settled, emitted)
    }

    constructor (decode: Decoder)
      ensures View() == START && this.decode == decode
    {
      this.decode := decode;
      buffer, pending, armed, listening, sequence, dead := [], [], {}, {}, 0, false;
      issued, settled, emitted := [], [], [];
    }

    method Close(id: nat, how: How)
      modifies this
      ensures View() == Settle(old(View()), id, how)
    {
      pending := Without(pending, id);
      armed := armed - {id};
      listening := listening - {id};
      settled := settled + [Settlement(id, how)];
    }

    method Break(reason: Reason)
      modifies this
      ensures View() == Fail(old(View()), reason)
    {
      if dead { return; }
      dead := true;
      var i := 0;
      while i < |pending|
        invariant 0 <= i <= |pending|
        invariant armed == old(armed) - Elements(pending[..i])
        invariant listening == old(listening) - Elements(pending[..i])
        invariant settled == old(settled) + FailureRecords(pending[..i])
        invariant View() == old(View()).(dead := true, armed := armed, listening := listening, settled := settled)
      {
        assert pending[..i + 1] == pending[..i] + [pending[i]];
        armed := armed - {pending[i]};
        listening := listening - {pending[i]};
        settled := settled + [Settlement(pending[i], ByFailure)];
        i := i + 1;
      }
      assert pending[..i] == pending;
      pending := [];
      emitted := emitted + [WorkerFailed(reason)];
    }

    method Receive(m: Message)
      modifies this
      ensures View() == Handle(old(View()), m)
    {
      match m
      case Event(payload) => emitted := emitted + [FromWorker(payload)];
      case Reply(id, refused, _) =>
        if id in pending { Close(id, ByReply(refused)); }
    }

    method TakeChunk(chunk: Text)
      modifies this
      ensures View() == OnData(old(View()), decode, chunk)
    {
      buffer := buffer + chunk;
      if Framing.Overflows(buffer) {
        Break(MessageLimit);
        return;
      }
      ghost var goal := Drained(View(), decode);
      var end := Framing.NewlineIndex(buffer);
      while end < |buffer|
        invariant end == Framing.NewlineIndex(buffer)
        invariant Drained(View(), decode) == goal
        decreases |buffer|
      {
        DrainedFirst(View(), decode);
        var line := buffer[..end];
        buffer := buffer[end + 1..];
        var m := Framing.Accept(decode, line);
        if m.None? {
          Break(RefusalReason(line));
          return;
        }
        Receive(m.value);
        end := Framing.NewlineIndex(buffer);
      }
    }

    /** `id` is the number of the registered call. */
    method Call(path: CallPath) returns (id: Option<nat>)
      modifies this
      ensures View() == Called(old(View()), path)
      ensures id.Some? <==> !old(dead) && path.Registered?
      ensures id.Some? ==> id.value == sequence && issued == old(issued) + [id.value]
    {
      if dead || path.RefusedEarly? { return None; }
      sequence := sequence + 1;
      if path.TooLarge? { return None; }
      id := Some(sequence);
      pending := pending + [sequence];
      armed := armed + {sequence};
      issued := issued + [sequence];
      if path.signal { listening := listening + {sequence}; }
      if path.writeThrows { Break(WriteFailed); }
    }
  }
}
