/** A debugger session, its JDI worker and the two FIFO pipes between them. */
module DebuggerProtocol {
  import opened Wrappers
  import J = JdiWorker
  import H = HostSession

  datatype Request = Request(id: nat, call: J.Command)

  datatype Packet = EventPacket(message: J.Message) | ReplyPacket(id: nat, reply: J.Reply)

  /** The worker call the running task awaits; once settled, the task continues later. */
  datatype Call = Call(id: nat, settled: Option<H.Outcome>)

  /** A refused command's reply: the worker sends it after it has let go of its lock. */
  datatype Unsent = Unsent(id: nat, code: J.Code)

  datatype System = System(
    host: H.Host, worker: J.Worker, toWorker: seq<Request>, toHost: seq<Packet>, unsent: Option<Unsent>,
    call: Option<Call>, nextId: nat, dead: bool)

  const INIT := System(H.NEW, J.START, [], [], None, None, 1, false)

  function CallOf(c: H.Command): J.Command {
    if c.StopCommand? then c.call else J.Plain
  }

  /** The worker call awaited at this point of a task. */
  function Awaited(r: H.Run): Option<J.Command> {
    match r
    case CommandRun(c, _) => Some(CallOf(c))
    case AttachRun(stage) => if stage == H.Calling then Some(J.Attach) else None
    case CleanRun(at, _, _) => if at == H.RequestingDetach then Some(J.Detach) else None
    case Idle => None
  }

  function OutcomeOf(reply: J.Reply): H.Outcome {
    match reply
    case Done => H.Replied
    case Failed(code) => H.Rejected(code)
  }

  /** The ways a call is refused before anything is written to the pipe. */
  predicate LocalRefusal(o: H.Outcome) {
    o in {H.TimedOut, H.Cancelled, H.Rejected(J.InvalidArgument), H.Rejected(J.WorkerFailed)}
  }

  /** The host task moved on to `host`; if it now awaits a call, the call is issued, or
      refused on the spot (always so once the transport is dead). */
  function Moved(s: System, host: H.Host, refusal: Option<H.Outcome>): System {
    var awaited := Awaited(host.run);
    if awaited.None? then s.(host := host, call := None)
    else
      var refused := if s.dead then Some(H.Rejected(J.WorkerFailed)) else refusal;
      s.(host := host, call := Some(Call(s.nextId, refused)), nextId := s.nextId + 1,
         toWorker := if refused.None? then s.toWorker + [Request(s.nextId, awaited.value)] else s.toWorker)
  }

  function EventOf(m: J.Message): H.Event {
    match m
    case Stopped(y) => H.Stopped(y)
    case Terminated(reason) => H.Terminated(reason)
  }

  function Packets(messages: seq<J.Message>): seq<Packet> {
    seq(|messages|, i requires 0 <= i < |messages| => EventPacket(messages[i]))
  }

  datatype Action =
    | TaskStarts(refusal: Option<H.Outcome>)
    | TaskContinues(attach: H.StageOutcome, ok: bool, refusal: Option<H.Outcome>)
    | HostRequests(command: H.Command)
    | HostTimerFires
    | HostShutsDown
    | HostReceives(now: int)
    | CallExpires(cancelled: bool)
    | TransportDies(now: int)
    | Heartbeat                                    // sent beside the serial queue
    | WorkerExecutes(native: J.Native)
    | WorkerRefuses                                // sends the reply of a refused command
    | WorkerTakes(eventSet: J.EventSet)
    | WorkerCloses(reason: J.Reason)

  predicate RefusalLegal(r: Option<H.Outcome>) { r.Some? ==> LocalRefusal(r.value) }

  predicate Enabled(s: System, a: Action) {
    match a
    case TaskStarts(refusal) => s.host.run.Idle? && s.host.queue != [] && RefusalLegal(refusal)
    case TaskContinues(attach, _, refusal) =>
      && !s.host.run.Idle? && RefusalLegal(refusal)
      && (Awaited(s.host.run).Some? ==>
            && s.call.Some? && s.call.value.settled.Some?
            && (s.host.run.AttachRun? ==> (attach.Good? <==> s.call.value.settled.value.Replied?)))
    case HostTimerFires => s.host.timer
    case HostReceives(_) => s.toHost != []
    case CallExpires(_) => s.call.Some? && s.call.value.settled.None?
    case TransportDies(_) => !s.dead
    case WorkerExecutes(_) => s.toWorker != [] && s.unsent.None?
    case WorkerRefuses => s.unsent.Some?
    case WorkerTakes(_) => s.worker.attached && !s.worker.closed
    case _ => true
  }

  function Continued(s: System, attach: H.StageOutcome, ok: bool): H.Host
    requires !s.host.run.Idle?
    requires s.host.run.CommandRun? ==> s.call.Some? && s.call.value.settled.Some?
  {
    match s.host.run
    case AttachRun(_) => H.AttachStep(s.host, H.Android, attach)
    case CleanRun(_, _, _) => H.CleanupStep(s.host, ok)
    case CommandRun(_, _) => H.EndCommand(s.host, s.call.value.settled.value)
  }

  function Settled(call: Option<Call>, id: nat, o: H.Outcome): Option<Call> {
    if call == Some(Call(id, None)) then Some(Call(id, Some(o))) else call
  }

  function Received(s: System, now: int): System
    requires s.toHost != []
  {
    var s' := s.(toHost := s.toHost[1..]);
    match s.toHost[0]
    case EventPacket(m) => s'.(host := H.OnEvent(s.host, EventOf(m), now))
    case ReplyPacket(id, reply) => s'.(call := Settled(s.call, id, OutcomeOf(reply)))
  }

  /** A command and its result are sent under the lock, an error only after it. */
  function Executed(s: System, native: J.Native): System
    requires s.toWorker != []
  {
    var Request(id, call) := s.toWorker[0];
    var (worker, messages, reply) := J.OnCommand(s.worker, call, native);
    var s' := s.(worker := worker, toWorker := s.toWorker[1..]);
    match reply
    case Done => s'.(toHost := s.toHost + (Packets(messages) + [ReplyPacket(id, reply)]))
    case Failed(code) => s'.(toHost := s.toHost + Packets(messages), unsent := Some(Unsent(id, code)))
  }

  function Refused(s: System): System
    requires s.unsent.Some?
  {
    var Unsent(id, code) := s.unsent.value;
    s.(toHost := s.toHost + [ReplyPacket(id, J.Failed(code))], unsent := None)
  }

  function Apply(s: System, a: Action): System
    requires Enabled(s, a)
  {
    match a
    case TaskStarts(refusal) => Moved(s, H.StartTask(s.host), refusal)
    case TaskContinues(attach, ok, refusal) => Moved(s, Continued(s, attach, ok), refusal)
    case HostRequests(c) => s.(host := H.Queued(s.host, H.CommandTask(c)))
    case HostTimerFires => s.(host := H.Queued(s.host, H.CleanupTask(true)))
    case HostShutsDown =>
      if s.host.cleanup != H.Complete then s.(host := H.Queued(s.host, H.CleanupTask(true))) else s
    case HostReceives(now) => Received(s, now)
    case CallExpires(cancelled) =>
      s.(call := Some(Call(s.call.value.id, Some(if cancelled then H.Cancelled else H.TimedOut))))
    case TransportDies(now) =>
      s.(dead := true, host := H.OnEvent(s.host, H.WorkerFailed, now),
         call := if s.call.Some? then Settled(s.call, s.call.value.id, H.Rejected(J.WorkerFailed)) else None)
    case Heartbeat => s.(toWorker := s.toWorker + [Request(s.nextId, J.Plain)], nextId := s.nextId + 1)
    case WorkerExecutes(native) => Executed(s, native)
    case WorkerRefuses => Refused(s)
    case WorkerTakes(e) =>
      var (worker, messages) := J.OnEventSet(s.worker, e);
      s.(worker := worker, toHost := s.toHost + Packets(messages))
    case WorkerCloses(reason) =>
      s.(worker := J.Finished(s.worker), toHost := s.toHost + Packets(J.FinishMessages(s.worker, reason)))
  }

  // ---------- what every step keeps ----------

  /** Identifiers are fresh, a task awaits a call exactly when one is recorded, and the
      request with its identifier is the awaited one. */
  ghost predicate CallsMatch(s: System) {
    && (s.call.Some? <==> Awaited(s.host.run).Some?)
    && (s.call.Some? ==> s.call.value.id < s.nextId)
    && (forall r :: r in s.toWorker ==> r.id < s.nextId)
    && (forall p :: p in s.toHost && p.ReplyPacket? ==> p.id < s.nextId)
    && (s.unsent.Some? ==> s.unsent.value.id < s.nextId)
    && (s.call.Some? ==>
          forall r :: r in s.toWorker && r.id == s.call.value.id ==> Some(r.call) == Awaited(s.host.run))
  }

  predicate IsStop(p: Packet) { p.EventPacket? && p.message.Stopped? }

  /** Stops reach the host in the order of their epochs: what the host knows, then what is in
      the pipe, then the worker's newest epoch. */
  ghost predicate StopsOrdered(h: H.Host, toHost: seq<Packet>, epochs: nat) {
    && (forall i :: 0 <= i < |toHost| && IsStop(toHost[i]) ==>
          toHost[i].message.stop <= epochs && KnownUpTo(h, toHost[i].message.stop))
    && (forall i, j :: 0 <= i < j < |toHost| && IsStop(toHost[i]) && IsStop(toHost[j]) ==>
          toHost[i].message.stop <= toHost[j].message.stop)
    && KnownUpTo(h, epochs)
  }

  /** No epoch the host has recorded is newer than `y`. */
  predicate KnownUpTo(h: H.Host, y: nat) {
    && (h.stop.Some? ==> h.stop.value <= y)
    && (h.run.CommandRun? && h.run.previous.stop.Some? ==> h.run.previous.stop.value <= y)
  }

  ghost predicate TerminationAnnounced(s: System) {
    forall p :: p in s.toHost && p.EventPacket? && p.message.Terminated? ==> s.worker.closed
  }

  /** The session is not being torn down. */
  predicate Live(s: System) {
    !s.dead && s.host.cleanup == H.Pending && !s.host.run.CleanRun?
  }

  predicate Suspended(w: J.Worker) { !w.closed && w.stopId.Some? }

  predicate Unhappy(o: H.Outcome) {
    o.TimedOut? || o.Cancelled? ||
    (o.Rejected? && o.code in {J.InvalidArgument, J.StaleReference, J.Disconnected, J.WorkerFailed})
  }

  ghost predicate StopInFlight(toHost: seq<Packet>, y: nat) {
    EventPacket(J.Stopped(y)) in toHost
  }

  /** The host gave epoch `y` up for a step or resume that the worker has not accepted: it is
      still on its way, or it has failed in a way that makes the host roll back or tear down. */
  ghost predicate Moving(s: System, y: nat) {
    && s.host.run.CommandRun? && H.Moves(s.host.run.command) && s.host.run.previous.stop == Some(y)
    && s.host.state == H.Running && s.host.stop == None
    && s.call.Some?
    && if s.call.value.settled.Some? then Unhappy(s.call.value.settled.value) else Unanswered(s, s.call.value.id)
  }

  predicate Owes(s: System, id: nat) { s.unsent.Some? && s.unsent.value.id == id }

  ghost predicate Unanswered(s: System, id: nat) {
    && (forall p :: p in s.toHost && p.ReplyPacket? && p.id == id ==> Unhappy(OutcomeOf(p.reply)))
    && (Owes(s, id) ==> Unhappy(H.Rejected(s.unsent.value.code)))
    && ((exists r :: r in s.toWorker && r.id == id) || Owes(s, id)
        || (exists p :: p in s.toHost && p.ReplyPacket? && p.id == id))
  }

  predicate PausedAt(h: H.Host, y: nat) { h.state == H.Paused && h.stop == Some(y) }

  ghost predicate PauseCovered(s: System) {
    Live(s) && Suspended(s.worker) ==>
      var y := s.worker.stopId.value;
      StopInFlight(s.toHost, y) || PausedAt(s.host, y) || Moving(s, y)
  }

  ghost predicate Inv(s: System) {
    && H.Inv(s.host) && J.HandlesCurrent(s.worker)
    && CallsMatch(s) && StopsOrdered(s.host, s.toHost, s.worker.epochs)
    && TerminationAnnounced(s) && PauseCovered(s)
  }

  // ---------- the host's own task moves on ----------

  /** The task has just given up epoch `y` to issue a step or resume. */
  predicate GaveUp(h: H.Host, y: nat) {
    && h.run.CommandRun? && H.Moves(h.run.command) && h.run.previous.stop == Some(y)
    && h.state == H.Running && h.stop == None
  }

  predicate Serving(h: H.Host) { h.cleanup == H.Pending && !h.run.CleanRun? }

  /** What a task step may do to the recorded pause. */
  ghost predicate KeepsPause(h: H.Host, h': H.Host) {
    && (Serving(h') ==> Serving(h))
    && (forall y: nat :: KnownUpTo(h, y) ==> KnownUpTo(h', y))
    && (Serving(h') ==> forall y: nat :: PausedAt(h, y) ==> PausedAt(h', y) || GaveUp(h', y))
  }

  lemma MovedKeepsOrder(s: System, host: H.Host, refusal: Option<H.Outcome>)
    requires StopsOrdered(s.host, s.toHost, s.worker.epochs) && KeepsPause(s.host, host)
    ensures StopsOrdered(host, Moved(s, host, refusal).toHost, s.worker.epochs)
  {
  }

  lemma MovedKeepsPause(s: System, host: H.Host, refusal: Option<H.Outcome>)
    requires CallsMatch(s) && RefusalLegal(refusal) && PauseCovered(s) && KeepsPause(s.host, host)
    requires Serving(host) ==> forall y: nat :: Moving(s, y) ==> PausedAt(host, y)
    ensures PauseCovered(Moved(s, host, refusal))
  {
  }

  lemma TaskMoveKeepsInv(s: System, host: H.Host, refusal: Option<H.Outcome>)
    requires Inv(s) && RefusalLegal(refusal) && H.Inv(host) && KeepsPause(s.host, host)
    requires Serving(host) ==> forall y: nat :: Moving(s, y) ==> PausedAt(host, y)
    ensures Inv(Moved(s, host, refusal))
  {
    MovedKeepsOrder(s, host, refusal);
    MovedKeepsPause(s, host, refusal);
  }

  lemma BeginCleanupStopsServing(h: H.Host, requestDetach: bool)
    ensures !Serving(H.BeginCleanup(h, requestDetach))
    ensures H.BeginCleanup(h, requestDetach).stop == None && !H.BeginCleanup(h, requestDetach).run.CommandRun?
  {
  }

  lemma StartKeepsPause(h: H.Host)
    requires H.Inv(h) && h.run.Idle? && h.queue != []
    ensures KeepsPause(h, H.StartTask(h))
  {
    var h' := h.(queue := h.queue[1..]);
    match h.queue[0]
    case AttachTask =>
    case CleanupTask(d) => BeginCleanupStopsServing(h', d);
    case CommandTask(c) => BeginCleanupStopsServing(h', true);
  }

  lemma FailAttachStopsServing(h: H.Host)
    ensures !Serving(H.FailAttach(h))
    ensures H.FailAttach(h).stop == None && !H.FailAttach(h).run.CommandRun?
  {
    BeginCleanupStopsServing(h.(state := H.Failed), true);
  }

  lemma AttachKeepsPause(h: H.Host, o: H.StageOutcome)
    requires h.run.AttachRun? && h.cleanup == H.Pending
    ensures KeepsPause(h, H.AttachStep(h, H.Android, o))
  {
    AttachOrFails(h, o);
    FailAttachStopsServing(h);
    FailAttachStopsServing(h.(worker := true));
    if o.Late? { FailAttachStopsServing(h.(port := Some(o.port))); }
  }

  /** Attach fails with what it has acquired, or goes on without touching the pause. */
  lemma AttachOrFails(h: H.Host, o: H.StageOutcome)
    requires h.run.AttachRun? && h.cleanup == H.Pending
    ensures var h' := H.AttachStep(h, H.Android, o);
      || h' == H.FailAttach(h) || h' == H.FailAttach(h.(worker := true))
      || (o.Late? && h' == H.FailAttach(h.(port := Some(o.port))))
      || (!h'.run.CommandRun? && h'.stop == h.stop && (h'.state == h.state || h.state != H.Paused))
  {
  }

  lemma CleanupKeepsPause(h: H.Host, ok: bool)
    requires H.Inv(h) && h.run.CleanRun?
    ensures KeepsPause(h, H.CleanupStep(h, ok)) && !Serving(H.CleanupStep(h, ok))
  {
  }

  /** An error that ends a command leaves the pause alone, rolls back the one given up, or
      ends the session. */
  lemma EndKeepsPause(h: H.Host, o: H.Outcome)
    requires H.Inv(h) && h.run.CommandRun?
    ensures KeepsPause(h, H.EndCommand(h, o))
    ensures Serving(H.EndCommand(h, o)) && Unhappy(o) ==>
              forall y: nat :: GaveUp(h, y) ==> PausedAt(H.EndCommand(h, o), y)
  {
    if o == H.Rejected(J.Disconnected) {
      BeginCleanupStopsServing(H.RolledBack(h, o).(state := H.Disconnected), false);
    } else if H.EndsSession(h.run.command, o) {
      BeginCleanupStopsServing(H.RolledBack(h, o).(state := H.Failed), true);
    }
  }

  lemma TaskContinuesKeepsInv(s: System, attach: H.StageOutcome, ok: bool, refusal: Option<H.Outcome>)
    requires Inv(s) && Enabled(s, TaskContinues(attach, ok, refusal))
    ensures Inv(Apply(s, TaskContinues(attach, ok, refusal)))
  {
    match s.host.run {
      case AttachRun(_) =>
        H.AttachStepKeepsInv(s.host, H.Android, attach);
        AttachKeepsPause(s.host, attach);
      case CleanRun(_, _, _) =>
        H.CleanupStepKeepsInv(s.host, ok);
        CleanupKeepsPause(s.host, ok);
      case CommandRun(_, _) =>
        H.EndCommandKeepsInv(s.host, s.call.value.settled.value);
        EndKeepsPause(s.host, s.call.value.settled.value);
    }
    TaskMoveKeepsInv(s, Continued(s, attach, ok), refusal);
  }

  // ---------- messages, calls and the worker ----------

  /** The host's bookkeeping changed in a way no packet, call or pause depends on. */
  lemma QueuedKeepsInv(s: System, t: H.Task)
    requires Inv(s) && !t.AttachTask?
    ensures Inv(s.(host := H.Queued(s.host, t)))
  {
  }

  lemma TailPackets(s: System)
    requires s.toHost != []
    ensures forall p :: p in s.toHost <==> p == s.toHost[0] || p in s.toHost[1..]
  {
  }

  lemma ReceivedKeepsOrder(s: System, now: int)
    requires StopsOrdered(s.host, s.toHost, s.worker.epochs) && s.toHost != []
    ensures StopsOrdered(Received(s, now).host, s.toHost[1..], s.worker.epochs)
  {
  }

  /** An event received while serving: a stop pauses the session, nothing else touches it. */
  lemma EventKeepsPause(h: H.Host, e: H.Event, now: int)
    ensures var h' := H.OnEvent(h, e, now);
      && Serving(h') == Serving(h) && h'.run == h.run
      && (Serving(h) && e.Stopped? ==> PausedAt(h', e.stop))
      && (Serving(h) && e == H.Other ==> h'.state == h.state && h'.stop == h.stop)
  {
  }

  lemma ReceivedKeepsPause(s: System, now: int)
    requires Inv(s) && s.toHost != []
    ensures PauseCovered(Received(s, now))
  {
  }

  lemma ReceivedKeepsInv(s: System, now: int)
    requires Inv(s) && s.toHost != []
    ensures Inv(Received(s, now))
  {
    ReceivedKeepsOrder(s, now);
    ReceivedKeepsPause(s, now);
    TailPackets(s);
    if s.toHost[0].EventPacket? {
      H.EventKeepsInv(s.host, EventOf(s.toHost[0].message), now);
      EventKeepsPause(s.host, EventOf(s.toHost[0].message), now);
    }
  }

  lemma TransportDeathKeepsInv(s: System, now: int)
    requires Inv(s) && !s.dead
    ensures Inv(Apply(s, TransportDies(now)))
  {
    H.EventKeepsInv(s.host, H.WorkerFailed, now);
    EventKeepsPause(s.host, H.WorkerFailed, now);
  }

  lemma HeartbeatKeepsInv(s: System)
    requires Inv(s)
    ensures Inv(Apply(s, Heartbeat))
  {
  }

  lemma ExpiryKeepsInv(s: System, cancelled: bool)
    requires Inv(s) && Enabled(s, CallExpires(cancelled))
    ensures Inv(Apply(s, CallExpires(cancelled)))
  {
  }

  /** New packets at the end of the pipe: their stops carry the newest epoch. */
  lemma AppendedKeepsOrder(h: H.Host, toHost: seq<Packet>, more: seq<Packet>, epochs: nat, epochs': nat)
    requires StopsOrdered(h, toHost, epochs) && epochs <= epochs'
    requires forall p :: p in more && IsStop(p) ==> p.message.stop == epochs'
    ensures StopsOrdered(h, toHost + more, epochs')
  {
  }

  lemma TakenKeepsInv(s: System, e: J.EventSet)
    requires Inv(s) && s.worker.attached && !s.worker.closed
    ensures Inv(Apply(s, WorkerTakes(e)))
  {
    var s' := Apply(s, WorkerTakes(e));
    var more := Packets(J.OnEventSet(s.worker, e).1);
    J.ActionKeepsHandles(s.worker, J.Deliver(e));
    AppendedKeepsOrder(s.host, s.toHost, more, s.worker.epochs, s'.worker.epochs);
    TakenKeepsPause(s, e);
  }

  lemma TakenKeepsPause(s: System, e: J.EventSet)
    requires PauseCovered(s) && s.worker.attached && !s.worker.closed
    ensures PauseCovered(Apply(s, WorkerTakes(e)))
  {
    var s', more := Apply(s, WorkerTakes(e)), Packets(J.OnEventSet(s.worker, e).1);
    if e.Stops? {
      assert more[0] == EventPacket(J.Stopped(s'.worker.stopId.value));
      assert more[0] in s'.toHost;
    } else if e.Silent? {
      assert more == [] && s'.toHost == s.toHost;
      if s.worker.stopId.Some? && Moving(s, s.worker.stopId.value) { assert Moving(s', s.worker.stopId.value); }
    }
  }

  lemma ClosedKeepsInv(s: System, reason: J.Reason)
    requires Inv(s)
    ensures Inv(Apply(s, WorkerCloses(reason)))
  {
    var s' := Apply(s, WorkerCloses(reason));
    AppendedKeepsOrder(s.host, s.toHost, Packets(J.FinishMessages(s.worker, reason)), s.worker.epochs, s.worker.epochs);
  }

  /** What the worker sends while it executes a command. */
  function Sent(s: System, native: J.Native): seq<Packet>
    requires s.toWorker != []
  {
    var (_, messages, reply) := J.OnCommand(s.worker, s.toWorker[0].call, native);
    Packets(messages) + if reply.Done? then [ReplyPacket(s.toWorker[0].id, reply)] else []
  }

  lemma ExecutedSends(s: System, native: J.Native)
    requires s.toWorker != []
    ensures Executed(s, native).toHost == s.toHost + Sent(s, native)
    ensures forall p :: p in Sent(s, native) ==>
              || (p == EventPacket(J.Terminated(J.Requested)) && Executed(s, native).worker.closed)
              || p == ReplyPacket(s.toWorker[0].id, J.Done)
  {
  }

  lemma ExecutedKeepsMoving(s: System, native: J.Native, y: nat)
    requires CallsMatch(s) && H.Inv(s.host) && s.toWorker != [] && s.unsent.None? && Moving(s, y)
    requires s.worker.attached && s.worker.stopId == Some(y) && Suspended(s.worker)
    requires Suspended(Executed(s, native).worker)
    ensures Moving(Executed(s, native), y)
  {
  }

  lemma ExecutedKeepsCalls(s: System, native: J.Native)
    requires CallsMatch(s) && s.toWorker != []
    ensures CallsMatch(Executed(s, native))
  {
    ExecutedSends(s, native);
  }

  lemma ExecutedKeepsInv(s: System, native: J.Native)
    requires Inv(s) && s.toWorker != [] && s.unsent.None?
    ensures Inv(Executed(s, native))
  {
    var s' := Executed(s, native);
    ExecutedKeepsCalls(s, native);
    ExecutedSends(s, native);
    J.CommandKeepsHandles(s.worker, s.toWorker[0].call, native);
    AppendedKeepsOrder(s.host, s.toHost, Sent(s, native), s.worker.epochs, s.worker.epochs);
    if Live(s') && Suspended(s'.worker) {
      var y := s.worker.stopId.value;
      if Moving(s, y) && s.worker.attached { ExecutedKeepsMoving(s, native, y); }
    }
  }

  lemma RefusedKeepsInv(s: System)
    requires Inv(s) && s.unsent.Some?
    ensures Inv(Refused(s))
  {
    AppendedKeepsOrder(s.host, s.toHost, [ReplyPacket(s.unsent.value.id, J.Failed(s.unsent.value.code))],
                       s.worker.epochs, s.worker.epochs);
  }

  lemma StepKeepsInv(s: System, a: Action)
    requires Inv(s) && Enabled(s, a)
    ensures Inv(Apply(s, a))
  {
    match a
    case TaskStarts(refusal) =>
      H.StartKeepsInv(s.host);
      StartKeepsPause(s.host);
      TaskMoveKeepsInv(s, H.StartTask(s.host), refusal);
    case TaskContinues(attach, ok, refusal) => TaskContinuesKeepsInv(s, attach, ok, refusal);
    case HostRequests(c) => QueuedKeepsInv(s, H.CommandTask(c));
    case HostTimerFires => QueuedKeepsInv(s, H.CleanupTask(true));
    case HostShutsDown => QueuedKeepsInv(s, H.CleanupTask(true));
    case HostReceives(now) => ReceivedKeepsInv(s, now);
    case CallExpires(cancelled) => ExpiryKeepsInv(s, cancelled);
    case TransportDies(now) => TransportDeathKeepsInv(s, now);
    case Heartbeat => HeartbeatKeepsInv(s);
    case WorkerExecutes(native) => ExecutedKeepsInv(s, native);
    case WorkerRefuses => RefusedKeepsInv(s);
    case WorkerTakes(e) => TakenKeepsInv(s, e);
    case WorkerCloses(reason) => ClosedKeepsInv(s, reason);
  }

  // ---------- runs ----------

  ghost predicate Legal(s: System, run: seq<Action>)
    decreases |run|
  {
    run == [] || (Enabled(s, run[0]) && Legal(Apply(s, run[0]), run[1..]))
  }

  function Final(s: System, run: seq<Action>): System
    requires Legal(s, run)
    decreases |run|
  {
    if run == [] then s else Final(Apply(s, run[0]), run[1..])
  }

  lemma {:induction false} RunKeepsInv(s: System, run: seq<Action>)
    requires Inv(s) && Legal(s, run)
    ensures Inv(Final(s, run))
    decreases |run|
  {
    if run != [] {
      StepKeepsInv(s, run[0]);
      RunKeepsInv(Apply(s, run[0]), run[1..]);
    }
  }

  /** A step or resume is being executed. */
  predicate InsideMove(h: H.Host) { h.run.CommandRun? && H.Moves(h.run.command) }

  /** No missed pause: in every run, whenever the worker holds the VM suspended in an epoch,
      no stop is in flight, no step or resume is being executed and the session is not being
      torn down, the host is paused in exactly that epoch. */
  lemma NoMissedPause(run: seq<Action>)
    requires Legal(INIT, run)
    requires var s := Final(INIT, run);
      Suspended(s.worker) && Live(s) && !InsideMove(s.host) && forall p :: p in s.toHost ==> !IsStop(p)
    ensures var s := Final(INIT, run); s.host.state == H.Paused && s.host.stop == s.worker.stopId
  {
    RunKeepsInv(INIT, run);
  }

  /** A stop that arrived while a step or resume was being refused survives the refusal. */
  lemma RollbackKeepsNewerStop(h: H.Host, o: H.Outcome)
    requires H.Inv(h) && h.run.CommandRun? && h.stop.Some? && H.RollsBack(o)
    ensures H.EndCommand(h, o).stop == h.stop && H.EndCommand(h, o).state == h.state
    ensures H.EndCommand(h, o).pausedAt == h.pausedAt
  {
  }

  // ---------- the converse fails ----------

  /** The host is paused though the worker is in no epoch. */
  predicate SpuriousPause(s: System) {
    Live(s) && s.host.state == H.Paused && !s.worker.closed && s.worker.stopId.None?
  }

  ghost predicate CanGoWrong(s: System) {
    exists run: seq<Action> :: Legal(s, run) && SpuriousPause(Final(s, run))
  }

  lemma WrongAfter(s: System, a: Action)
    requires Enabled(s, a) && CanGoWrong(Apply(s, a))
    ensures CanGoWrong(s)
  {
    var rest: seq<Action> :| Legal(Apply(s, a), rest) && SpuriousPause(Final(Apply(s, a), rest));
    var run := [a] + rest;
    assert run[1..] == rest;
    assert Legal(s, run);
  }

  const EPOCH1 := J.Worker(true, false, Some(1), 1, [0], {J.Thread(1, 7)}, {}, J.Vm(1, {0}, []))

  /** A second stop of the same epoch is on its way while a resume is. */
  lemma DuplicateStopGoesWrong(s: System)
    requires Live(s) && s.worker == EPOCH1 && s.toHost == [] && s.host.run.CommandRun?
    requires |s.toWorker| == 1 && s.toWorker[0].call == J.Resume(Some(1)) && s.unsent.None?
    ensures CanGoWrong(s)
  {
    var s2 := Apply(s, WorkerTakes(J.Stops(8)));
    assert s2.toHost == [EventPacket(J.Stopped(1))];
    var s3 := Apply(s2, WorkerExecutes(J.Works(0)));
    assert s3.toHost[0] == EventPacket(J.Stopped(1)) && s3.worker.stopId.None? && !s3.worker.closed;
    var s4 := Apply(s3, HostReceives(2));
    var none: seq<Action> := [];
    assert SpuriousPause(s4) && Legal(s4, none) && Final(s4, none) == s4;
    WrongAfter(s3, HostReceives(2));
    WrongAfter(s2, WorkerExecutes(J.Works(0)));
    WrongAfter(s, WorkerTakes(J.Stops(8)));
  }

  lemma PausedGoesWrong(s: System)
    requires Live(s) && s.worker == EPOCH1 && s.toWorker == [] && s.toHost == [] && s.unsent.None? && s.call.None?
    requires s.host.run.Idle? && s.host.queue == [] && s.host.worker && PausedAt(s.host, 1)
    ensures CanGoWrong(s)
  {
    var resume := H.StopCommand(J.Resume(Some(1)));
    var s2 := s.(host := s.host.(queue := [H.CommandTask(resume)]));
    assert Apply(s, HostRequests(resume)) == s2;
    DuplicateStopGoesWrong(Apply(s2, TaskStarts(None)));
    WrongAfter(s2, TaskStarts(None));
    WrongAfter(s, HostRequests(resume));
  }

  const GO := TaskContinues(H.Good(5), true, None)

  function AttachingAt(stage: H.AttachStage): System {
    INIT.(host := H.NEW.(queue := [], target := true, run := H.AttachRun(stage)))
  }

  function AttachedHost(run: H.Run): H.Host {
    H.NEW.(queue := [], target := true, port := Some(5), worker := true,
           remaining := [H.ForwardedPort(5), H.WorkerProcess], run := run)
  }

  function RunningHost(): H.Host { AttachedHost(H.Idle).(state := H.Running, timer := true) }

  function Connected(host: H.Host): System { System(host, J.START.(attached := true), [], [], None, None, 2, false) }

  lemma IdentifyingGoesWrong()
    ensures CanGoWrong(Connected(AttachedHost(H.AttachRun(H.Identifying))))
  {
    var s := Connected(AttachedHost(H.AttachRun(H.Identifying)));
    var s2 := Connected(RunningHost());
    var s3 := s2.(worker := EPOCH1, toHost := [EventPacket(J.Stopped(1))]);
    assert Apply(s, GO) == s2 && Apply(s2, WorkerTakes(J.Stops(7))) == s3;
    PausedGoesWrong(Apply(s3, HostReceives(1)));
    WrongAfter(s3, HostReceives(1));
    WrongAfter(s2, WorkerTakes(J.Stops(7)));
    WrongAfter(s, GO);
  }

  function Calling(): System {
    var host := AttachedHost(H.AttachRun(H.Calling));
    System(host, J.START, [Request(1, J.Attach)], [], None, Some(Call(1, None)), 2, false)
  }

  lemma CallingGoesWrong()
    ensures CanGoWrong(Calling())
  {
    var s := Calling();
    var s2 := s.(worker := J.START.(attached := true), toWorker := [], toHost := [ReplyPacket(1, J.Done)]);
    var s3 := s2.(toHost := [], call := Some(Call(1, Some(H.Replied))));
    assert Apply(s, WorkerExecutes(J.Works(0))) == s2;
    assert Apply(s2, HostReceives(0)) == s3;
    IdentifyingGoesWrong();
    assert Apply(s3, GO) == Connected(AttachedHost(H.AttachRun(H.Identifying)));
    WrongAfter(s3, GO);
    WrongAfter(s2, HostReceives(0));
    WrongAfter(s, WorkerExecutes(J.Works(0)));
  }

  /** A second stop of the same epoch can cross a resume on the pipe: in the end the host is
      paused in an epoch the worker has left. */
  lemma DuplicateStopCrossesResume()
    ensures exists run: seq<Action> :: Legal(INIT, run) && SpuriousPause(Final(INIT, run))
  {
    var s1 := INIT.(host := H.NEW.(queue := [], run := H.AttachRun(H.Prerequisite)));
    var s2 := s1.(host := s1.host.(run := H.AttachRun(H.Resolving)));
    assert Apply(INIT, TaskStarts(None)) == s1 && Apply(s1, GO) == s2;
    var s3 := AttachingAt(H.Forwarding);
    var s4 := s3.(host := s3.host.(port := Some(5), remaining := [H.ForwardedPort(5)], run := H.AttachRun(H.Starting)));
    assert Apply(s2, GO) == s3 && Apply(s3, GO) == s4 && Apply(s4, GO) == Calling();
    CallingGoesWrong();
    WrongAfter(s4, GO);
    WrongAfter(s3, GO);
    WrongAfter(s2, GO);
    WrongAfter(s1, GO);
    WrongAfter(INIT, TaskStarts(None));
    assert CanGoWrong(INIT);
  }
}
