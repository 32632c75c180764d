/** When the host's pause is the worker's own. */
module PauseAgreement {
  import opened Wrappers
  import J = JdiWorker
  import H = HostSession
  import opened DebuggerProtocol

  // It is exactly as long as every release finds no stop of its epoch in the pipe or already back
  // at the host.

  /** Executing the next request ends the worker's epoch. */
  predicate EndsEpoch(s: System, native: J.Native)
    requires s.toWorker != []
  {
    && J.Releases(s.worker, s.toWorker[0].call, native)
    && !(native.ReleaseThrows? && native.resumed < |s.worker.held|)
  }

  /** No stop of the epoch that a release is about to end is on its way to the host, nor has
      one come in after the host gave the epoch up. */
  ghost predicate Guarded(s: System, a: Action)
    requires Enabled(s, a)
  {
    a.WorkerExecutes? && Live(s) && EndsEpoch(s, a.native) ==>
      !StopInFlight(s.toHost, s.worker.stopId.value) && s.host.stop != s.worker.stopId
  }

  ghost predicate AllGuarded(s: System, run: seq<Action>)
    requires Legal(s, run)
    decreases |run|
  {
    run == [] || (Guarded(s, run[0]) && AllGuarded(Apply(s, run[0]), run[1..]))
  }

  // ---------- requests are executed once ----------

  /** Requests wait in the order of their numbers, behind all that have been answered. */
  ghost predicate RepliesFirst(s: System) {
    && (forall i, j :: 0 <= i < j < |s.toWorker| ==> s.toWorker[i].id < s.toWorker[j].id)
    && (forall r, p :: r in s.toWorker && p in s.toHost && p.ReplyPacket? ==> p.id < r.id)
    && (s.unsent.Some? ==> forall r :: r in s.toWorker ==> s.unsent.value.id < r.id)
  }

  ghost predicate Waiting(s: System, id: nat) { exists r :: r in s.toWorker && r.id == id }

  predicate IsMove(c: J.Command) { c.Resume? || c.Step? }

  /** Only the awaited call can still release the worker, and no reply has settled it. */
  ghost predicate MovesAwaited(s: System) {
    forall r :: r in s.toWorker && IsMove(r.call) ==>
      && s.call.Some? && r.id == s.call.value.id
      && s.call.value.settled in {None, Some(H.TimedOut), Some(H.Cancelled)}
  }

  /** The step or resume under way may still be taken back: it waits to be executed, or was
      refused in a way that makes the host roll back. */
  ghost predicate Withdrawable(s: System) {
    && InsideMove(s.host) && s.call.Some?
    && match s.call.value.settled
       case Some(o) => H.RollsBack(o)
       case None =>
         var id := s.call.value.id;
         || Waiting(s, id)
         || (Owes(s, id) && H.RollsBack(H.Rejected(s.unsent.value.code)))
         || exists p :: p in s.toHost && p.ReplyPacket? && p.id == id && H.RollsBack(OutcomeOf(p.reply))
  }

  /** What the host believes or is about to be told of a pause is the worker's epoch. */
  ghost predicate Agreed(s: System) {
    && (forall p :: p in s.toHost && IsStop(p) ==> s.worker.stopId == Some(p.message.stop))
    && (s.host.stop.Some? ==> s.worker.stopId == s.host.stop)
    && (Withdrawable(s) ==> s.worker.stopId == s.host.run.previous.stop)
  }

  ghost predicate Sound(s: System) {
    && Inv(s) && RepliesFirst(s)
    && (Live(s) ==> MovesAwaited(s))
    && (Live(s) && !s.worker.closed ==> Agreed(s))
  }

  // ---------- every guarded step keeps agreement ----------

  lemma MovedKeepsReplies(s: System, host: H.Host, refusal: Option<H.Outcome>)
    requires CallsMatch(s) && RepliesFirst(s)
    ensures RepliesFirst(Moved(s, host, refusal))
  {
  }

  lemma ExecutedKeepsReplies(s: System, native: J.Native)
    requires RepliesFirst(s) && s.toWorker != [] && s.unsent.None?
    ensures RepliesFirst(Executed(s, native))
  {
    ExecutedSends(s, native);
    var s' := Executed(s, native);
    forall r | r in s'.toWorker ensures r in s.toWorker && s.toWorker[0].id < r.id {
      var i :| 0 <= i < |s'.toWorker| && s'.toWorker[i] == r;
      assert s.toWorker[i + 1] == r;
    }
  }

  /** More packets, none of them a reply. */
  lemma EventsKeepReplies(s: System, worker: J.Worker, messages: seq<J.Message>)
    requires RepliesFirst(s)
    ensures RepliesFirst(s.(worker := worker, toHost := s.toHost + Packets(messages)))
  {
  }

  lemma ReceivedKeepsReplies(s: System, now: int)
    requires RepliesFirst(s) && s.toHost != []
    ensures RepliesFirst(Received(s, now))
  {
    TailPackets(s);
  }

  lemma RefusedKeepsReplies(s: System)
    requires RepliesFirst(s) && s.unsent.Some?
    ensures RepliesFirst(Refused(s))
  {
  }

  lemma HeartbeatKeepsReplies(s: System)
    requires CallsMatch(s) && RepliesFirst(s)
    ensures RepliesFirst(Apply(s, Heartbeat))
  {
  }

  lemma StepKeepsReplies(s: System, a: Action)
    requires CallsMatch(s) && RepliesFirst(s) && Enabled(s, a)
    ensures RepliesFirst(Apply(s, a))
  {
    match a
    case TaskStarts(refusal) => MovedKeepsReplies(s, H.StartTask(s.host), refusal);
    case TaskContinues(attach, ok, refusal) => MovedKeepsReplies(s, Continued(s, attach, ok), refusal);
    case HostReceives(now) => ReceivedKeepsReplies(s, now);
    case Heartbeat => HeartbeatKeepsReplies(s);
    case WorkerExecutes(native) => ExecutedKeepsReplies(s, native);
    case WorkerRefuses => RefusedKeepsReplies(s);
    case WorkerTakes(e) => EventsKeepReplies(s, J.OnEventSet(s.worker, e).0, J.OnEventSet(s.worker, e).1);
    case WorkerCloses(reason) => EventsKeepReplies(s, J.Finished(s.worker), J.FinishMessages(s.worker, reason));
    case _ =>
  }

  /** Teardown is for good. */
  lemma LiveBefore(s: System, a: Action)
    requires Inv(s) && Enabled(s, a) && Live(Apply(s, a))
    ensures Live(s)
  {
    match a
    case TaskStarts(_) => StartKeepsPause(s.host);
    case TaskContinues(attach, ok, _) => ContinuedKeepsPause(s, attach, ok);
    case HostReceives(now) =>
      if s.toHost[0].EventPacket? { EventKeepsPause(s.host, EventOf(s.toHost[0].message), now); }
    case _ =>
  }

  lemma ContinuedKeepsPause(s: System, attach: H.StageOutcome, ok: bool)
    requires Inv(s) && !s.host.run.Idle? && (s.host.run.CommandRun? ==> s.call.Some? && s.call.value.settled.Some?)
    ensures KeepsPause(s.host, Continued(s, attach, ok))
  {
    match s.host.run
    case AttachRun(_) => AttachKeepsPause(s.host, attach);
    case CleanRun(_, _, _) => CleanupKeepsPause(s.host, ok);
    case CommandRun(_, _) => EndKeepsPause(s.host, s.call.value.settled.value);
  }

  lemma NoMovesWaiting(s: System)
    requires CallsMatch(s) && MovesAwaited(s) && !InsideMove(s.host)
    ensures forall r :: r in s.toWorker ==> !IsMove(r.call)
  {
  }

  /** A task that starts keeps the pause, or gives it up for a step or resume. */
  lemma StartedPause(h: H.Host)
    requires H.Inv(h) && h.run.Idle? && h.queue != [] && Serving(H.StartTask(h))
    ensures var h' := H.StartTask(h);
      if InsideMove(h') then h'.stop == None && h'.run.previous.stop == h.stop && h.stop.Some? else h'.stop == h.stop
  {
  }

  lemma StartAgrees(s: System, refusal: Option<H.Outcome>)
    requires Sound(s) && Enabled(s, TaskStarts(refusal)) && Live(s)
    requires Live(Moved(s, H.StartTask(s.host), refusal))
    ensures MovesAwaited(Moved(s, H.StartTask(s.host), refusal))
    ensures !s.worker.closed ==> Agreed(Moved(s, H.StartTask(s.host), refusal))
  {
    NoMovesWaiting(s);
    StartedPause(s.host);
  }

  lemma AttachedPause(h: H.Host, o: H.StageOutcome)
    requires h.run.AttachRun? && Serving(h) && Serving(H.AttachStep(h, H.Android, o))
    ensures H.AttachStep(h, H.Android, o).stop == h.stop && !H.AttachStep(h, H.Android, o).run.CommandRun?
  {
    AttachOrFails(h, o);
    FailAttachStopsServing(h);
    FailAttachStopsServing(h.(worker := true));
    if o.Late? { FailAttachStopsServing(h.(port := Some(o.port))); }
  }

  lemma EndedPause(h: H.Host, o: H.Outcome)
    requires H.Inv(h) && h.run.CommandRun? && Serving(H.EndCommand(h, o))
    ensures var h' := H.EndCommand(h, o);
      && h'.run.Idle?
      && (h'.stop == h.stop || (H.Moves(h.run.command) && H.RollsBack(o) && h'.stop == h.run.previous.stop))
    ensures H.Moves(h.run.command) ==> o !in {H.TimedOut, H.Cancelled}
  {
    if o == H.Rejected(J.Disconnected) {
      BeginCleanupStopsServing(H.RolledBack(h, o).(state := H.Disconnected), false);
    } else if H.EndsSession(h.run.command, o) {
      BeginCleanupStopsServing(H.RolledBack(h, o).(state := H.Failed), true);
    }
  }

  /** A task that goes on keeps the pause, or takes back the one it gave up. */
  lemma ContinuedPause(s: System, attach: H.StageOutcome, ok: bool)
    requires Sound(s) && !s.host.run.Idle? && Live(s)
    requires s.host.run.CommandRun? ==> s.call.Some? && s.call.value.settled.Some?
    requires Serving(Continued(s, attach, ok))
    ensures var h' := Continued(s, attach, ok);
      && !InsideMove(h')
      && (h'.stop == s.host.stop || (Withdrawable(s) && h'.stop == s.host.run.previous.stop))
    ensures InsideMove(s.host) ==> s.call.value.settled.value !in {H.TimedOut, H.Cancelled}
  {
    match s.host.run
    case AttachRun(_) => AttachedPause(s.host, attach);
    case CleanRun(_, _, _) =>
    case CommandRun(_, _) => EndedPause(s.host, s.call.value.settled.value);
  }

  lemma ContinueAgrees(s: System, attach: H.StageOutcome, ok: bool, refusal: Option<H.Outcome>)
    requires Sound(s) && Enabled(s, TaskContinues(attach, ok, refusal)) && Live(s)
    requires Live(Moved(s, Continued(s, attach, ok), refusal))
    ensures MovesAwaited(Moved(s, Continued(s, attach, ok), refusal))
    ensures !s.worker.closed ==> Agreed(Moved(s, Continued(s, attach, ok), refusal))
  {
    ContinuedPause(s, attach, ok);
    if !InsideMove(s.host) { NoMovesWaiting(s); }
    assert forall r :: r in s.toWorker ==> !IsMove(r.call);
  }

  lemma ReceivedAgrees(s: System, now: int)
    requires Sound(s) && s.toHost != [] && Live(s) && Live(Received(s, now))
    ensures MovesAwaited(Received(s, now))
    ensures !s.worker.closed ==> Agreed(Received(s, now))
  {
    TailPackets(s);
    EventKeepsPause(s.host, if s.toHost[0].EventPacket? then EventOf(s.toHost[0].message) else H.Other, now);
  }

  lemma TakenAgrees(s: System, e: J.EventSet)
    requires Sound(s) && Enabled(s, WorkerTakes(e)) && Live(s)
    ensures MovesAwaited(Apply(s, WorkerTakes(e)))
    ensures !Apply(s, WorkerTakes(e)).worker.closed ==> Agreed(Apply(s, WorkerTakes(e)))
  {
  }

  /** The executed request was the only release on its way. */
  lemma ExecutedKeepsMoves(s: System, native: J.Native)
    requires Sound(s) && s.toWorker != [] && Live(s)
    ensures MovesAwaited(Executed(s, native))
  {
  }

  lemma ReleasedAgrees(s: System, native: J.Native)
    requires Sound(s) && s.toWorker != [] && s.unsent.None? && Live(s) && EndsEpoch(s, native)
    requires Guarded(s, WorkerExecutes(native))
    ensures Agreed(Executed(s, native))
  {
  }

  lemma UnreleasedKeepsEpoch(s: System, native: J.Native)
    requires J.HandlesCurrent(s.worker) && s.toWorker != [] && !EndsEpoch(s, native)
    requires !Executed(s, native).worker.closed
    ensures Executed(s, native).worker.stopId == s.worker.stopId
  {
  }

  lemma UnreleasedWithdrawable(s: System, native: J.Native)
    requires Sound(s) && s.toWorker != [] && s.unsent.None? && Live(s)
    requires Withdrawable(Executed(s, native))
    ensures Withdrawable(s)
  {
    ExecutedSends(s, native);
  }

  lemma UnreleasedAgrees(s: System, native: J.Native)
    requires Sound(s) && s.toWorker != [] && s.unsent.None? && Live(s) && !EndsEpoch(s, native)
    requires !Executed(s, native).worker.closed
    ensures Agreed(Executed(s, native))
  {
    UnreleasedKeepsEpoch(s, native);
    ExecutedSends(s, native);
    if Withdrawable(Executed(s, native)) { UnreleasedWithdrawable(s, native); }
  }

  lemma ExecutedAgrees(s: System, native: J.Native)
    requires Sound(s) && Enabled(s, WorkerExecutes(native)) && Live(s) && Guarded(s, WorkerExecutes(native))
    ensures MovesAwaited(Executed(s, native))
    ensures !Executed(s, native).worker.closed ==> Agreed(Executed(s, native))
  {
    ExecutedKeepsMoves(s, native);
    if EndsEpoch(s, native) {
      ReleasedAgrees(s, native);
    } else if !Executed(s, native).worker.closed {
      UnreleasedAgrees(s, native);
    }
  }

  lemma RefusedAgrees(s: System)
    requires Sound(s) && s.unsent.Some? && Live(s)
    ensures MovesAwaited(Refused(s))
    ensures !s.worker.closed ==> Agreed(Refused(s))
  {
  }

  /** Every guarded step keeps the host's pause in agreement with the worker's epoch. */
  lemma StepKeepsSound(s: System, a: Action)
    requires Sound(s) && Enabled(s, a) && Guarded(s, a)
    ensures Sound(Apply(s, a))
  {
    StepKeepsInv(s, a);
    StepKeepsReplies(s, a);
    if Live(Apply(s, a)) {
      LiveBefore(s, a);
      StepAgrees(s, a);
    }
  }

  lemma StepAgrees(s: System, a: Action)
    requires Sound(s) && Enabled(s, a) && Guarded(s, a) && Live(s) && Live(Apply(s, a))
    ensures MovesAwaited(Apply(s, a))
    ensures !Apply(s, a).worker.closed ==> Agreed(Apply(s, a))
  {
    match a
    case TaskStarts(refusal) => StartAgrees(s, refusal);
    case TaskContinues(attach, ok, refusal) => ContinueAgrees(s, attach, ok, refusal);
    case HostReceives(now) => ReceivedAgrees(s, now);
    case WorkerExecutes(native) => ExecutedAgrees(s, native);
    case WorkerRefuses => RefusedAgrees(s);
    case WorkerTakes(e) => TakenAgrees(s, e);
    case _ =>
  }

  // ---------- an unguarded release goes wrong ----------

  /** The host takes in the next `n` packets and nothing else happens. */
  function Delivered(s: System, n: nat): System
    decreases n
  {
    if n == 0 || s.toHost == [] then s else Delivered(Received(s, 0), n - 1)
  }

  /** Delivering what is in the pipe leads to a pause the worker is not in. */
  ghost predicate Astray(s: System) { exists n: nat :: SpuriousPause(Delivered(s, n)) }

  lemma {:induction false} SoundNeverAstray(s: System, n: nat)
    requires Sound(s)
    ensures !SpuriousPause(Delivered(s, n))
    decreases n
  {
    if n > 0 && s.toHost != [] {
      StepKeepsSound(s, HostReceives(0));
      SoundNeverAstray(Received(s, 0), n - 1);
    }
  }

  lemma {:induction false} StopArrives(s: System)
    requires Inv(s) && Live(s) && !s.worker.closed && s.worker.stopId.None?
    requires exists p :: p in s.toHost && IsStop(p)
    ensures Astray(s)
    decreases |s.toHost|
  {
    var s' := Received(s, 0);
    TailPackets(s);
    assert Delivered(s, 1) == Delivered(s', 0) == s';
    if IsStop(s.toHost[0]) {
      EventKeepsPause(s.host, EventOf(s.toHost[0].message), 0);
      assert SpuriousPause(s');
    } else {
      ReceivedKeepsInv(s, 0);
      StopArrives(s');
      var n: nat :| SpuriousPause(Delivered(s', n));
      assert Delivered(s, n + 1) == Delivered(s', n);
    }
  }

  lemma UnguardedGoesAstray(s: System, a: Action)
    requires Inv(s) && Enabled(s, a) && !Guarded(s, a)
    ensures Astray(Apply(s, a))
  {
    var s' := Apply(s, a);
    ExecutedKeepsInv(s, a.native);
    ExecutedSends(s, a.native);
    if s.host.stop == s.worker.stopId {
      assert SpuriousPause(Delivered(s', 0));
    } else {
      assert EventPacket(J.Stopped(s.worker.stopId.value)) in s'.toHost;
      StopArrives(s');
    }
  }

  /** At no point of the run would delivering what is in the pipe lead astray. */
  ghost predicate NeverAstray(s: System, run: seq<Action>)
    requires Legal(s, run)
    decreases |run|
  {
    !Astray(s) && (run == [] || NeverAstray(Apply(s, run[0]), run[1..]))
  }

  lemma {:induction false} GuardedExactly(s: System, run: seq<Action>)
    requires Sound(s) && Legal(s, run)
    ensures AllGuarded(s, run) <==> NeverAstray(s, run)
    ensures AllGuarded(s, run) ==> Sound(Final(s, run))
    decreases |run|
  {
    forall n: nat ensures !SpuriousPause(Delivered(s, n)) { SoundNeverAstray(s, n); }
    if run != [] {
      if Guarded(s, run[0]) {
        StepKeepsSound(s, run[0]);
        GuardedExactly(Apply(s, run[0]), run[1..]);
      } else {
        UnguardedGoesAstray(s, run[0]);
        assert Astray(Apply(s, run[0]));
      }
    }
  }

  /** The converse of `NoMissedPause`, exactly: a run in which every release of a live session
      finds no stop of its epoch in the pipe or back at the host is one that is never led
      astray, and in such a run the host is paused only in the worker's own epoch. */
  lemma PauseIsTheWorkersExactly(run: seq<Action>)
    requires Legal(INIT, run)
    ensures AllGuarded(INIT, run) <==> NeverAstray(INIT, run)
    ensures AllGuarded(INIT, run) ==>
      var s := Final(INIT, run);
      Live(s) && !s.worker.closed && s.host.state == H.Paused ==> s.host.stop == s.worker.stopId
  {
    GuardedExactly(INIT, run);
  }

  /** In such a run, with no stop in flight and no step or resume under way, the host of a live
      session is paused if and only if the worker holds the VM suspended. */
  lemma PausedExactlyWhenSuspended(run: seq<Action>)
    requires Legal(INIT, run) && AllGuarded(INIT, run)
    requires var s := Final(INIT, run);
      Live(s) && !s.worker.closed && !InsideMove(s.host) && forall p :: p in s.toHost ==> !IsStop(p)
    ensures var s := Final(INIT, run); s.host.state == H.Paused <==> Suspended(s.worker)
    ensures var s := Final(INIT, run); s.host.state == H.Paused ==> s.host.stop == s.worker.stopId
  {
    PauseIsTheWorkersExactly(run);
    RunKeepsInv(INIT, run);
    if Suspended(Final(INIT, run).worker) { NoMissedPause(run); }
  }
}
