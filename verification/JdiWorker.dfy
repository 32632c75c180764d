/** The stop epochs, held event sets and handles of the JDI bridge. */
module JdiWorker {
  import opened Collections
  import opened Wrappers

  // The worker is modelled with the part of the debuggee VM it can observe: which delivered event
  // sets are still suspended.  Every step below runs under the worker's lock.

  /** Error codes that cross the pipe. */
  datatype Code =
    | InvalidArgument
    | Busy
    | NotPaused
    | StaleReference
    | Disconnected
    | WorkerFailed

  /** A thread handle is `stopId:uid`; a frame handle is `stopId:uid:index`. */
  datatype Thread = Thread(epoch: nat, uid: nat)
  datatype Frame = Frame(epoch: nat, uid: nat, index: nat)

  datatype Command =
    | Attach
    | Detach
    | Plain                      // heartbeat, state, set and remove, which change no epoch
    | Stack(stop: Option<nat>, thread: Thread, offset: nat, limit: nat)
    | Locals(stop: Option<nat>, frame: Frame)
    | Resume(stop: Option<nat>)
    | Step(stop: Option<nat>, thread: Thread, knownKind: bool)

  /** What the JDI calls made by one command do.  `FramesThrow(.., k, ..)`: reading frame `k`
      throws, or else the last question for the number of frames.  `ReleaseThrows(k, ..)`: the
      first `k` event sets resume and the next resume throws.  `lost`: the exception says that
      the VM is disconnected. */
  datatype Native =
    | Works(frameCount: nat)
    | Throws(lost: bool)
    | FramesThrow(frameCount: nat, at: nat, lost: bool)
    | ReleaseThrows(resumed: nat, lost: bool)

  function Thrown(native: Native): Code
    requires !native.Works?
  {
    if native.lost then Disconnected else WorkerFailed
  }

  datatype Reply = Done | Failed(code: Code)

  /** One event set taken from the JDI queue. */
  datatype EventSet =
    | Stops(trigger: nat)      // breakpoint or step events, from the thread `trigger`
    | Silent                   // only class-prepare or uninteresting events
    | Death                    // contains a VM death or disconnect event
    | Unreadable               // handling it throws

  datatype Reason = ProcessExit | TransportLost | Requested | Watchdog | ParentClosed

  datatype Message = Stopped(stop: nat) | Terminated(reason: Reason)

  /** `delivered` numbers the event sets; `suspended` are those delivered and not resumed;
      `resumed` is the log of successful resume calls. */
  datatype Vm = Vm(delivered: nat, suspended: set<nat>, resumed: seq<nat>)

  datatype Worker = Worker(
    attached: bool, closed: bool, stopId: Option<nat>, epochs: nat,
    held: seq<nat>, threads: set<Thread>, frames: set<Frame>, vm: Vm)

  const START := Worker(false, false, None, 0, [], {}, {}, Vm(0, {}, []))

  function Invalidated(w: Worker): Worker {
    w.(stopId := None, threads := {}, frames := {})
  }

  /** Resuming the sets of `sets` one after the other. */
  function ResumeAll(vm: Vm, sets: seq<nat>): Vm {
    vm.(suspended := vm.suspended - Elements(sets), resumed := vm.resumed + sets)
  }

  function Released(w: Worker, native: Native): (Worker, Reply) {
    if native.ReleaseThrows? && native.resumed < |w.held| then
      (w.(vm := ResumeAll(w.vm, w.held[..native.resumed])), Failed(Thrown(native)))
    else
      (Invalidated(w.(vm := ResumeAll(w.vm, w.held), held := [])), Done)
  }

  function Finished(w: Worker): Worker {
    if w.closed then w else Invalidated(w.(closed := true, held := []))
  }

  function FinishMessages(w: Worker, reason: Reason): seq<Message> {
    if w.closed then [] else [Terminated(reason)]
  }

  function OnEventSet(w: Worker, e: EventSet): (Worker, seq<Message>)
    requires !w.closed
  {
    var id := w.vm.delivered;
    var taken := w.(vm := w.vm.(delivered := id + 1, suspended := w.vm.suspended + {id}));
    match e
    case Death => (Finished(taken), [Terminated(ProcessExit)])
    case Unreadable => (Finished(taken), [Terminated(TransportLost)])
    case Silent => (taken.(vm := ResumeAll(taken.vm, [id])), [])
    case Stops(uid) =>
      var epoch := if w.stopId.Some? then w.stopId.value else w.epochs + 1;
      (taken.(held := w.held + [id], stopId := Some(epoch),
              epochs := if w.stopId.Some? then w.epochs else epoch,
              threads := w.threads + {Thread(epoch, uid)}),
       [Stopped(epoch)])
  }

  predicate ReadsFrames(native: Native) { native.Works? || native.FramesThrow? }

  /** Frames `i..end` of a thread join the table, which refuses a new entry beyond 1000; those
      that joined before a call throws stay. */
  function FramesAdded(frames: set<Frame>, epoch: nat, uid: nat, i: nat, end: nat, native: Native)
    : (set<Frame>, Reply)
    decreases end - i
  {
    if i >= end then (frames, if native.FramesThrow? then Failed(Thrown(native)) else Done)
    else if native.FramesThrow? && i == native.at then (frames, Failed(Thrown(native)))
    else
      var f := Frame(epoch, uid, i);
      if f !in frames && |frames| >= 1000 then (frames, Failed(Busy))
      else FramesAdded(frames + {f}, epoch, uid, i + 1, end, native)
  }

  function Min(a: nat, b: nat): nat { if a <= b then a else b }

  /** The new state, the messages sent before the reply, and the reply. */
  function OnCommand(w: Worker, c: Command, native: Native): (Worker, seq<Message>, Reply) {
    if c.Attach? then
      if w.attached then (w, [], Failed(Busy))
      else if native.Throws? then (w, [], Failed(Thrown(native)))
      else (w.(attached := true), [], Done)
    else if c.Detach? then (Finished(w), FinishMessages(w, Requested), Done)
    else if !w.attached || w.closed then (w, [], Failed(Disconnected))
    else if c.Plain? then (w, [], if native.Throws? then Failed(Thrown(native)) else Done)
    else if w.stopId.None? then (w, [], Failed(NotPaused))
    else if w.stopId != c.stop then (w, [], Failed(StaleReference))
    else match c
      case Stack(_, thread, offset, limit) =>
        if thread !in w.threads then (w, [], Failed(StaleReference))
        else if !ReadsFrames(native) then (w, [], Failed(Thrown(native)))
        else
          var end := Min(Min(native.frameCount, 1000), offset + limit);
          var (frames, reply) := FramesAdded(w.frames, thread.epoch, thread.uid, offset, end, native);
          (w.(frames := frames), [], reply)
      case Locals(_, frame) =>
        if frame !in w.frames then (w, [], Failed(StaleReference))
        else if !native.Works? then (w, [], Failed(Thrown(native)))
        else (w, [], Done)
      case Resume(_) =>
        var (released, reply) := Released(w, native);
        (released, [], reply)
      case Step(_, thread, knownKind) =>
        if thread !in w.threads then (w, [], Failed(StaleReference))
        else if !knownKind then (w, [], Failed(InvalidArgument))
        else if native.Throws? then (w, [], Failed(Thrown(native)))
        else
          var (released, reply) := Released(w, native);
          (released, [], reply)
  }

  // ---------- runs ----------

  datatype Action =
    | Deliver(set_: EventSet)
    | Execute(command: Command, native: Native)
    | Close(reason: Reason)                    // watchdog, shutdown hook, end of input

  predicate Enabled(w: Worker, a: Action) {
    a.Deliver? ==> w.attached && !w.closed
  }

  function Apply(w: Worker, a: Action): Worker
    requires Enabled(w, a)
  {
    match a
    case Deliver(e) => OnEventSet(w, e).0
    case Execute(c, native) => OnCommand(w, c, native).0
    case Close(_) => Finished(w)
  }

  ghost predicate Legal(w: Worker, run: seq<Action>)
    decreases |run|
  {
    run == [] || (Enabled(w, run[0]) && Legal(Apply(w, run[0]), run[1..]))
  }

  function Final(w: Worker, run: seq<Action>): Worker
    requires Legal(w, run)
    decreases |run|
  {
    if run == [] then w else Final(Apply(w, run[0]), run[1..])
  }

  // ---------- suspension conservation ----------

  /** The held sets are exactly the suspended ones, listed once; the VM is suspended by the
      worker exactly in an epoch; every delivered set is suspended or was resumed once. */
  ghost predicate Conserved(w: Worker) {
    && Unique(w.held) && Unique(w.vm.resumed)
    && Elements(w.held) == w.vm.suspended
    && (w.held != [] <==> w.stopId.Some?)
    && (forall x :: x in w.vm.resumed ==> x < w.vm.delivered && x !in w.vm.suspended)
    && (forall x :: x in w.vm.suspended ==> x < w.vm.delivered)
    && (forall x: nat :: x < w.vm.delivered ==> x in w.vm.suspended || x in w.vm.resumed)
  }

  /** Handles belong to the current epoch, which is the newest one. */
  ghost predicate HandlesCurrent(w: Worker) {
    && (w.stopId.Some? ==> w.stopId.value == w.epochs)
    && (w.stopId.None? ==> w.threads == {} && w.frames == {})
    && (forall t :: t in w.threads ==> w.stopId == Some(t.epoch))
    && (forall f :: f in w.frames ==> w.stopId == Some(f.epoch))
    && |w.frames| <= 1000
  }

  ghost predicate Disposed(w: Worker) {
    w.held == [] && w.stopId.None?
  }

  ghost predicate Inv(w: Worker) {
    && HandlesCurrent(w)
    && if w.closed then Disposed(w) else Conserved(w)
  }

  /** A resume that throws after an earlier set of the same release was resumed. */
  predicate PartialRelease(w: Worker, native: Native) {
    native.ReleaseThrows? && 0 < native.resumed < |w.held|
  }

  /** The command gets as far as the release: a resume of the current epoch, or a step of a
      known thread and kind whose own native calls work. */
  predicate Releases(w: Worker, c: Command, native: Native) {
    && w.attached && !w.closed && w.stopId.Some?
    && (c.Resume? || c.Step?) && c.stop == w.stopId
    && (c.Step? ==> c.thread in w.threads && c.knownKind && !native.Throws?)
  }

  /** An action during which a release stops half-way. */
  predicate Faulty(w: Worker, a: Action) {
    a.Execute? && Releases(w, a.command, a.native) && PartialRelease(w, a.native)
  }

  lemma UniqueConcat<T>(s: seq<T>, t: seq<T>)
    requires Unique(s) && Unique(t) && forall x :: x in t ==> x !in s
    ensures Unique(s + t)
  {
    forall i, j | 0 <= i < j < |s + t| ensures (s + t)[i] != (s + t)[j] {
      if i < |s| <= j { assert t[j - |s|] in t; }
    }
  }

  lemma FramesAddedKeeps(frames: set<Frame>, epoch: nat, uid: nat, i: nat, end: nat, native: Native)
    requires |frames| <= 1000 && forall f :: f in frames ==> f.epoch == epoch
    ensures var r := FramesAdded(frames, epoch, uid, i, end, native).0;
            |r| <= 1000 && forall f :: f in r ==> f.epoch == epoch
    decreases end - i
  {
  }

  /** Taking an event set under the lock keeps suspension conserved and handles current. */
  lemma EventSetKeepsInv(w: Worker, e: EventSet)
    requires Inv(w) && !w.closed
    ensures Inv(OnEventSet(w, e).0)
  {
    var id := w.vm.delivered;
    if e.Stops? {
      var r := OnEventSet(w, e).0;
      assert r.held == w.held + [id];
      assert forall x :: x in w.held ==> x in w.vm.suspended;
      assert Unique(r.held);
    }
  }

  lemma HalfReleaseBreaks(w: Worker, native: Native)
    requires Inv(w) && !w.closed && w.stopId.Some? && native.ReleaseThrows? && native.resumed < |w.held|
    ensures Inv(Released(w, native).0) <==> native.resumed == 0
    ensures Released(w, native).1 != Done
  {
    var r := Released(w, native).0;
    assert forall x :: x in w.held ==> x in w.vm.suspended;
    if native.resumed == 0 {
      assert w.held[..0] == [];
      assert r == w;
    } else {
      assert w.held[0] in w.held[..native.resumed];
      assert w.held[0] in r.held && w.held[0] !in r.vm.suspended;
      assert !Conserved(r);
    }
  }

  lemma FullReleaseConserves(w: Worker, native: Native)
    requires Inv(w) && !w.closed && w.stopId.Some? && !(native.ReleaseThrows? && native.resumed < |w.held|)
    ensures Inv(Released(w, native).0)
    ensures Released(w, native).0.vm.suspended == {}
  {
    var r := Released(w, native).0;
    assert forall x :: x in w.held <==> x in w.vm.suspended;
    assert r.vm.suspended == {} && Elements(r.held) == {};
    UniqueConcat(w.vm.resumed, w.held);
    assert r.vm.resumed == w.vm.resumed + w.held;
    forall x: nat | x < w.vm.delivered ensures x in r.vm.resumed {
      if x in w.vm.suspended { assert x in w.held; }
    }
  }

  lemma ReleaseKeepsInv(w: Worker, native: Native)
    requires Inv(w) && !w.closed && w.stopId.Some?
    ensures Inv(Released(w, native).0) <==> !PartialRelease(w, native)
    ensures Released(w, native).1 == Done ==> Released(w, native).0.vm.suspended == {}
  {
    if native.ReleaseThrows? && native.resumed < |w.held| {
      HalfReleaseBreaks(w, native);
    } else {
      FullReleaseConserves(w, native);
    }
  }

  /** Resume and step reach the release, or change nothing. */
  lemma MoveKeepsInvExactly(w: Worker, c: Command, native: Native)
    requires Inv(w) && (c.Resume? || c.Step?)
    ensures Inv(OnCommand(w, c, native).0) <==> !Faulty(w, Execute(c, native))
  {
    var r := OnCommand(w, c, native).0;
    if Releases(w, c, native) {
      assert r == Released(w, native).0;
      ReleaseKeepsInv(w, native);
    } else {
      assert r == w;
    }
  }

  lemma StackKeepsInv(w: Worker, c: Command, native: Native)
    requires Inv(w) && c.Stack?
    ensures Inv(OnCommand(w, c, native).0)
    ensures OnCommand(w, c, native).0.vm == w.vm
  {
    if c.thread in w.threads && ReadsFrames(native) {
      var end := Min(Min(native.frameCount, 1000), c.offset + c.limit);
      FramesAddedKeeps(w.frames, c.thread.epoch, c.thread.uid, c.offset, end, native);
    }
  }

  /** Conservation survives an action exactly when no release stops half-way in it: after a
      half-way release `held` still lists sets that are running again. */
  lemma ActionKeepsInvExactly(w: Worker, a: Action)
    requires Inv(w) && Enabled(w, a)
    ensures Inv(Apply(w, a)) <==> !Faulty(w, a)
  {
    match a
    case Close(_) =>
    case Deliver(e) => EventSetKeepsInv(w, e);
    case Execute(c, native) =>
      if c.Resume? || c.Step? {
        MoveKeepsInvExactly(w, c, native);
      } else if c.Stack? {
        StackKeepsInv(w, c, native);
      }
  }

  ghost predicate FaultFree(w: Worker, run: seq<Action>)
    requires Legal(w, run)
    decreases |run|
  {
    run == [] || (!Faulty(w, run[0]) && FaultFree(Apply(w, run[0]), run[1..]))
  }

  /** At every lock release of every run without a half-way release: the suspended sets are
      the held ones, there are some exactly in an epoch, and every handle is current. */
  lemma {:induction false} RunKeepsInv(w: Worker, run: seq<Action>)
    requires Inv(w) && Legal(w, run) && FaultFree(w, run)
    ensures Inv(Final(w, run))
    decreases |run|
  {
    if run != [] {
      ActionKeepsInvExactly(w, run[0]);
      RunKeepsInv(Apply(w, run[0]), run[1..]);
    }
  }

  lemma SuspensionConserved(run: seq<Action>)
    requires Legal(START, run) && FaultFree(START, run)
    ensures var w := Final(START, run);
      && Inv(w)
      && (!w.closed ==> |w.vm.suspended| == |w.held|)
      && (!w.closed && w.stopId.None? ==>
           Unique(w.vm.resumed) && forall x: nat :: x < w.vm.delivered ==> x in w.vm.resumed)
  {
    RunKeepsInv(START, run);
    var w := Final(START, run);
    if !w.closed { UniqueCount(w.held); }
  }

  /** A run from `w` leads to a set that was resumed twice. */
  ghost predicate CanResumeTwice(w: Worker) {
    exists run: seq<Action> ::
      Legal(w, run) && !Inv(Final(w, run)) && !Unique(Final(w, run).vm.resumed)
  }

  lemma ResumesTwiceAfter(w: Worker, a: Action)
    requires Enabled(w, a) && CanResumeTwice(Apply(w, a))
    ensures CanResumeTwice(w)
  {
    var rest: seq<Action> :|
      Legal(Apply(w, a), rest) && !Inv(Final(Apply(w, a), rest)) && !Unique(Final(Apply(w, a), rest).vm.resumed);
    var run := [a] + rest;
    assert run[1..] == rest;
    assert Legal(w, run);
  }

  /** A half-way release does break it, and a retry then resumes the first set twice. */
  lemma PartialReleaseResumesTwice()
    ensures CanResumeTwice(START)
  {
    var attach := Execute(Attach, Works(0));
    var half := Execute(Resume(Some(1)), ReleaseThrows(1, false));
    var retry := Execute(Resume(Some(1)), Works(0));
    var w1 := Apply(START, attach);
    var w2 := Apply(w1, Deliver(Stops(7)));
    var w3 := Apply(w2, Deliver(Stops(8)));
    var w4 := Apply(w3, half);
    var w5 := Apply(w4, retry);
    assert w4.held == [0, 1] && w4.vm.resumed == [0];
    assert w5.vm.resumed == [0, 0, 1];
    assert w5.vm.resumed[0] == w5.vm.resumed[1];
    assert Legal(w5, []) && Final(w5, []) == w5;
    ResumesTwiceAfter(w4, retry);
    ResumesTwiceAfter(w3, half);
    ResumesTwiceAfter(w2, Deliver(Stops(8)));
    ResumesTwiceAfter(w1, Deliver(Stops(7)));
    ResumesTwiceAfter(START, attach);
  }

  /** A command that names a handle succeeds only in the epoch that issued the handle. */
  lemma HandleAcceptedOnlyInItsEpoch(w: Worker, c: Command, native: Native)
    requires HandlesCurrent(w)
    ensures OnCommand(w, c, native).2 == Done ==>
      && (c.Stack? || c.Step? ==> Some(c.thread.epoch) == w.stopId == c.stop)
      && (c.Locals? ==> Some(c.frame.epoch) == w.stopId == c.stop)
  {
  }

  /** Once an epoch is over it never returns, so its handles are refused for ever after. */
  lemma {:induction false} EpochsNeverReturn(w: Worker, run: seq<Action>, epoch: nat)
    requires HandlesCurrent(w) && Legal(w, run)
    requires epoch <= w.epochs && w.stopId != Some(epoch)
    ensures HandlesCurrent(Final(w, run))
    ensures Final(w, run).stopId != Some(epoch)
    decreases |run|
  {
    if run != [] {
      ActionKeepsHandles(w, run[0]);
      EpochsNeverReturn(Apply(w, run[0]), run[1..], epoch);
    }
  }

  lemma CommandKeepsHandles(w: Worker, c: Command, native: Native)
    requires HandlesCurrent(w)
    ensures var r := OnCommand(w, c, native).0;
      HandlesCurrent(r) && r.epochs == w.epochs && (r.stopId.Some? ==> r.stopId == w.stopId)
      && (w.closed ==> r.closed)
  {
    if c.Stack? && c.thread in w.threads && ReadsFrames(native) {
      var end := Min(Min(native.frameCount, 1000), c.offset + c.limit);
      FramesAddedKeeps(w.frames, c.thread.epoch, c.thread.uid, c.offset, end, native);
    }
  }

  lemma ActionKeepsHandles(w: Worker, a: Action)
    requires HandlesCurrent(w) && Enabled(w, a)
    ensures HandlesCurrent(Apply(w, a))
    ensures w.epochs <= Apply(w, a).epochs
    ensures Apply(w, a).stopId.Some? ==> Apply(w, a).stopId == w.stopId || Apply(w, a).stopId.value > w.epochs
  {
    match a
    case Execute(c, native) => CommandKeepsHandles(w, c, native);
    case Deliver(e) => EventSetKeepsHandles(w, e);
    case Close(_) =>
  }

  lemma EventSetKeepsHandles(w: Worker, e: EventSet)
    requires HandlesCurrent(w) && !w.closed
    ensures var r := OnEventSet(w, e).0;
      && HandlesCurrent(r) && w.epochs <= r.epochs
      && (r.stopId.Some? ==> r.stopId == w.stopId || r.stopId.value > w.epochs)
  {
  }

  /** The worker object: every step it takes under its lock is the step above. */
  class DebuggerWorker {
    var attached: bool
    var closed: bool
    var stopId: Option<nat>
    var epochs: nat
    var held: seq<nat>
    var threads: set<Thread>
    var frames: set<Frame>
    var vm: Vm

    function View(): Worker reads this {
      Worker(attached, closed, stopId, epochs, held, threads, frames, vm)
    }

    constructor ()
      ensures View() == START
    {
      attached, closed, stopId, epochs := false, false, None, 0;
      held, threads, frames, vm := [], {}, {}, Vm(0, {}, []);
    }

    method Invalidate()
      modifies this
      ensures View() == Invalidated(old(View()))
    {
      stopId := None;
      frames := {};
      threads := {};
    }

    method Release(native: Native) returns (reply: Reply)
      modifies this
      ensures (View(), reply) == Released(old(View()), native)
    {
      var i := 0;
      while i < |held|
        invariant 0 <= i <= |held|
        invariant native.ReleaseThrows? ==> i <= native.resumed || |held| <= native.resumed
        invariant vm == ResumeAll(old(vm), held[..i])
        invariant View() == old(View()).(vm := vm)
      {
        if native.ReleaseThrows? && i == native.resumed {
          return Failed(Thrown(native));
        }
        ghost var before := held[..i];
        vm := ResumeAll(vm, [held[i]]);
        assert held[..i + 1] == before + [held[i]];
        i := i + 1;
      }
      assert held[..i] == held;
      held := [];
      Invalidate();
      reply := Done;
    }

    method Finish(reason: Reason) returns (sent: seq<Message>)
      modifies this
      ensures View() == Finished(old(View()))
      ensures sent == FinishMessages(old(View()), reason)
    {
      if closed {
        return [];
      }
      closed := true;
      held := [];
      Invalidate();
      sent := [Terminated(reason)];
    }

    method TakeEventSet(e: EventSet) returns (sent: seq<Message>)
      requires !closed
      modifies this
      ensures (View(), sent) == OnEventSet(old(View()), e)
    {
      var id := vm.delivered;
      vm := vm.(delivered := id + 1, suspended := vm.suspended + {id});
      match e
      case Death => sent := Finish(ProcessExit);
      case Unreadable => sent := Finish(TransportLost);
      case Silent => vm := ResumeAll(vm, [id]); sent := [];
      case Stops(uid) =>
        held := held + [id];
        if stopId.None? {
          epochs := epochs + 1;
          stopId := Some(epochs);
        }
        threads := threads + {Thread(stopId.value, uid)};
        sent := [Stopped(stopId.value)];
    }

    method AddFrames(epoch: nat, uid: nat, offset: nat, end: nat, native: Native) returns (reply: Reply)
      modifies this
      ensures (frames, reply) == FramesAdded(old(frames), epoch, uid, offset, end, native)
      ensures View() == old(View()).(frames := frames)
    {
      var i := offset;
      while i < end
        invariant FramesAdded(frames, epoch, uid, i, end, native)
               == FramesAdded(old(frames), epoch, uid, offset, end, native)
        invariant View() == old(View()).(frames := frames)
      {
        if native.FramesThrow? && i == native.at { return Failed(Thrown(native)); }
        var f := Frame(epoch, uid, i);
        if f !in frames && |frames| >= 1000 {
          return Failed(Busy);
        }
        frames := frames + {f};
        i := i + 1;
      }
      reply := if native.FramesThrow? then Failed(Thrown(native)) else Done;
    }

    method Run(c: Command, native: Native) returns (sent: seq<Message>, reply: Reply)
      modifies this
      ensures (View(), sent, reply) == OnCommand(old(View()), c, native)
    {
      sent := [];
      if c.Attach? {
        if attached { return [], Failed(Busy); }
        if native.Throws? { return [], Failed(Thrown(native)); }
        attached := true;
        return [], Done;
      }
      if c.Detach? {
        sent := Finish(Requested);
        return sent, Done;
      }
      if !attached || closed { return [], Failed(Disconnected); }
      if c.Plain? { return [], if native.Throws? then Failed(Thrown(native)) else Done; }
      if stopId.None? { return [], Failed(NotPaused); }
      if stopId != c.stop { return [], Failed(StaleReference); }
      match c
      case Stack(_, thread, offset, limit) =>
        if thread !in threads { return [], Failed(StaleReference); }
        if !ReadsFrames(native) { return [], Failed(Thrown(native)); }
        var end := Min(Min(native.frameCount, 1000), offset + limit);
        reply := AddFrames(thread.epoch, thread.uid, offset, end, native);
      case Locals(_, frame) =>
        if frame !in frames { return [], Failed(StaleReference); }
        if !native.Works? { return [], Failed(Thrown(native)); }
        reply := Done;
      case Resume(_) =>
        reply := Release(native);
      case Step(_, thread, knownKind) =>
        if thread !in threads { return [], Failed(StaleReference); }
        if !knownKind { return [], Failed(InvalidArgument); }
        if native.Throws? { return [], Failed(Thrown(native)); }
        reply := Release(native);
    }
  }
}
