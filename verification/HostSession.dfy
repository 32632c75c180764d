/** The host side of one debugger session. */
module HostSession {
  import opened Wrappers
  import EventFeed
  import J = JdiWorker

  // The session has a state and a serial queue of tasks.  A step is what runs between two awaits
  // of attach, command or cleanup; worker events, timers and shutdown requests may run between
  // any two of these steps.

  datatype Platform = Android | Ios

  datatype State = Attaching | Running | Paused | Detaching | Detached | Disconnected | Failed

  datatype Event = Stopped(stop: nat) | Terminated(reason: J.Reason) | WorkerFailed | Other

  datatype Command =
    | DetachCommand
    | StateCommand
    | BreakpointCommand(wellFormed: bool)      // set and remove
    | StopCommand(call: J.Command)             // stack, locals, step and resume

  /** How a worker call settles. */
  datatype Outcome = Replied | Rejected(code: J.Code) | TimedOut | Cancelled

  datatype Resource = WorkerProcess | ForwardedPort(port: nat)
  datatype Cleanup = Pending | Complete | CleanupFailed

  datatype Task = AttachTask | CleanupTask(requestDetach: bool) | CommandTask(command: Command)

  datatype AttachStage = Prerequisite | Resolving | Forwarding | Starting | Confirming | Calling | Identifying

  /** One awaited step of attach.  `Late`: the native call took effect, then the deadline passed. */
  datatype StageOutcome = Good(port: nat) | Late(port: nat) | Bad

  datatype CleanStage = RequestingDetach | Closing | Unforwarding

  datatype Pause = Pause(state: State, stop: Option<nat>, pausedAt: Option<int>)

  /** The task at the head of the serial queue, at the await it has reached. */
  datatype Run =
    | Idle
    | AttachRun(stage: AttachStage)
    | CleanRun(at: CleanStage, terminal: State, left: seq<Resource>)
    | CommandRun(command: Command, previous: Pause)

  datatype Host = Host(
    state: State, stop: Option<nat>, pausedAt: Option<int>,
    worker: bool, port: Option<nat>, target: bool,
    cleanup: Cleanup, remaining: seq<Resource>, timer: bool,
    run: Run, queue: seq<Task>, feed: EventFeed.Feed<Event>)

  const NEW := Host(Attaching, None, None, false, None, false, Pending, [], false,
                    Idle, [AttachTask], EventFeed.Empty())

  predicate Over(s: State) { s in {Detaching, Detached, Disconnected, Failed} }

  function Queued(h: Host, t: Task): Host { h.(queue := h.queue + [t]) }

  function TerminalState(e: Event): State {
    if e.WorkerFailed? then Failed
    else if e.Terminated? && e.reason in {J.ProcessExit, J.TransportLost} then Disconnected
    else Detached
  }

  function OnEvent(h: Host, e: Event, now: int): Host {
    if h.cleanup == Complete then h
    else
      var h' :=
        if h.run.CleanRun? then h
        else if e.Stopped? then
          h.(state := Paused, stop := Some(e.stop), pausedAt := if h.pausedAt.Some? then h.pausedAt else Some(now))
        else if e.Terminated? || e.WorkerFailed? then
          Queued(h.(state := TerminalState(e), stop := None), CleanupTask(false))
        else h;
      h'.(feed := EventFeed.Push(h.feed, e))
  }

  // ---------- cleanup ----------

  function FinishCleanup(h: Host, terminal: State, left: seq<Resource>): Host {
    h.(feed := EventFeed.Clear(h.feed), cleanup := if left == [] then Complete else CleanupFailed,
       remaining := left, state := terminal, run := Idle)
  }

  function ReleasePort(h: Host, terminal: State, left: seq<Resource>): Host {
    if h.port.Some? && h.target then h.(run := CleanRun(Unforwarding, terminal, left))
    else FinishCleanup(h, terminal, left)
  }

  function BeginCleanup(h: Host, requestDetach: bool): Host {
    var terminal := if h.state in {Failed, Disconnected} then h.state else Detached;
    var h' := h.(timer := false, state := Detaching, stop := None, pausedAt := None);
    if h.worker then h'.(run := CleanRun(if requestDetach then RequestingDetach else Closing, terminal, []))
    else ReleasePort(h', terminal, [])
  }

  function CleanupStep(h: Host, ok: bool): Host
    requires h.run.CleanRun?
  {
    var CleanRun(at, terminal, left) := h.run;
    match at
    case RequestingDetach => h.(run := CleanRun(Closing, terminal, left))
    case Closing =>
      if ok then ReleasePort(h.(worker := false), terminal, left)
      else ReleasePort(h, terminal, left + [WorkerProcess])
    case Unforwarding =>
      if ok then FinishCleanup(h.(port := None), terminal, left)
      else FinishCleanup(h, terminal, left + (if h.port.Some? then [ForwardedPort(h.port.value)] else []))
  }

  // ---------- attach ----------

  function FailAttach(h: Host): Host { BeginCleanup(h.(state := Failed), true) }

  function AttachStep(h: Host, platform: Platform, o: StageOutcome): Host
    requires h.run.AttachRun?
  {
    match h.run.stage
    case Prerequisite => if o.Good? then h.(run := AttachRun(Resolving)) else FailAttach(h)
    case Resolving =>
      if !o.Good? then FailAttach(h)
      else h.(target := true, run := AttachRun(if platform == Android then Forwarding else Starting))
    case Forwarding =>
      if o.Bad? then FailAttach(h)
      else if o.Late? then FailAttach(h.(port := Some(o.port)))
      else h.(port := Some(o.port), remaining := h.remaining + [ForwardedPort(o.port)], run := AttachRun(Starting))
    case Starting =>
      if o.Bad? then FailAttach(h)
      else if o.Late? then FailAttach(h.(worker := true))
      else h.(worker := true, remaining := h.remaining + [WorkerProcess],
              run := AttachRun(if platform == Ios then Confirming else Calling))
    case Confirming => if o.Good? then h.(run := AttachRun(Calling)) else FailAttach(h)
    case Calling => if o.Good? then h.(run := AttachRun(Identifying)) else FailAttach(h)
    case Identifying =>
      if !o.Good? then FailAttach(h)
      else
        var h' := if h.state == Attaching then h.(state := Running) else h;
        if h'.state in {Failed, Disconnected, Detached} then FailAttach(h')
        else h'.(timer := true, run := Idle)
  }

  // ---------- commands ----------

  predicate Moves(c: Command) { c.StopCommand? && (c.call.Step? || c.call.Resume?) }

  function StopOf(c: J.Command): Option<nat> {
    match c
    case Stack(stop, _, _, _) => stop
    case Locals(stop, _) => stop
    case Resume(stop) => stop
    case Step(stop, _, _) => stop
    case _ => None
  }

  predicate TargetAccepts(h: Host, c: Command) {
    && h.worker && !Over(h.state)
    && (c.BreakpointCommand? ==> c.wellFormed)
    && (c.StopCommand? ==> StopOf(c.call) == h.stop && h.state == Paused)
  }

  function BeginCommand(h: Host, c: Command): Host {
    if c.DetachCommand? then
      if h.cleanup != Complete then BeginCleanup(h, true) else h
    else if c.StateCommand? && (h.cleanup == Complete || Over(h.state)) then h
    else if !TargetAccepts(h, c) then h
    else
      var previous := Pause(h.state, h.stop, h.pausedAt);
      var h' := if Moves(c) then h.(state := Running, stop := None, pausedAt := None) else h;
      h'.(run := CommandRun(c, previous))
  }

  predicate RollsBack(o: Outcome) { o == Rejected(J.InvalidArgument) || o == Rejected(J.StaleReference) }

  /** The pause given up for a rejected step or resume comes back, unless a stop arrived. */
  function RolledBack(h: Host, o: Outcome): Host
    requires h.run.CommandRun?
  {
    var p := h.run.previous;
    if Moves(h.run.command) && h.state == Running && h.stop == None && RollsBack(o) then
      h.(run := Idle, state := p.state, stop := p.stop, pausedAt := p.pausedAt)
    else h.(run := Idle)
  }

  /** Errors after which what the worker did is unknown. */
  predicate EndsSession(c: Command, o: Outcome) {
    (Moves(c) || c.BreakpointCommand?) && (o.TimedOut? || o.Cancelled? || o == Rejected(J.WorkerFailed))
  }

  function EndCommand(h: Host, o: Outcome): Host
    requires h.run.CommandRun?
  {
    var h' := RolledBack(h, o);
    if o.Replied? then h.(run := Idle)
    else if o == Rejected(J.Disconnected) then BeginCleanup(h'.(state := Disconnected), false)
    else if EndsSession(h.run.command, o) then BeginCleanup(h'.(state := Failed), true)
    else h'
  }

  // ---------- the queue ----------

  function StartTask(h: Host): Host
    requires h.run.Idle? && h.queue != []
  {
    var t, h' := h.queue[0], h.(queue := h.queue[1..]);
    match t
    case AttachTask => h'.(run := AttachRun(Prerequisite))
    case CleanupTask(requestDetach) => BeginCleanup(h', requestDetach)
    case CommandTask(c) => BeginCommand(h', c)
  }

  datatype Action =
    | Receive(event: Event, now: int)
    | Start
    | Attach(outcome: StageOutcome)
    | Clean(ok: bool)
    | Settle(result: Outcome)
    | Request(command: Command)
    | TimerFires                   // the one-second timer found an expired limit
    | Shutdown

  predicate Enabled(h: Host, a: Action) {
    match a
    case Start => h.run.Idle? && h.queue != []
    case Attach(_) => h.run.AttachRun?
    case Clean(_) => h.run.CleanRun?
    case Settle(_) => h.run.CommandRun?
    case TimerFires => h.timer
    case _ => true
  }

  function Apply(h: Host, platform: Platform, a: Action): Host
    requires Enabled(h, a)
  {
    match a
    case Receive(e, now) => OnEvent(h, e, now)
    case Start => StartTask(h)
    case Attach(o) => AttachStep(h, platform, o)
    case Clean(ok) => CleanupStep(h, ok)
    case Settle(o) => EndCommand(h, o)
    case Request(c) => Queued(h, CommandTask(c))
    case TimerFires => Queued(h, CleanupTask(true))
    case Shutdown => if h.cleanup != Complete then Queued(h, CleanupTask(true)) else h
  }

  // ---------- what every step keeps ----------

  predicate Untouched(h: Host) { !h.worker && h.port.None? && h.cleanup == Pending && h.run.Idle? && !h.timer }

  /** `paused` holds exactly when `stop` is set, with the pause clock running; resources are
      held only where cleanup will look for them. */
  ghost predicate Inv(h: Host) {
    && (h.state == Paused <==> h.stop.Some?)
    && (h.state == Paused ==> h.pausedAt.Some?)
    && (h.run.CommandRun? ==>
          && (h.run.previous.state == Paused <==> h.run.previous.stop.Some?)
          && (h.run.previous.state == Paused ==> h.run.previous.pausedAt.Some?)
          && (Moves(h.run.command) ==> h.run.previous.stop.Some? && h.run.previous.stop == StopOf(h.run.command.call))
          && h.cleanup != Complete)
    && (h.port.Some? ==> h.target)
    && (h.cleanup == Complete ==> !h.worker && h.port.None? && !h.timer)
    && (h.cleanup == CleanupFailed && !h.run.CleanRun? ==> h.remaining == Held(h) != [])
    && (h.run.AttachRun? ==> h.cleanup == Pending && !h.timer)
    && (h.run.AttachRun? && h.run.stage !in {Prerequisite, Resolving} ==> h.target)
    && (h.run.CleanRun? ==> ResourcesTracked(h))
    && QueueSound(h)
  }

  ghost predicate NoAttach(q: seq<Task>) { AttachTask !in q }

  /** Attach is the first task of a session and never queued again. */
  ghost predicate QueueSound(h: Host) {
    h.queue != [] ==> NoAttach(h.queue[1..]) && (h.queue[0].AttachTask? ==> Untouched(h))
  }

  lemma QueuedKeepsInv(h: Host, t: Task)
    requires Inv(h) && !t.AttachTask?
    ensures Inv(Queued(h, t))
  {
  }

  function Held(h: Host): seq<Resource> {
    (if h.worker then [WorkerProcess] else []) + (if h.port.Some? then [ForwardedPort(h.port.value)] else [])
  }

  /** While cleaning: a resource is still to be tried, released, or listed as left. */
  ghost predicate ResourcesTracked(h: Host)
    requires h.run.CleanRun?
  {
    && !h.timer && h.stop.None? && h.state == Detaching && h.cleanup != Complete
    && h.run.terminal in {Failed, Disconnected, Detached}
    && (h.run.at == Unforwarding ==> h.port.Some?)
    && (h.run.at != Unforwarding ==> h.worker)
    && h.run.left == if h.run.at == Unforwarding && h.worker then [WorkerProcess] else []
  }

  lemma BeginCleanupKeepsInv(h: Host, requestDetach: bool)
    requires h.port.Some? ==> h.target
    requires h.cleanup == Complete ==> !h.worker && h.port.None?
    requires NoAttach(h.queue)
    ensures Inv(BeginCleanup(h, requestDetach))
    ensures h.cleanup == Complete ==> BeginCleanup(h, requestDetach).cleanup == Complete
  {
  }

  lemma BusyQueueHasNoAttach(h: Host)
    requires QueueSound(h) && !h.run.Idle?
    ensures NoAttach(h.queue)
  {
  }

  lemma RolledBackKeepsInv(h: Host, o: Outcome)
    requires Inv(h) && h.run.CommandRun?
    ensures Inv(RolledBack(h, o))
  {
  }

  lemma EndCommandKeepsInv(h: Host, o: Outcome)
    requires Inv(h) && h.run.CommandRun?
    ensures Inv(EndCommand(h, o))
  {
    BusyQueueHasNoAttach(h);
    RolledBackKeepsInv(h, o);
    if o == Rejected(J.Disconnected) {
      BeginCleanupKeepsInv(RolledBack(h, o).(state := Disconnected), false);
    } else if EndsSession(h.run.command, o) {
      BeginCleanupKeepsInv(RolledBack(h, o).(state := Failed), true);
    }
  }

  lemma AttachStepKeepsInv(h: Host, platform: Platform, o: StageOutcome)
    requires Inv(h) && h.run.AttachRun?
    ensures Inv(AttachStep(h, platform, o))
  {
    BusyQueueHasNoAttach(h);
    match h.run.stage
    case Forwarding =>
      if o.Late? { BeginCleanupKeepsInv(h.(port := Some(o.port), state := Failed), true); }
      else if o.Bad? { BeginCleanupKeepsInv(h.(state := Failed), true); }
    case Starting =>
      if o.Late? { BeginCleanupKeepsInv(h.(worker := true, state := Failed), true); }
      else if o.Bad? { BeginCleanupKeepsInv(h.(state := Failed), true); }
    case _ =>
      BeginCleanupKeepsInv(h.(state := Failed), true);
  }

  lemma BeginCommandKeepsInv(h: Host, c: Command)
    requires Inv(h) && h.run.Idle? && NoAttach(h.queue)
    ensures Inv(BeginCommand(h, c))
    ensures h.cleanup == Complete ==> BeginCommand(h, c).cleanup == Complete
  {
  }

  lemma StartKeepsInv(h: Host)
    requires Inv(h) && h.run.Idle? && h.queue != []
    ensures Inv(StartTask(h))
    ensures h.cleanup == Complete ==> StartTask(h).cleanup == Complete
  {
    var h' := h.(queue := h.queue[1..]);
    assert h'.queue != [] ==> h'.queue == [h'.queue[0]] + h'.queue[1..];
    match h.queue[0]
    case AttachTask =>
    case CleanupTask(requestDetach) => BeginCleanupKeepsInv(h', requestDetach);
    case CommandTask(c) => BeginCommandKeepsInv(h', c);
  }

  lemma FedKeepsInv(h: Host, e: Event)
    requires Inv(h)
    ensures Inv(h.(feed := EventFeed.Push(h.feed, e)))
  {
  }

  lemma StoppedKeepsInv(h: Host, stop: nat, at: int)
    requires Inv(h) && h.cleanup != Complete && !h.run.CleanRun?
    ensures Inv(h.(state := Paused, stop := Some(stop), pausedAt := Some(at)))
  {
  }

  lemma EndedKeepsInv(h: Host, state: State)
    requires Inv(h) && h.cleanup != Complete && !h.run.CleanRun? && state in {Failed, Disconnected, Detached}
    ensures Inv(Queued(h.(state := state, stop := None), CleanupTask(false)))
  {
    QueuedKeepsInv(h.(state := state, stop := None), CleanupTask(false));
  }

  lemma EventKeepsInv(h: Host, e: Event, now: int)
    requires Inv(h)
    ensures Inv(OnEvent(h, e, now)) && OnEvent(h, e, now).cleanup == h.cleanup
  {
    if h.cleanup != Complete {
      if h.run.CleanRun? {
        FedKeepsInv(h, e);
      } else if e.Stopped? {
        var at := if h.pausedAt.Some? then h.pausedAt.value else now;
        StoppedKeepsInv(h, e.stop, at);
        FedKeepsInv(h.(state := Paused, stop := Some(e.stop), pausedAt := Some(at)), e);
      } else if e.Terminated? || e.WorkerFailed? {
        EndedKeepsInv(h, TerminalState(e));
        FedKeepsInv(Queued(h.(state := TerminalState(e), stop := None), CleanupTask(false)), e);
      } else {
        FedKeepsInv(h, e);
      }
    }
  }

  lemma CleanupStepKeepsInv(h: Host, ok: bool)
    requires Inv(h) && h.run.CleanRun?
    ensures Inv(CleanupStep(h, ok)) && h.cleanup != Complete
  {
  }

  /** Every step keeps the invariant, and `complete` is never left. */
  lemma StepKeepsInv(h: Host, platform: Platform, a: Action)
    requires Inv(h) && Enabled(h, a)
    ensures Inv(Apply(h, platform, a))
    ensures h.cleanup == Complete ==> Apply(h, platform, a).cleanup == Complete
  {
    match a
    case Receive(e, now) => EventKeepsInv(h, e, now);
    case Start => StartKeepsInv(h);
    case Attach(o) => AttachStepKeepsInv(h, platform, o);
    case Clean(ok) => CleanupStepKeepsInv(h, ok);
    case Settle(o) => EndCommandKeepsInv(h, o);
    case Request(c) => QueuedKeepsInv(h, CommandTask(c));
    case TimerFires => QueuedKeepsInv(h, CleanupTask(true));
    case Shutdown => QueuedKeepsInv(h, CleanupTask(true));
  }

  // ---------- runs of one session ----------

  ghost predicate Legal(h: Host, platform: Platform, actions: seq<Action>)
    decreases |actions|
  {
    actions == [] || (Enabled(h, actions[0]) && Legal(Apply(h, platform, actions[0]), platform, actions[1..]))
  }

  function Final(h: Host, platform: Platform, actions: seq<Action>): Host
    requires Legal(h, platform, actions)
    decreases |actions|
  {
    if actions == [] then h else Final(Apply(h, platform, actions[0]), platform, actions[1..])
  }

  lemma {:induction false} RunKeepsInv(h: Host, platform: Platform, actions: seq<Action>)
    requires Inv(h) && Legal(h, platform, actions)
    ensures Inv(Final(h, platform, actions))
    ensures h.cleanup == Complete ==> Final(h, platform, actions).cleanup == Complete
    decreases |actions|
  {
    if actions != [] {
      StepKeepsInv(h, platform, actions[0]);
      RunKeepsInv(Apply(h, platform, actions[0]), platform, actions[1..]);
    }
  }

  /** In every interleaving of attach, worker events, timers, commands and shutdown: a
      complete cleanup leaves no worker, port or timer, a failed one lists exactly what is
      still held, and `paused` holds exactly when a stop is recorded. */
  lemma SessionLeaksNothing(platform: Platform, actions: seq<Action>)
    requires Legal(NEW, platform, actions)
    ensures var h := Final(NEW, platform, actions);
      && (h.cleanup == Complete ==> !h.worker && h.port.None? && !h.timer)
      && (h.cleanup == CleanupFailed && !h.run.CleanRun? ==> h.remaining == Held(h) != [])
      && (h.state == Paused <==> h.stop.Some?)
      && (h.state == Paused ==> h.pausedAt.Some?)
  {
    RunKeepsInv(NEW, platform, actions);
  }

  /** The pause clock keeps its start over every step that leaves the session paused. */
  lemma PauseClockNeverRestarts(h: Host, platform: Platform, a: Action)
    requires Inv(h) && Enabled(h, a)
    requires h.state == Paused && Apply(h, platform, a).state == Paused
    ensures Apply(h, platform, a).pausedAt == h.pausedAt
  {
    match a
    case Start =>
    case Attach(o) => AttachKeepsClock(h, platform, o);
    case Settle(o) => SettleKeepsClock(h, o);
    case _ =>
  }

  lemma AttachKeepsClock(h: Host, platform: Platform, o: StageOutcome)
    requires h.run.AttachRun? && h.state == Paused
    ensures var r := AttachStep(h, platform, o); r.state == Paused ==> r.pausedAt == h.pausedAt
  {
  }

  lemma SettleKeepsClock(h: Host, o: Outcome)
    requires h.run.CommandRun? && h.state == Paused
    ensures var r := EndCommand(h, o); r.state == Paused ==> r.pausedAt == h.pausedAt
  {
    var h' := RolledBack(h, o);
    assert h'.pausedAt == h.pausedAt;
  }

  /** From every state with nothing running, one detach whose native calls succeed completes
      the cleanup. */
  lemma DetachReleases(h: Host)
    requires Inv(h) && h.run.Idle? && h.cleanup != Complete
    ensures Cleaned(BeginCommand(h, DetachCommand)).cleanup == Complete
  {
    var h1 := BeginCommand(h, DetachCommand);
    if h.worker {
      var h2 := CleanupStep(h1, true);
      var h3 := CleanupStep(h2, true);
      assert Cleaned(h1) == Cleaned(h2) == Cleaned(h3);
      assert Cleaned(h3).cleanup == Complete;
    }
  }

  /** The rest of a cleanup when every awaited call succeeds. */
  function Cleaned(h: Host): Host
    decreases if h.run.CleanRun?
      then (match h.run.at case RequestingDetach => 3 case Closing => 2 case Unforwarding => 1) else 0
  {
    if h.run.CleanRun? then Cleaned(CleanupStep(h, true)) else h
  }

  // ---------- the session object ----------

  class DebuggerSession {
    const platform: Platform
    var state: State
    var stop: Option<nat>
    var pausedAt: Option<int>
    var worker: bool
    var port: Option<nat>
    var target: bool
    var cleanup: Cleanup
    var remaining: seq<Resource>
    var timer: bool
    var run: Run
    var queue: seq<Task>
    var events: seq<EventFeed.Entry<Event>>
    var sequence: nat

    function View(): Host reads this {
      Host(state, stop, pausedAt, worker, port, target, cleanup, remaining, timer, run, queue,
           EventFeed.Feed(events, sequence))
    }

    constructor (platform: Platform)
      ensures View() == NEW && this.platform == platform
    {
      this.platform := platform;
      state, stop, pausedAt := Attaching, None, None;
      worker, port, target, timer := false, None, false, false;
      cleanup, remaining, run, queue := Pending, [], Idle, [AttachTask];
      events, sequence := [], 0;
    }

    method Serial(t: Task)
      modifies this
      ensures View() == Queued(old(View()), t)
    {
      queue := queue + [t];
    }

    method Receive(e: Event, now: int)
      modifies this
      ensures View() == OnEvent(old(View()), e, now)
    {
      if cleanup == Complete { return; }
      if e.Stopped? && !run.CleanRun? {
        state := Paused;
        stop := Some(e.stop);
        if pausedAt.None? { pausedAt := Some(now); }
      }
      if (e.Terminated? || e.WorkerFailed?) && !run.CleanRun? {
        state := TerminalState(e);
        stop := None;
        Serial(CleanupTask(false));
      }
      Push(e);
    }

    method Push(e: Event)
      modifies this`events, this`sequence
      ensures EventFeed.Feed(events, sequence) == EventFeed.Push(old(EventFeed.Feed(events, sequence)), e)
    {
      sequence := sequence + 1;
      events := events + [EventFeed.Entry(sequence, e)];
      if |events| > EventFeed.RETAINED { events := events[1..]; }
    }

    method StartCleanup(requestDetach: bool)
      modifies this
      ensures View() == BeginCleanup(old(View()), requestDetach)
    {
      var terminal := if state in {Failed, Disconnected} then state else Detached;
      timer := false;
      state := Detaching;
      stop := None;
      pausedAt := None;
      if worker {
        run := CleanRun(if requestDetach then RequestingDetach else Closing, terminal, []);
      } else {
        StartUnforwarding(terminal, []);
      }
    }

    method StartUnforwarding(terminal: State, left: seq<Resource>)
      modifies this
      ensures View() == ReleasePort(old(View()), terminal, left)
    {
      if port.Some? && target {
        run := CleanRun(Unforwarding, terminal, left);
      } else {
        EndCleanup(terminal, left);
      }
    }

    method EndCleanup(terminal: State, left: seq<Resource>)
      modifies this
      ensures View() == FinishCleanup(old(View()), terminal, left)
    {
      events := [];
      cleanup := if left == [] then Complete else CleanupFailed;
      remaining := left;
      state := terminal;
      run := Idle;
    }

    /** The awaited call of the running cleanup settled. */
    method ContinueCleanup(ok: bool)
      requires run.CleanRun?
      modifies this
      ensures View() == CleanupStep(old(View()), ok)
    {
      var CleanRun(at, terminal, left) := run;
      match at
      case RequestingDetach =>
        run := CleanRun(Closing, terminal, left);
      case Closing =>
        if ok {
          worker := false;
          StartUnforwarding(terminal, left);
        } else {
          StartUnforwarding(terminal, left + [WorkerProcess]);
        }
      case Unforwarding =>
        var kept := left;
        if ok {
          port := None;
        } else if port.Some? {
          kept := kept + [ForwardedPort(port.value)];
        }
        EndCleanup(terminal, kept);
    }

    /** The awaited stage of the running attach settled. */
    method ContinueAttach(o: StageOutcome)
      requires run.AttachRun?
      modifies this
      ensures View() == AttachStep(old(View()), platform, o)
    {
      if o.Good? {
        AdvanceAttach(o.port);
      } else {
        if o.Late? && run.stage == Forwarding { port := Some(o.port); }
        if o.Late? && run.stage == Starting { worker := true; }
        state := Failed;
        StartCleanup(true);
      }
    }

    method AdvanceAttach(port: nat)
      requires run.AttachRun?
      modifies this
      ensures View() == AttachStep(old(View()), platform, Good(port))
    {
      match run.stage
      case Prerequisite => run := AttachRun(Resolving);
      case Resolving =>
        target := true;
        run := AttachRun(if platform == Android then Forwarding else Starting);
      case Forwarding =>
        this.port := Some(port);
        remaining := remaining + [ForwardedPort(port)];
        run := AttachRun(Starting);
      case Starting =>
        worker := true;
        remaining := remaining + [WorkerProcess];
        run := AttachRun(if platform == Ios then Confirming else Calling);
      case Confirming => run := AttachRun(Calling);
      case Calling => run := AttachRun(Identifying);
      case Identifying =>
        if state == Attaching { state := Running; }
        if state in {Failed, Disconnected, Detached} {
          state := Failed;
          StartCleanup(true);
        } else {
          timer := true;
          run := Idle;
        }
    }

    method ExecuteCommand(c: Command)
      modifies this
      ensures View() == BeginCommand(old(View()), c)
    {
      if c.DetachCommand? {
        if cleanup != Complete { StartCleanup(true); }
        return;
      }
      if c.StateCommand? && (cleanup == Complete || Over(state)) { return; }
      if !TargetAccepts(View(), c) { return; }
      var previous := Pause(state, stop, pausedAt);
      if Moves(c) {
        state := Running;
        stop := None;
        pausedAt := None;
      }
      run := CommandRun(c, previous);
    }

    /** The awaited worker call of the running command settled. */
    method ContinueCommand(o: Outcome)
      requires run.CommandRun?
      modifies this
      ensures View() == EndCommand(old(View()), o)
    {
      var CommandRun(c, previous) := run;
      run := Idle;
      if o.Replied? { return; }
      if Moves(c) && state == Running && stop == None && RollsBack(o) {
        state, stop, pausedAt := previous.state, previous.stop, previous.pausedAt;
      }
      if o == Rejected(J.Disconnected) {
        state := Disconnected;
        StartCleanup(false);
      } else if EndsSession(c, o) {
        state := Failed;
        StartCleanup(true);
      }
    }

    method TakeTask()
      requires run.Idle? && queue != []
      modifies this
      ensures View() == StartTask(old(View()))
    {
      var t := queue[0];
      queue := queue[1..];
      match t
      case AttachTask => run := AttachRun(Prerequisite);
      case CleanupTask(requestDetach) => StartCleanup(requestDetach);
      case CommandTask(c) => ExecuteCommand(c);
    }
  }
}
