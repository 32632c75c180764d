/** One owned Perfetto session. */
module AndroidTrace {
  import opened Wrappers

  // Its steps are what runs between awaits, with every adb and file call free to fail; the device
  // process and the files they are about are part of the state.

  datatype Phase = Starting | Recording | Stopping | Completed | Cancelled | Failed
  datatype Cleanup = Pending | Complete | CleanupFailed
  datatype Op = Status | Stop | Cancel | Duration

  /** A device process: its pid and start time. */
  datatype Process = Process(pid: nat, startTime: nat)

  datatype Stage =
    | Find | Signal | Recheck | Await           // halt
    | MakeDirectory | Pull | DropDirectory      // artifact
    | RemoveRemote | RemoveLocal                // remove

  /** Where the operation at the head of the session's serial queue waits.  `starting`: the
      clean-up of a failed start.  `startFailed`: the start had failed before. */
  datatype Run =
    | Idle
    | Probing | Spawning | Owning               // start
    | Checking(op: Op)                          // status
    | Ending(starting: bool, startFailed: bool, at: Stage)

  /** `local` is set on the session; `process`, `file` and `dir` are what exists. */
  datatype Session = Session(
    phase: Phase, cleanup: Cleanup, owner: Option<Process>, stopped: bool, discard: bool, local: bool, artifact: bool,
    run: Run, process: Option<Process>, file: bool, dir: bool)

  const NEW := Session(Starting, Pending, None, true, false, false, false, Probing, None, false, false)

  // ---------- the end of a capture ----------

  function Clean(s: Session): Session { s.(cleanup := Complete, run := Idle) }

  /** An error ends the operation; a failed start keeps its own reason. */
  function Broken(s: Session, starting: bool): Session {
    s.(cleanup := CleanupFailed, run := Idle, phase := if starting then s.phase else Failed)
  }

  function Halted(s: Session, starting: bool, startFailed: bool): Session {
    AfterHalt(s.(stopped := true), starting, startFailed)
  }

  function AfterHalt(s: Session, starting: bool, startFailed: bool): Session {
    if starting || s.discard || s.artifact then s.(run := Ending(starting, startFailed, RemoveRemote))
    else s.(run := Ending(starting, startFailed, if s.local then Pull else MakeDirectory))
  }

  function Halt(s: Session, starting: bool, startFailed: bool): Session {
    if s.stopped then AfterHalt(s, starting, startFailed) else s.(run := Ending(starting, startFailed, Find))
  }

  function Finished(s: Session, starting: bool, startFailed: bool): Session {
    Clean(s.(phase := if starting then s.phase
                      else if startFailed then Failed else if s.discard then Cancelled else Completed))
  }

  function FailedStart(s: Session): Session { Halt(s.(discard := true, phase := Failed), true, false) }

  // ---------- steps ----------

  datatype Action =
    | Probed(usable: bool)  // capabilities; not usable: failed, unsupported or closing
    | Spawned(ok: bool, process: Option<Process>, file: bool)
    | Found(ok: bool, late: bool)                               // find; `late`: the deadline or budget has passed
    | Signalled(ok: bool, exits: bool)
    | Made(ok: bool)
    | Pulled(ok: bool)
    | Dropped(ok: bool, gone: bool)
    | Removed(ok: bool, gone: bool)
    | Control(op: Op)
    | ProcessExits
    | ProcessChanges(other: Process)                            // another process is found in its place

  predicate Enabled(s: Session, a: Action) {
    match a
    case Probed(_) => s.run == Probing
    case Spawned(_, _, _) => s.run == Spawning
    case Found(_, _) => s.run == Owning || s.run.Checking? || (s.run.Ending? && s.run.at in {Find, Recheck, Await})
    case Signalled(_, _) => s.run.Ending? && s.run.at == Signal
    case Made(_) => s.run.Ending? && s.run.at == MakeDirectory
    case Pulled(ok) => s.run.Ending? && s.run.at == Pull && (ok ==> s.dir)
    case Dropped(ok, gone) => s.run.Ending? && s.run.at == DropDirectory && (ok ==> gone)
    case Removed(ok, gone) => s.run.Ending? && s.run.at in {RemoveRemote, RemoveLocal} && (ok ==> gone)
    case Control(_) => s.run.Idle?
    case ProcessExits => true
    case ProcessChanges(_) => s.process.Some?
  }

  function StartStep(s: Session, a: Action): Session {
    match a
    case Probed(usable) => if usable then s.(stopped := false, run := Spawning) else Clean(s.(phase := Failed))
    case Spawned(ok, process, file) =>
      var s' := s.(process := process, file := file);
      if ok then s'.(run := Owning) else FailedStart(s')
    case Found(ok, _) =>
      if ok then s.(owner := s.process, phase := Recording, run := Idle) else FailedStart(s)
    case _ => s
  }

  function Proceed(s: Session, op: Op): Session {
    var discard := s.discard || op == Cancel;
    var startFailed := discard && s.phase == Failed && op != Cancel;
    Halt(s.(discard := discard, phase := Stopping, cleanup := Pending), false, startFailed)
  }

  function Controlled(s: Session, op: Op): Session {
    if s.cleanup == Complete then s
    else if op == Status && s.phase == Recording then s.(run := Checking(op))
    else Proceed(s, op)
  }

  function Checked(s: Session, ok: bool, late: bool): Session
    requires s.run.Checking?
  {
    if !ok then Broken(s, false)
    else if s.process.Some? && !late then s.(run := Idle)
    else Proceed(s, s.run.op)
  }

  function HaltStep(s: Session, a: Action): Session
    requires s.run.Ending?
  {
    var Ending(starting, startFailed, at) := s.run;
    match a
    case Found(ok, late) =>
      if !ok then Broken(s, starting)
      else if s.process == None && at == Recheck then s.(run := Ending(starting, startFailed, Await))
      else if s.process == None then Halted(s, starting, startFailed)
      else if at == Find then
        if s.owner.Some? && s.owner != s.process then Broken(s, starting)
        else s.(owner := s.process, run := Ending(starting, startFailed, Signal))
      else if at == Recheck || late then Broken(s, starting)
      else s
    case Signalled(ok, exits) =>
      s.(process := if exits then None else s.process,
        run := Ending(starting, startFailed, if ok then Await else Recheck))
    case _ => s
  }

  function FileStep(s: Session, a: Action): Session
    requires s.run.Ending?
  {
    var Ending(starting, startFailed, at) := s.run;
    match a
    case Made(ok) =>
      if ok then s.(local := true, dir := true, run := Ending(starting, startFailed, Pull)) else Broken(s, starting)
    case Pulled(ok) =>
      if ok then s.(artifact := true, run := Ending(starting, startFailed, RemoveRemote))
      else s.(run := Ending(starting, startFailed, DropDirectory))
    case Dropped(ok, gone) =>
      Broken(s.(dir := s.dir && !gone, local := s.local && !ok), starting)
    case Removed(ok, gone) =>
      if at == RemoveRemote then
        var s' := s.(file := s.file && !gone);
        if !ok then Broken(s', starting)
        else if s.local && !s.artifact then s'.(run := Ending(starting, startFailed, RemoveLocal))
        else Finished(s', starting, startFailed)
      else
        var s' := s.(dir := s.dir && !gone, local := s.local && !ok);
        if ok then Finished(s', starting, startFailed) else Broken(s', starting)
    case _ => s
  }

  function Apply(s: Session, a: Action): Session
    requires Enabled(s, a)
  {
    match a
    case ProcessExits => s.(process := None)
    case ProcessChanges(other) => s.(process := Some(other))
    case Control(op) => Controlled(s, op)
    case Found(ok, late) =>
      if s.run.Checking? then Checked(s, ok, late)
      else if s.run.Ending? then HaltStep(s, a)
      else StartStep(s, a)
    case Signalled(_, _) => HaltStep(s, a)
    case Probed(_) => StartStep(s, a)
    case Spawned(_, _, _) => StartStep(s, a)
    case _ => FileStep(s, a)
  }

  // ---------- what every step keeps ----------

  predicate Held(s: Session) {
    && (s.stopped ==> s.process == None)
    && (s.dir ==> s.local)
    && (s.artifact ==> s.stopped && s.local && s.dir)
  }

  predicate StageSound(s: Session) {
    match s.run
    case Idle => true
    case Probing => s.stopped && !s.file && !s.dir && !s.artifact && !s.discard
    case Spawning => !s.stopped && !s.file && !s.dir && !s.artifact && s.process == None && !s.discard
    case Owning => !s.stopped && !s.dir && !s.artifact && !s.discard
    case Checking(op) => s.phase == Recording && op == Status
    case Ending(starting, _, at) =>
      && (starting ==> s.discard && s.phase == Failed)
      && match at
         case Find => !s.stopped
         case Signal => !s.stopped
         case Recheck => !s.stopped
         case Await => !s.stopped
         case MakeDirectory => s.stopped && !s.artifact && !s.local && !s.discard
         case Pull => s.stopped && !s.artifact && s.local && !s.discard
         case DropDirectory => s.stopped && !s.artifact && s.local && !s.discard
         case RemoveRemote => s.stopped && (s.discard || s.artifact)
         case RemoveLocal => s.stopped && !s.file && !s.artifact && s.local && s.discard
  }

  /** A complete session has no process and no remote file, and a local directory exactly when
      it keeps an artifact. */
  predicate Released(s: Session) {
    s.run.Idle? && s.process == None && !s.file && (s.dir <==> s.artifact) && s.phase in {Completed, Cancelled, Failed}
  }

  predicate Inv(s: Session) {
    && Held(s)
    && StageSound(s)
    && (s.cleanup == Complete ==> Released(s))
  }

  predicate EndSound(s: Session, starting: bool) {
    Held(s) && (starting ==> s.discard && s.phase == Failed) && s.cleanup != Complete
  }

  lemma BrokenKeepsInv(s: Session, starting: bool)
    requires Held(s)
    ensures Inv(Broken(s, starting))
  {
  }

  lemma HaltKeepsInv(s: Session, starting: bool, startFailed: bool)
    requires EndSound(s, starting)
    ensures Inv(Halt(s, starting, startFailed))
    ensures s.process == None ==> Inv(Halted(s, starting, startFailed))
  {
  }

  lemma ProceedKeepsInv(s: Session, op: Op)
    requires Held(s)
    ensures Inv(Proceed(s, op))
  {
  }

  lemma HaltStepKeepsInv(s: Session, a: Action)
    requires Inv(s) && s.run.Ending? && Enabled(s, a) && (a.Found? || a.Signalled?)
    ensures Inv(HaltStep(s, a))
  {
    BrokenKeepsInv(s, s.run.starting);
    HaltKeepsInv(s, s.run.starting, s.run.startFailed);
  }

  lemma StartStepKeepsInv(s: Session, a: Action)
    requires Inv(s) && s.run in {Probing, Spawning, Owning} && Enabled(s, a)
    ensures Inv(Apply(s, a))
  {
  }

  lemma FileStepKeepsInv(s: Session, a: Action)
    requires Inv(s) && s.run.Ending? && Enabled(s, a) && (a.Made? || a.Pulled? || a.Dropped? || a.Removed?)
    ensures Inv(FileStep(s, a))
  {
  }

  /** Every step keeps the invariant, and no step leaves a complete session. */
  lemma StepKeepsInv(s: Session, a: Action)
    requires Inv(s) && Enabled(s, a)
    ensures Inv(Apply(s, a))
    ensures s.cleanup == Complete ==> Apply(s, a) == s
  {
    if a.Control? {
      ProceedKeepsInv(s, a.op);
    } else if s.run.Checking? {
      ProceedKeepsInv(s, s.run.op);
    } else if s.run.Ending? && (a.Found? || a.Signalled?) {
      HaltStepKeepsInv(s, a);
    } else if s.run.Ending? && (a.Made? || a.Pulled? || a.Dropped? || a.Removed?) {
      FileStepKeepsInv(s, a);
    } else if s.run in {Probing, Spawning, Owning} {
      StartStepKeepsInv(s, a);
    }
  }

  ghost predicate Legal(s: Session, run: seq<Action>)
    decreases |run|
  {
    run == [] || (Enabled(s, run[0]) && Legal(Apply(s, run[0]), run[1..]))
  }

  function Final(s: Session, run: seq<Action>): Session
    requires Legal(s, run)
    decreases |run|
  {
    if run == [] then s else Final(Apply(s, run[0]), run[1..])
  }

  lemma {:induction false} RunKeepsInv(s: Session, run: seq<Action>)
    requires Inv(s) && Legal(s, run)
    ensures Inv(Final(s, run))
    ensures s.cleanup == Complete ==> Final(s, run) == s
    decreases |run|
  {
    if run != [] {
      StepKeepsInv(s, run[0]);
      RunKeepsInv(Apply(s, run[0]), run[1..]);
    }
  }

  /** In every run: once complete, the capture process is gone, the device file is removed, the
      local directory is gone unless it holds the artifact, and nothing changes any more. */
  lemma CompleteIsFinal(run: seq<Action>, more: seq<Action>)
    requires Legal(NEW, run) && Final(NEW, run).cleanup == Complete && Legal(Final(NEW, run), more)
    ensures var end := Final(NEW, run);
      end.process == None && !end.file && (end.dir <==> end.artifact) && Final(end, more) == end
  {
    RunKeepsInv(NEW, run);
    RunKeepsInv(Final(NEW, run), more);
  }

  // ---------- one cancel with working native calls ----------

  /** The answer of a working call at the current stage; a signalled process exits. */
  function Good(s: Session): Action
    requires s.run.Ending?
  {
    match s.run.at
    case Signal => Signalled(true, true)
    case Await => if s.process.Some? then ProcessExits else Found(true, false)
    case MakeDirectory => Made(true)
    case Pull => Pulled(s.dir)
    case DropDirectory => Dropped(true, true)
    case RemoveRemote => Removed(true, true)
    case RemoveLocal => Removed(true, true)
    case _ => Found(true, false)
  }

  function Left(s: Session): nat {
    if !s.run.Ending? then 0
    else match s.run.at
      case Find => 9
      case Signal => 8
      case Recheck => 7
      case Await => if s.process.Some? then 6 else 5
      case MakeDirectory => 4
      case Pull => 3
      case DropDirectory => 2
      case RemoveRemote => 2
      case RemoveLocal => 1
  }

  predicate Identified(s: Session) { s.owner.Some? && s.process.Some? ==> s.owner == s.process }

  lemma GoodAdvances(s: Session)
    requires Inv(s) && s.run.Ending?
    ensures Enabled(s, Good(s)) && Left(Apply(s, Good(s))) < Left(s) && Inv(Apply(s, Good(s)))
  {
    StepKeepsInv(s, Good(s));
  }

  /** The session when every call of the operation under way works. */
  function Driven(s: Session): Session
    requires Inv(s)
    decreases Left(s)
  {
    if !s.run.Ending? then s else GoodAdvances(s); Driven(Apply(s, Good(s)))
  }

  lemma {:induction false} DiscardDrivenCompletes(s: Session)
    requires Inv(s) && s.run.Ending? && !s.run.starting && s.discard && s.run.at != Recheck
    requires s.run.at == Find ==> Identified(s)
    ensures Inv(Driven(s)) && Driven(s).cleanup == Complete
    decreases Left(s)
  {
    GoodAdvances(s);
    if Apply(s, Good(s)).cleanup != Complete { DiscardDrivenCompletes(Apply(s, Good(s))); }
  }

  /** From every session at rest that is not complete, one cancel with working calls completes
      it exactly when the process found, if any, is the one the session owns. */
  lemma CancelCompletesExactly(s: Session)
    requires Inv(s) && s.run.Idle? && s.cleanup != Complete
    ensures Inv(Controlled(s, Cancel))
    ensures var end := Driven(Controlled(s, Cancel));
      && (end.cleanup == Complete <==> Identified(s))
      && (end.cleanup == Complete ==> Released(end))
  {
    ProceedKeepsInv(s, Cancel);
    var s' := Controlled(s, Cancel);
    if Identified(s) {
      DiscardDrivenCompletes(s');
    } else {
      assert Good(s') == Found(true, false) && Apply(s', Good(s')) == Broken(s', false);
    }
  }

  /** At rest after a failed cleanup, with another process in the place of the one it owns. */
  predicate Displaced(s: Session) { s.run.Idle? && s.cleanup == CleanupFailed && !Identified(s) }

  ghost predicate CanBeDisplaced(s: Session) {
    exists run: seq<Action> :: Legal(s, run) && Displaced(Final(s, run))
  }

  lemma DisplacedAfter(s: Session, a: Action)
    requires Enabled(s, a) && CanBeDisplaced(Apply(s, a))
    ensures CanBeDisplaced(s)
  {
    var rest: seq<Action> :| Legal(Apply(s, a), rest) && Displaced(Final(Apply(s, a), rest));
    var run := [a] + rest;
    assert run[1..] == rest;
    assert Legal(s, run);
  }

  /** Such a session is reachable: an adb error ends the first stop, and meanwhile the process
      has been replaced. */
  lemma ForeignProcessReached()
    ensures CanBeDisplaced(NEW)
  {
    var spawned, replaced := Spawned(true, Some(Process(1, 1)), true), ProcessChanges(Process(1, 2));
    var s1 := Apply(NEW, Probed(true));
    var s2 := Apply(s1, spawned);
    var s3 := Apply(s2, Found(true, false));
    var s4 := Apply(s3, Control(Stop));
    var s5 := Apply(s4, Found(false, false));
    var s6 := Apply(s5, replaced);
    assert Displaced(s6) && Legal(s6, []) && Final(s6, []) == s6;
    DisplacedAfter(s5, replaced);
    DisplacedAfter(s4, Found(false, false));
    DisplacedAfter(s3, Control(Stop));
    DisplacedAfter(s2, Found(true, false));
    DisplacedAfter(s1, spawned);
    DisplacedAfter(NEW, Probed(true));
  }

  // ---------- the session object ----------

  class SystemTraceSession {
    var phase: Phase
    var cleanup: Cleanup
    var owner: Option<Process>
    var stopped: bool
    var discard: bool
    var local: bool
    var artifact: bool
    var run: Run
    var process: Option<Process>
    var file: bool
    var dir: bool

    function View(): Session reads this {
      Session(phase, cleanup, owner, stopped, discard, local, artifact, run, process, file, dir)
    }

    constructor ()
      ensures View() == NEW
    {
      phase, cleanup, owner, run := Starting, Pending, None, Probing;
      stopped, discard, local, artifact := true, false, false, false;
      process, file, dir := None, false, false;
    }

    method BeginHalt(starting: bool, startFailed: bool)
      modifies this
      ensures View() == Halt(old(View()), starting, startFailed)
    {
      if stopped { BeginFiles(starting, startFailed); } else { run := Ending(starting, startFailed, Find); }
    }

    method BeginFiles(starting: bool, startFailed: bool)
      modifies this
      ensures View() == AfterHalt(old(View()), starting, startFailed)
    {
      if starting || discard || artifact {
        run := Ending(starting, startFailed, RemoveRemote);
      } else {
        run := Ending(starting, startFailed, if local then Pull else MakeDirectory);
      }
    }

    method Break(starting: bool)
      modifies this
      ensures View() == Broken(old(View()), starting)
    {
      cleanup := CleanupFailed;
      run := Idle;
      if !starting { phase := Failed; }
    }

    method Finish(starting: bool, startFailed: bool)
      modifies this
      ensures View() == Finished(old(View()), starting, startFailed)
    {
      if !starting { phase := if startFailed then Failed else if discard then Cancelled else Completed; }
      cleanup := Complete;
      run := Idle;
    }

    method ContinueStart(a: Action)
      requires a.Probed? || a.Spawned? || a.Found?
      modifies this
      ensures View() == StartStep(old(View()), a)
    {
      match a
      case Probed(usable) =>
        if usable {
          stopped := false;
          run := Spawning;
        } else {
          phase := Failed;
          cleanup := Complete;
          run := Idle;
        }
      case Spawned(ok, started, written) =>
        process := started;
        file := written;
        if ok { run := Owning; } else { FailStart(); }
      case Found(ok, _) =>
        if ok {
          owner := process;
          phase := Recording;
          run := Idle;
        } else {
          FailStart();
        }
    }

    method FailStart()
      modifies this
      ensures View() == FailedStart(old(View()))
    {
      discard := true;
      phase := Failed;
      assert View() == old(View()).(discard := true, phase := Failed);
      BeginHalt(true, false);
    }

    method Prepare(op: Op)
      modifies this
      ensures View() == Proceed(old(View()), op)
    {
      if op == Cancel { discard := true; }
      var startFailed := discard && phase == Failed && op != Cancel;
      phase := Stopping;
      cleanup := Pending;
      assert View() == old(View()).(discard := discard, phase := Stopping, cleanup := Pending);
      BeginHalt(false, startFailed);
    }

    method BeginControl(op: Op)
      modifies this
      ensures View() == Controlled(old(View()), op)
    {
      if cleanup == Complete { return; }
      if op == Status && phase == Recording { run := Checking(op); } else { Prepare(op); }
    }

    method ContinueStatus(ok: bool, late: bool)
      requires run.Checking?
      modifies this
      ensures View() == Checked(old(View()), ok, late)
    {
      if !ok {
        Break(false);
      } else if process.Some? && !late {
        run := Idle;
      } else {
        Prepare(run.op);
      }
    }

    method ContinueFind(ok: bool, late: bool)
      requires run.Ending?
      modifies this
      ensures View() == HaltStep(old(View()), Found(ok, late))
    {
      var Ending(starting, startFailed, at) := run;
      if !ok {
        Break(starting);
      } else if process == None {
        if at == Recheck {
          run := Ending(starting, startFailed, Await);
        } else {
          stopped := true;
          BeginFiles(starting, startFailed);
        }
      } else if at == Find {
        if owner.Some? && owner != process {
          Break(starting);
        } else {
          owner := process;
          run := Ending(starting, startFailed, Signal);
        }
      } else if at == Recheck || late {
        Break(starting);
      }
    }

    method ContinueSignal(ok: bool, exits: bool)
      requires run.Ending?
      modifies this
      ensures View() == HaltStep(old(View()), Signalled(ok, exits))
    {
      var Ending(starting, startFailed, _) := run;
      if exits { process := None; }
      run := Ending(starting, startFailed, if ok then Await else Recheck);
    }

    method ContinueArtifact(a: Action)
      requires run.Ending? && (a.Made? || a.Pulled? || a.Dropped?)
      modifies this
      ensures View() == FileStep(old(View()), a)
    {
      var Ending(starting, startFailed, _) := run;
      match a
      case Made(ok) =>
        if ok {
          local := true;
          dir := true;
          run := Ending(starting, startFailed, Pull);
        } else {
          Break(starting);
        }
      case Pulled(ok) =>
        if ok { artifact := true; }
        run := Ending(starting, startFailed, if ok then RemoveRemote else DropDirectory);
      case Dropped(ok, gone) =>
        if gone { dir := false; }
        if ok { local := false; }
        Break(starting);
    }

    method ContinueRemoveRemote(ok: bool, gone: bool)
      requires run.Ending? && run.at == RemoveRemote
      modifies this
      ensures View() == FileStep(old(View()), Removed(ok, gone))
    {
      var Ending(starting, startFailed, _) := run;
      if gone { file := false; }
      if !ok {
        Break(starting);
      } else if local && !artifact {
        run := Ending(starting, startFailed, RemoveLocal);
      } else {
        Finish(starting, startFailed);
      }
    }

    method ContinueRemoveLocal(ok: bool, gone: bool)
      requires run.Ending? && run.at == RemoveLocal
      modifies this
      ensures View() == FileStep(old(View()), Removed(ok, gone))
    {
      var Ending(starting, startFailed, _) := run;
      if gone { dir := false; }
      if ok { local := false; }
      if ok { Finish(starting, startFailed); } else { Break(starting); }
    }
  }
}
