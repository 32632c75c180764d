/** One owned xctrace session. */
module IosTrace {
  import opened Wrappers

  // Its steps are what runs between awaits, with every native call free to fail; the recorder and
  // the directory they are about are part of the state.

  datatype Phase = Starting | Recording | Stopping | Completed | Cancelled | Failed
  datatype Cleanup = Pending | Complete | CleanupFailed
  datatype Op = Status | Stop | Cancel | Duration

  datatype StartStage = MakeDirectory | Resolve | Launch
  datatype FinalStage = StopRecorder | Validate | RemoveDirectory | RemoveMarks | DiscardFiles

  /** Where the operation at the head of the session's serial queue waits.  `preserve`: the
      failure that led here stays the result. */
  datatype Run =
    | Idle
    | StartRun(stage: StartStage)
    | FinalRun(op: Op, preserve: bool, at: FinalStage)
    | PollRun

  /** `directory`, `app` and `recording` are set on the session; `alive`: the recorder runs;
      `dir`: the directory exists. */
  datatype Session = Session(
    phase: Phase, cleanup: Cleanup, directory: bool, app: bool, recording: bool, recorderOk: Option<bool>,
    artifact: bool, discard: bool, failures: nat, run: Run, alive: bool, dir: bool)

  const NEW := Session(Starting, Pending, false, false, false, None, false, false, 0, StartRun(MakeDirectory), false,
    false)

  // ---------- finalising ----------

  function Done(s: Session, preserve: bool): Session {
    s.(cleanup := Complete, run := Idle,
       phase := if preserve then s.phase else if s.discard then Cancelled else Completed)
  }

  /** Finalisation threw.  `storage`: the storage limit was the reason. */
  function Broken(s: Session, op: Op, preserve: bool, storage: bool): Session {
    var s' := s.(phase := Failed, cleanup := CleanupFailed);
    if !(s.discard || storage) || (s.recording && s.alive) then s'.(run := Idle)
    else if s.directory then s'.(run := FinalRun(op, preserve, DiscardFiles))
    else s'.(cleanup := Complete, run := Idle)
  }

  function FinishArtifact(s: Session, op: Op, preserve: bool): Session {
    if !s.discard && !s.artifact then
      if !s.recording || !s.app || s.recorderOk != Some(true) then Broken(s, op, preserve, false)
      else s.(run := FinalRun(op, preserve, Validate))
    else ReleaseFiles(s, op, preserve)
  }

  function ReleaseFiles(s: Session, op: Op, preserve: bool): Session {
    if s.directory then s.(run := FinalRun(op, preserve, if s.discard then RemoveDirectory else RemoveMarks))
    else Done(s, preserve)
  }

  function Finalise(s: Session, op: Op, preserve: bool): Session {
    var s' := s.(discard := s.discard || op == Cancel, phase := if preserve then s.phase else Stopping);
    if s.recording && s.recorderOk == None then s'.(run := FinalRun(op, preserve, StopRecorder))
    else FinishArtifact(s', op, preserve)
  }

  function Failing(s: Session): Session { Finalise(s.(phase := Failed, discard := true), Cancel, true) }

  // ---------- steps ----------

  datatype Action =
    | MadeDirectory(made: bool, ok: bool)                     // mkdtemp, then chmod
    | Resolved(found: bool, ok: bool)                         // not ok: not found, or closing
    | Launched(spawned: bool, ok: bool, alive: bool)
    | Ended(ended: bool, good: bool, limit: bool, late: bool, alive: bool)
    | Validated(ok: bool, storage: bool)
    | Removed(ok: bool)
    | Monitored(ok: bool, definitive: bool, late: bool)
    | Control(op: Op, late: bool)
    | Poll
    | RecorderExits

  /** Calls settle at their stage.  A recorder that started without error was spawned; one that
      is not reported as ended may still be alive. */
  predicate Enabled(s: Session, a: Action) {
    match a
    case MadeDirectory(made, ok) => s.run == StartRun(MakeDirectory) && (ok ==> made)
    case Resolved(found, ok) => s.run == StartRun(Resolve) && (ok ==> found)
    case Launched(spawned, ok, alive) => s.run == StartRun(Launch) && (ok ==> spawned) && (alive ==> spawned)
    case Ended(ended, _, _, _, alive) => s.run.FinalRun? && s.run.at == StopRecorder && (alive ==> s.alive && !ended)
    case Validated(_, _) => s.run.FinalRun? && s.run.at == Validate
    case Removed(_) => s.run.FinalRun? && s.run.at in {RemoveDirectory, RemoveMarks, DiscardFiles}
    case Monitored(_, _, _) => s.run.PollRun?
    case Control(_, _) => s.run.Idle?
    case Poll => s.run.Idle?
    case RecorderExits => true
  }

  function StartStep(s: Session, a: Action): Session
    requires s.run.StartRun?
  {
    match a
    case MadeDirectory(made, ok) =>
      var s' := s.(directory := made, dir := made);
      if ok then s'.(run := StartRun(Resolve)) else Failing(s')
    case Resolved(found, ok) =>
      var s' := s.(app := found);
      if ok then s'.(run := StartRun(Launch)) else Failing(s')
    case Launched(spawned, ok, alive) =>
      var s' := s.(recording := spawned, alive := alive);
      if ok then s'.(phase := Recording, run := Idle) else Failing(s')
    case _ => s
  }

  function FinalStep(s: Session, a: Action): Session
    requires s.run.FinalRun?
  {
    var FinalRun(op, preserve, at) := s.run;
    match a
    case Ended(ended, good, limit, late, alive) =>
      if !ended then Broken(s.(alive := alive), op, preserve, false)
      else
        var s' := s.(alive := false, recorderOk := Some(good));
        if !s.discard && (!good || (op == Duration && !limit && !late)) then Broken(s', op, preserve, false)
        else FinishArtifact(s', op, preserve)
    case Validated(ok, storage) =>
      if ok then ReleaseFiles(s.(artifact := true), op, preserve) else Broken(s, op, preserve, storage)
    case Removed(ok) =>
      if at == DiscardFiles then
        if ok then s.(dir := false, cleanup := Complete, run := Idle) else s.(run := Idle)
      else if !ok then Broken(s, op, preserve, false)
      else Done(if at == RemoveDirectory then s.(dir := false) else s, preserve)
    case _ => s
  }

  /** A third failed probe in a row, or a definitive one, ends the session. */
  function PollStep(s: Session, ok: bool, definitive: bool, late: bool): Session {
    var s' := s.(failures := if ok then 0 else s.failures + 1);
    EndPoll(s', !ok && (definitive || s'.failures >= 3), late)
  }

  function EndPoll(s: Session, failed: bool, late: bool): Session {
    if failed then Failing(s) else if late || !s.alive then Finalise(s, Duration, false) else s.(run := Idle)
  }

  function Controlled(s: Session, op: Op, late: bool): Session {
    if s.cleanup == Complete then s
    else if op == Status && s.phase == Recording && s.recording && s.alive && !late then s.(run := PollRun)
    else Finalise(s, if op == Status then Duration else op, false)
  }

  function Polled(s: Session): Session {
    if s.phase == Recording && s.recording && s.app then s.(run := PollRun) else s
  }

  function Apply(s: Session, a: Action): Session
    requires Enabled(s, a)
  {
    match a
    case RecorderExits => s.(alive := false)
    case Control(op, late) => Controlled(s, op, late)
    case Poll => Polled(s)
    case Monitored(ok, definitive, late) => PollStep(s, ok, definitive, late)
    case _ => if s.run.StartRun? then StartStep(s, a) else if s.run.FinalRun? then FinalStep(s, a) else s
  }

  // ---------- what every step keeps ----------

  predicate Held(s: Session) {
    && (s.alive ==> s.recording && s.recorderOk == None)
    && (s.dir ==> s.directory)
    && (s.recording ==> s.app && s.directory)
    && (s.recorderOk.Some? ==> s.recording)
    && (s.artifact ==> s.recorderOk == Some(true))
    && (s.directory && !s.discard && s.cleanup != Complete ==> s.dir)
  }

  predicate StageSound(s: Session) {
    match s.run
    case Idle => s.discard || s.recording
    case PollRun => s.phase == Recording && s.recording
    case StartRun(stage) =>
      && !s.recording && !s.artifact && !s.discard && s.phase == Starting && s.cleanup == Pending
      && (s.directory <==> stage != MakeDirectory) && (s.app <==> stage == Launch)
    case FinalRun(_, preserve, at) =>
      && s.cleanup != Complete && (s.discard || s.recording) && s.phase != Recording && (preserve ==> s.phase == Failed)
      && match at
         case StopRecorder => s.recording && s.recorderOk == None
         case Validate => !s.discard && !s.artifact && s.recorderOk == Some(true)
         case RemoveDirectory => s.discard && s.directory && !s.alive
         case RemoveMarks => !s.discard && s.artifact && s.directory
         case DiscardFiles => s.directory && !s.alive && (s.discard || !s.artifact) && s.cleanup == CleanupFailed
                              && s.phase == Failed
  }

  /** A complete session has no recorder, and a directory exactly when it keeps an artifact. */
  predicate Released(s: Session) {
    s.run.Idle? && !s.alive && (s.dir <==> s.artifact && !s.discard) && s.phase in {Completed, Cancelled, Failed}
  }

  predicate Inv(s: Session) {
    && Held(s)
    && StageSound(s)
    && (s.cleanup == Complete ==> Released(s))
  }

  predicate Settled(s: Session) { s.recording ==> s.recorderOk.Some? }

  predicate Closing(s: Session, preserve: bool) {
    && Held(s) && s.cleanup != Complete && s.phase != Recording && (s.discard || s.recording)
    && (preserve ==> s.phase == Failed)
  }

  lemma FinaliseKeepsInv(s: Session, op: Op)
    requires Held(s) && s.cleanup != Complete && (s.discard || s.recording)
    ensures Inv(Finalise(s, op, false))
  {
  }

  lemma FinalStepKeepsInv(s: Session, a: Action)
    requires Inv(s) && s.run.FinalRun? && Enabled(s, a)
    ensures Inv(Apply(s, a))
  {
  }

  lemma StartStepKeepsInv(s: Session, a: Action)
    requires Inv(s) && s.run.StartRun? && Enabled(s, a)
    ensures Inv(Apply(s, a))
  {
  }

  lemma PollStepKeepsInv(s: Session, ok: bool, definitive: bool, late: bool)
    requires Inv(s) && s.run.PollRun?
    ensures Inv(PollStep(s, ok, definitive, late))
  {
  }

  /** Every step keeps the invariant, and no step leaves a complete session. */
  lemma StepKeepsInv(s: Session, a: Action)
    requires Inv(s) && Enabled(s, a)
    ensures Inv(Apply(s, a))
    ensures s.cleanup == Complete ==> Apply(s, a) == s
  {
    if a.Control? {
      if s.cleanup != Complete { FinaliseKeepsInv(s, if a.op == Status then Duration else a.op); }
    } else if a.Monitored? {
      PollStepKeepsInv(s, a.ok, a.definitive, a.late);
    } else if s.run.FinalRun? {
      FinalStepKeepsInv(s, a);
    } else if s.run.StartRun? {
      StartStepKeepsInv(s, a);
    }
  }

  ghost predicate Legal(s: Session, run: seq<Action>)
    decreases |run|
  {
    run == [] || (Enabled(s, run[0]) && Legal(Apply(s, run[0]), run[1..]))
  }

  function Final(s: Session, run: seq<Action>): Session
    requires Legal(s, run)
    decreases |run|
  {
    if run == [] then s else Final(Apply(s, run[0]), run[1..])
  }

  lemma {:induction false} RunKeepsInv(s: Session, run: seq<Action>)
    requires Inv(s) && Legal(s, run)
    ensures Inv(Final(s, run))
    ensures s.cleanup == Complete ==> Final(s, run) == s
    decreases |run|
  {
    if run != [] {
      StepKeepsInv(s, run[0]);
      RunKeepsInv(Apply(s, run[0]), run[1..]);
    }
  }

  /** In every run: once complete, the recorder has exited, the owned directory is gone unless
      it holds the artifact, and nothing changes any more. */
  lemma CompleteIsFinal(run: seq<Action>, more: seq<Action>)
    requires Legal(NEW, run) && Final(NEW, run).cleanup == Complete && Legal(Final(NEW, run), more)
    ensures var end := Final(NEW, run);
      !end.alive && (end.dir <==> end.artifact && !end.discard) && Final(end, more) == end
  {
    RunKeepsInv(NEW, run);
    RunKeepsInv(Final(NEW, run), more);
  }

  // ---------- one operation with working native calls ----------

  /** The answer of a working native call at the current stage. */
  function Good(s: Session): Action
    requires s.run.FinalRun?
  {
    match s.run.at
    case StopRecorder => Ended(true, true, true, true, false)
    case Validate => Validated(true, false)
    case _ => Removed(true)
  }

  function Left(s: Session): nat {
    if !s.run.FinalRun? then 0
    else match s.run.at
      case StopRecorder => 3
      case Validate => 2
      case _ => 1
  }

  /** The session when every call of the operation under way works. */
  function Driven(s: Session): Session
    requires Inv(s)
    decreases Left(s)
  {
    if !s.run.FinalRun? then s else Driven(Apply(s, Good(s)))
  }

  lemma {:induction false} DrivenCompletes(s: Session)
    requires Inv(s) && (s.run.FinalRun? || s.cleanup == Complete)
    ensures Driven(s).cleanup == Complete
    ensures Inv(Driven(s))
    ensures Driven(s).discard == s.discard
    ensures s.discard ==> Driven(s).artifact == s.artifact
    ensures s.run.FinalRun? && s.run.at != DiscardFiles && !s.discard ==> Driven(s).artifact
    decreases Left(s)
  {
    if s.run.FinalRun? {
      DrivenCompletes(Apply(s, Good(s)));
    }
  }

  /** From every session at rest that is not complete, one cancel with working calls completes
      it, with the recorder exited and no files left. */
  lemma CancelCompletes(s: Session, late: bool)
    requires Inv(s) && s.run.Idle? && s.cleanup != Complete
    ensures Inv(Controlled(s, Cancel, late))
    ensures var end := Driven(Controlled(s, Cancel, late)); end.cleanup == Complete && !end.alive && !end.dir
  {
    DrivenCompletes(Controlled(s, Cancel, late));
  }

  /** A stop with working calls completes a recording with its artifact kept. */
  lemma StopKeepsArtifact(s: Session, late: bool)
    requires Inv(s) && s.run.Idle? && s.phase == Recording && !s.discard && s.cleanup != Complete
    requires s.recorderOk in {None, Some(true)}
    ensures Inv(Controlled(s, Stop, late))
    ensures var end := Driven(Controlled(s, Stop, late)); end.cleanup == Complete && end.artifact && end.dir
  {
    var s' := Controlled(s, Stop, late);
    assert s'.run.FinalRun? && s'.run.at != DiscardFiles;
    DrivenCompletes(Controlled(s, Stop, late));
  }

  lemma {:induction false} Extended(s: Session, run: seq<Action>, a: Action)
    requires Legal(s, run) && Enabled(Final(s, run), a)
    ensures Legal(s, run + [a])
    ensures Final(s, run + [a]) == Apply(Final(s, run), a)
    decreases |run|
  {
    if run == [] {
      assert [a][1..] == [];
    } else {
      assert (run + [a])[1..] == run[1..] + [a];
      Extended(Apply(s, run[0]), run[1..], a);
    }
  }

  /** A cancel that follows a stop which failed only after validation removes the directory but
      still reports the artifact that was in it. */
  lemma CancelLeavesDanglingArtifact() returns (run: seq<Action>)
    ensures Legal(NEW, run)
    ensures var s := Final(NEW, run); s.cleanup == Complete && s.artifact && !s.dir
  {
    run := [];
    Extended(NEW, run, MadeDirectory(true, true));
    run := run + [MadeDirectory(true, true)];
    Extended(NEW, run, Resolved(true, true));
    run := run + [Resolved(true, true)];
    Extended(NEW, run, Launched(true, true, true));
    run := run + [Launched(true, true, true)];
    Extended(NEW, run, Control(Stop, false));
    run := run + [Control(Stop, false)];
    Extended(NEW, run, Ended(true, true, true, false, false));
    run := run + [Ended(true, true, true, false, false)];
    Extended(NEW, run, Validated(true, false));
    run := run + [Validated(true, false)];
    Extended(NEW, run, Removed(false));
    run := run + [Removed(false)];
    Extended(NEW, run, Control(Cancel, false));
    run := run + [Control(Cancel, false)];
    Extended(NEW, run, Removed(true));
    run := run + [Removed(true)];
  }

  lemma DiscardStep(s: Session, a: Action)
    requires Inv(s) && s.discard && Enabled(s, a)
    ensures Apply(s, a).discard && Apply(s, a).artifact == s.artifact
  {
  }

  /** Discarding never ends, and leaves the reported artifact as it is. */
  lemma {:induction false} DiscardKeepsReport(s: Session, run: seq<Action>)
    requires Inv(s) && s.discard && Legal(s, run)
    ensures Inv(Final(s, run)) && Final(s, run).discard && Final(s, run).artifact == s.artifact
    decreases |run|
  {
    if run != [] {
      StepKeepsInv(s, run[0]);
      DiscardStep(s, run[0]);
      DiscardKeepsReport(Apply(s, run[0]), run[1..]);
    }
  }

  /** Exactly when a cancel leaves an artifact reported whose directory is gone: when one was
      reported before.  So it is when all calls work, and in every run to a complete session,
      whatever fails and is tried again on the way. */
  lemma CancelLeavesDanglingExactly(s: Session, late: bool, run: seq<Action>)
    requires Inv(s) && s.run.Idle? && s.cleanup != Complete
    requires Legal(Controlled(s, Cancel, late), run)
    ensures Inv(Controlled(s, Cancel, late))
    ensures var end := Driven(Controlled(s, Cancel, late)); end.artifact && !end.dir <==> s.artifact
    ensures var end := Final(Controlled(s, Cancel, late), run);
      end.cleanup == Complete ==> (end.artifact && !end.dir <==> s.artifact)
  {
    FinaliseKeepsInv(s, Cancel);
    CancelCompletes(s, late);
    DrivenCompletes(Controlled(s, Cancel, late));
    DiscardKeepsReport(Controlled(s, Cancel, late), run);
  }

  // ---------- the session object ----------

  class IosTraceSession {
    var phase: Phase
    var cleanup: Cleanup
    var directory: bool
    var app: bool
    var recording: bool
    var recorderOk: Option<bool>
    var artifact: bool
    var discard: bool
    var failures: nat
    var run: Run
    var alive: bool
    var dir: bool

    function View(): Session reads this {
      Session(phase, cleanup, directory, app, recording, recorderOk, artifact, discard, failures, run, alive, dir)
    }

    constructor ()
      ensures View() == NEW
    {
      phase, cleanup, run := Starting, Pending, StartRun(MakeDirectory);
      directory, app, recording, recorderOk, artifact, discard := false, false, false, None, false, false;
      failures, alive, dir := 0, false, false;
    }

    method BeginFinalise(op: Op, preserve: bool)
      modifies this
      ensures View() == Finalise(old(View()), op, preserve)
    {
      if op == Cancel { discard := true; }
      if !preserve { phase := Stopping; }
      if recording && recorderOk == None {
        run := FinalRun(op, preserve, StopRecorder);
      } else {
        BeginArtifact(op, preserve);
      }
    }

    method BeginArtifact(op: Op, preserve: bool)
      modifies this
      ensures View() == FinishArtifact(old(View()), op, preserve)
    {
      if discard || artifact {
        BeginRelease(op, preserve);
      } else if !recording || !app || recorderOk != Some(true) {
        FailFinalise(op, preserve, false);
      } else {
        run := FinalRun(op, preserve, Validate);
      }
    }

    method BeginRelease(op: Op, preserve: bool)
      modifies this
      ensures View() == ReleaseFiles(old(View()), op, preserve)
    {
      if directory {
        run := FinalRun(op, preserve, if discard then RemoveDirectory else RemoveMarks);
      } else {
        EndFinalise(preserve);
      }
    }

    method EndFinalise(preserve: bool)
      modifies this
      ensures View() == Done(old(View()), preserve)
    {
      cleanup := Complete;
      run := Idle;
      if !preserve { phase := if discard then Cancelled else Completed; }
    }

    method FailFinalise(op: Op, preserve: bool, storage: bool)
      modifies this
      ensures View() == Broken(old(View()), op, preserve, storage)
    {
      phase := Failed;
      cleanup := CleanupFailed;
      run := Idle;
      if (discard || storage) && !(recording && alive) {
        if directory { run := FinalRun(op, preserve, DiscardFiles); } else { cleanup := Complete; }
      }
    }

    method FailAndDiscard()
      modifies this
      ensures View() == Failing(old(View()))
    {
      phase := Failed;
      discard := true;
      BeginFinalise(Cancel, true);
    }

    method ContinueMakeDirectory(made: bool, ok: bool)
      requires run.StartRun?
      modifies this
      ensures View() == StartStep(old(View()), MadeDirectory(made, ok))
    {
      directory := made;
      dir := made;
      if ok { run := StartRun(Resolve); } else { FailAndDiscard(); }
    }

    method ContinueResolve(found: bool, ok: bool)
      requires run.StartRun?
      modifies this
      ensures View() == StartStep(old(View()), Resolved(found, ok))
    {
      app := found;
      if ok { run := StartRun(Launch); } else { FailAndDiscard(); }
    }

    method ContinueLaunch(spawned: bool, ok: bool, running: bool)
      requires run.StartRun?
      modifies this
      ensures View() == StartStep(old(View()), Launched(spawned, ok, running))
    {
      recording := spawned;
      alive := running;
      if ok {
        phase := Recording;
        run := Idle;
      } else {
        FailAndDiscard();
      }
    }

    method ContinueRecorder(ended: bool, good: bool, limit: bool, late: bool, running: bool)
      requires run.FinalRun?
      modifies this
      ensures View() == FinalStep(old(View()), Ended(ended, good, limit, late, running))
    {
      var FinalRun(op, preserve, _) := run;
      if !ended {
        alive := running;
        FailFinalise(op, preserve, false);
        return;
      }
      alive := false;
      recorderOk := Some(good);
      if !discard && (!good || (op == Duration && !limit && !late)) {
        FailFinalise(op, preserve, false);
      } else {
        BeginArtifact(op, preserve);
      }
    }

    method ContinueValidate(ok: bool, storage: bool)
      requires run.FinalRun?
      modifies this
      ensures View() == FinalStep(old(View()), Validated(ok, storage))
    {
      var FinalRun(op, preserve, _) := run;
      if ok {
        artifact := true;
        BeginRelease(op, preserve);
      } else {
        FailFinalise(op, preserve, storage);
      }
    }

    method ContinueRemove(ok: bool)
      requires run.FinalRun?
      modifies this
      ensures View() == FinalStep(old(View()), Removed(ok))
    {
      var FinalRun(op, preserve, at) := run;
      if at == DiscardFiles {
        run := Idle;
        if ok {
          dir := false;
          cleanup := Complete;
        }
      } else if ok {
        if at == RemoveDirectory { dir := false; }
        EndFinalise(preserve);
      } else {
        FailFinalise(op, preserve, false);
      }
    }

    method ContinuePoll(ok: bool, definitive: bool, late: bool)
      modifies this
      ensures View() == PollStep(old(View()), ok, definitive, late)
    {
      var missed := if ok then 0 else failures + 1;
      CountProbe(missed);
      FinishPoll(!ok && (definitive || missed >= 3), late);
    }

    method CountProbe(missed: nat)
      modifies this
      ensures View() == old(View()).(failures := missed)
    {
      failures := missed;
    }

    method FinishPoll(failed: bool, late: bool)
      modifies this
      ensures View() == EndPoll(old(View()), failed, late)
    {
      if failed {
        FailAndDiscard();
      } else if late || !alive {
        BeginFinalise(Duration, false);
      } else {
        run := Idle;
      }
    }

    method BeginPoll()
      modifies this
      ensures View() == Polled(old(View()))
    {
      if phase == Recording && recording && app { run := PollRun; }
    }

    method BeginControl(op: Op, late: bool)
      modifies this
      ensures View() == Controlled(old(View()), op, late)
    {
      if cleanup == Complete { return; }
      if op == Status && phase == Recording && recording && alive && !late {
        run := PollRun;
      } else {
        BeginFinalise(if op == Status then Duration else op, false);
      }
    }
  }
}
