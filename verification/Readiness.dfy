/** The readiness tracker: when the screen counts as settled and the device as able to take
    input.  Samples of the screen and probes of the device may arrive in any order; what the
    tracker shows after them is characterised by conditions on the whole log, in terms of its
    events alone. */
module Readiness {
  import opened Wrappers

  datatype Wake = Awake | Asleep | Transitioning | UnknownWake     // unsupported counts as unknown
  datatype Lock = Locked | Unlocked | UnknownLock

  datatype Shown = Unknown | Loading | Changing | Settled | DebuggerPaused

  datatype Event =
    | Sample(signature: int, loading: bool, now: int)    // a valid tree
    | Bad                                                // a failed or invalid one
    | PausedSample                                       // skipped, the app is paused in the debugger
    | Probe(wake: Wake, lock: Lock, paused: bool)

  /** `blocked`: the last probe left the device unable to take input. */
  datatype Tracker = Tracker(signature: Option<int>, since: int, shown: Shown, stableFor: int,
                             wake: Wake, lock: Lock, blocked: bool)

  const NEW := Tracker(None, 0, Unknown, 0, UnknownWake, UnknownLock, false)

  predicate Ready(t: Tracker) { t.shown == Settled && !t.blocked }

  function Max(a: int, b: int): int { if a < b then b else a }

  function Observed(t: Tracker, signature: int, loading: bool, now: int, stability: int): Tracker {
    var same := t.signature == Some(signature);
    var since := if !same || loading then now else t.since;
    var stableFor := if same && !loading then Max(0, now - since) else 0;
    var shown :=
      if loading then Loading else if t.signature == None then Unknown else if !same then Changing
      else if stableFor >= stability then Settled else Unknown;
    t.(signature := Some(signature), since := since, shown := shown, stableFor := stableFor)
  }

  function Missed(t: Tracker): Tracker { t.(signature := None, shown := Unknown, stableFor := 0) }

  /** An unknown verdict keeps a blocking one. */
  function KeptWake(previous: Wake, next: Wake): Wake {
    if next == UnknownWake && previous in {Asleep, Transitioning} then previous else next
  }

  function KeptLock(previous: Lock, next: Lock): Lock {
    if next == UnknownLock && previous == Locked then previous else next
  }

  predicate Blocks(wake: Wake, lock: Lock, paused: bool) { wake in {Asleep, Transitioning} || lock == Locked || paused }

  function Probed(t: Tracker, wake: Wake, lock: Lock, paused: bool): Tracker {
    var w, l := KeptWake(t.wake, wake), KeptLock(t.lock, lock);
    var t' := t.(wake := w, lock := l, blocked := Blocks(w, l, paused));
    if t'.blocked then t'.(signature := None, since := 0, shown := Unknown, stableFor := 0) else t'
  }

  function Apply(t: Tracker, e: Event, stability: int): Tracker {
    match e
    case Sample(signature, loading, now) => Observed(t, signature, loading, now, stability)
    case Bad => Missed(t)
    case PausedSample => t.(shown := DebuggerPaused, stableFor := 0)
    case Probe(wake, lock, paused) => Probed(t, wake, lock, paused)
  }

  function After(log: seq<Event>, stability: int): Tracker {
    if log == [] then NEW else Apply(After(log[..|log| - 1], stability), log[|log| - 1], stability)
  }

  // ---------- verdicts, read off the log ----------

  /** The last definite verdict on the device's wakefulness, if any. */
  function LastWake(log: seq<Event>): Wake {
    if log == [] then UnknownWake
    else
      var e := log[|log| - 1];
      if e.Probe? && e.wake != UnknownWake then e.wake else LastWake(log[..|log| - 1])
  }

  function LastLock(log: seq<Event>): Lock {
    if log == [] then UnknownLock
    else
      var e := log[|log| - 1];
      if e.Probe? && e.lock != UnknownLock then e.lock else LastLock(log[..|log| - 1])
  }

  /** However many unknown probes follow, the tracker shows a wake or lock blocker exactly when
      the last definite verdict was that blocker. */
  lemma {:induction false} BlockerIsLastVerdict(log: seq<Event>, stability: int)
    ensures var t := After(log, stability);
      && (t.wake == Asleep <==> LastWake(log) == Asleep)
      && (t.wake == Transitioning <==> LastWake(log) == Transitioning)
      && (t.lock == Locked <==> LastLock(log) == Locked)
  {
    if log != [] { BlockerIsLastVerdict(log[..|log| - 1], stability); }
  }

  /** What the last probe said of the device. */
  predicate InputBlocked(log: seq<Event>) {
    && log != []
    && var e := log[|log| - 1];
       if e.Probe? then Blocks(LastWake(log), LastLock(log), e.paused) else InputBlocked(log[..|log| - 1])
  }

  lemma {:induction false} BlockedExactly(log: seq<Event>, stability: int)
    ensures After(log, stability).blocked <==> InputBlocked(log)
  {
    if log != [] {
      BlockedExactly(log[..|log| - 1], stability);
      BlockerIsLastVerdict(log, stability);
    }
  }

  // ---------- the window, read off the log ----------

  /** Event `k` does not disturb a screen that looks like `signature`. */
  predicate Fits(log: seq<Event>, k: nat, signature: int)
    requires k < |log|
  {
    match log[k]
    case Sample(s, loading, _) => s == signature && !loading
    case Bad => false
    case PausedSample => true
    case Probe(_, _, _) => !InputBlocked(log[..k + 1])
  }

  ghost predicate Window(log: seq<Event>, i: nat) {
    && i < |log| && log[i].Sample?
    && forall k: nat :: i < k < |log| ==> Fits(log, k, log[i].signature)
  }

  /** Event `k` is a probe that leaves the summary as it is. */
  predicate Clear(log: seq<Event>, k: nat)
    requires k < |log|
  {
    log[k].Probe? && !InputBlocked(log[..k + 1])
  }

  /** Event `m` is the sample whose summary is still shown. */
  ghost predicate Shows(log: seq<Event>, m: nat) {
    m < |log| && log[m].Sample? && forall k: nat :: m < k < |log| ==> Clear(log, k)
  }

  /** A run of samples that look alike, none loading after the first, over at least the
      stability time, not broken by a failed sample or a blocked probe. */
  ghost predicate Steady(log: seq<Event>, stability: int) {
    exists i: nat, m: nat :: Window(log, i) && Shows(log, m) && i < m && log[m].now - log[i].now >= stability
  }

  ghost predicate Timely(log: seq<Event>) {
    forall i, k :: 0 <= i < k < |log| && log[i].Sample? && log[k].Sample? ==> log[i].now <= log[k].now
  }

  lemma FitsInPrefix(log: seq<Event>, n: nat, k: nat, signature: int)
    requires k < n <= |log|
    ensures Fits(log[..n], k, signature) <==> Fits(log, k, signature)
  {
    assert log[..n][..k + 1] == log[..k + 1];
  }

  lemma WindowShrinks(log: seq<Event>, i: nat)
    requires Window(log, i) && i < |log| - 1
    ensures Window(log[..|log| - 1], i)
    ensures Fits(log, |log| - 1, log[i].signature)
  {
    var n := |log| - 1;
    forall k: nat | i < k < n ensures Fits(log[..n], k, log[i].signature) { FitsInPrefix(log, n, k, log[i].signature); }
  }

  lemma WindowGrows(log: seq<Event>, i: nat)
    requires log != [] && Window(log[..|log| - 1], i) && Fits(log, |log| - 1, log[i].signature)
    ensures Window(log, i)
  {
    var n := |log| - 1;
    forall k: nat | i < k < |log| ensures Fits(log, k, log[i].signature) {
      if k < n { FitsInPrefix(log, n, k, log[i].signature); }
    }
  }

  lemma LastFits(log: seq<Event>, stability: int, signature: int)
    requires log != []
    ensures var t', e := After(log, stability), log[|log| - 1];
      Fits(log, |log| - 1, signature)
      <==> (e.Sample? ==> e.signature == signature && !e.loading) && !e.Bad? && (e.Probe? ==> !t'.blocked)
  {
    BlockedExactly(log, stability);
    assert log[..|log|] == log;
  }

  /** Every window agrees with the tracker, which measures from no later than its start. */
  lemma {:induction false} WindowIsTracked(log: seq<Event>, stability: int, i: nat)
    requires Timely(log) && Window(log, i)
    ensures After(log, stability).signature == Some(log[i].signature)
    ensures After(log, stability).since <= log[i].now
  {
    var n := |log| - 1;
    var front := log[..n];
    assert Timely(front);
    if i < n {
      WindowShrinks(log, i);
      WindowIsTracked(front, stability, i);
      LastFits(log, stability, log[i].signature);
    } else {
      SinceIsPast(front, stability, log[n].now);
    }
  }

  lemma {:induction false} SinceIsPast(log: seq<Event>, stability: int, now: int)
    requires forall k :: 0 <= k < |log| && log[k].Sample? ==> log[k].now <= now
    ensures After(log, stability).signature.Some? ==> After(log, stability).since <= now
  {
    if log != [] { SinceIsPast(log[..|log| - 1], stability, now); }
  }

  /** What the tracker measures from is the start of a window. */
  lemma {:induction false} TrackedIsWindow(log: seq<Event>, stability: int) returns (i: nat)
    requires After(log, stability).signature.Some?
    ensures Window(log, i)
    ensures log[i].signature == After(log, stability).signature.value
    ensures log[i].now == After(log, stability).since
  {
    var n := |log| - 1;
    var front, e := log[..n], log[n];
    var t := After(front, stability);
    if e.Sample? && (t.signature != Some(e.signature) || e.loading) {
      i := n;
    } else {
      i := TrackedIsWindow(front, stability);
      LastFits(log, stability, log[i].signature);
      WindowGrows(log, i);
    }
  }

  lemma SettledNow(log: seq<Event>, stability: int)
    requires Timely(log) && log != [] && log[|log| - 1].Sample? && After(log, stability).shown == Settled
    ensures Steady(log, stability)
  {
    var n := |log| - 1;
    var e := log[n];
    var t := After(log[..n], stability);
    var i := TrackedIsWindow(log[..n], stability);
    LastFits(log, stability, log[i].signature);
    WindowGrows(log, i);
    assert Timely(log) && log[i].now <= e.now;
    assert Shows(log, n);
  }

  lemma ShowsLasts(log: seq<Event>, m: nat)
    requires log != [] && log[|log| - 1].Probe? && !InputBlocked(log)
    ensures Shows(log[..|log| - 1], m) <==> Shows(log, m)
  {
    var n := |log| - 1;
    assert log[..n + 1] == log && Clear(log, n);
    forall k: nat | k < n ensures Clear(log[..n], k) <==> Clear(log, k) { assert log[..n][..k + 1] == log[..k + 1]; }
  }

  lemma WindowLasts(log: seq<Event>, i: nat)
    requires log != [] && log[|log| - 1].Probe? && !InputBlocked(log)
    ensures Window(log[..|log| - 1], i) <==> Window(log, i)
  {
    assert log[..|log|] == log;
    if Window(log[..|log| - 1], i) { WindowGrows(log, i); }
    if Window(log, i) { WindowShrinks(log, i); }
  }

  lemma SteadyLasts(log: seq<Event>, stability: int)
    requires log != [] && log[|log| - 1].Probe? && !InputBlocked(log)
    ensures Steady(log[..|log| - 1], stability) <==> Steady(log, stability)
  {
    var front := log[..|log| - 1];
    if Steady(front, stability) {
      var i: nat, m: nat :| Window(front, i) && Shows(front, m) && i < m && front[m].now - front[i].now >= stability;
      WindowLasts(log, i);
      ShowsLasts(log, m);
    }
    if Steady(log, stability) {
      var i: nat, m: nat :| Window(log, i) && Shows(log, m) && i < m && log[m].now - log[i].now >= stability;
      WindowLasts(log, i);
      ShowsLasts(log, m);
    }
  }

  lemma SteadyNow(log: seq<Event>, stability: int)
    requires Timely(log) && log != [] && log[|log| - 1].Sample? && Steady(log, stability)
    ensures After(log, stability).shown == Settled
  {
    var n := |log| - 1;
    var i: nat, m: nat :| Window(log, i) && Shows(log, m) && i < m && log[m].now - log[i].now >= stability;
    assert !Clear(log, n);
    WindowShrinks(log, i);
    assert Timely(log[..n]);
    WindowIsTracked(log[..n], stability, i);
    LastFits(log, stability, log[i].signature);
  }

  /** The tracker shows `settled` exactly when the log holds such a run. */
  lemma {:induction false} SettledExactly(log: seq<Event>, stability: int)
    requires Timely(log)
    ensures After(log, stability).shown == Settled <==> Steady(log, stability)
  {
    if log != [] {
      var n := |log| - 1;
      var e := log[n];
      assert Timely(log[..n]);
      BlockedExactly(log, stability);
      if e.Sample? {
        if After(log, stability).shown == Settled { SettledNow(log, stability); }
        if Steady(log, stability) { SteadyNow(log, stability); }
      } else if e.Probe? && !InputBlocked(log) {
        SettledExactly(log[..n], stability);
        SteadyLasts(log, stability);
      } else {
        NotShown(log, stability);
      }
    }
  }

  lemma NotShown(log: seq<Event>, stability: int)
    requires log != [] && !log[|log| - 1].Sample? && (log[|log| - 1].Probe? ==> InputBlocked(log))
    ensures !Steady(log, stability)
  {
    assert log[..|log|] == log;
    assert !Clear(log, |log| - 1);
  }

  /** The device counts as ready exactly when the log holds such a run and the last probe left
      the device able to take input. */
  lemma ReadyExactly(log: seq<Event>, stability: int)
    requires Timely(log)
    ensures Ready(After(log, stability)) <==> Steady(log, stability) && !InputBlocked(log)
  {
    SettledExactly(log, stability);
    BlockedExactly(log, stability);
  }

  // ---------- the tracker object ----------

  class ReadinessTracker {
    const stabilityMs: int
    var signature: Option<int>
    var stableSince: int
    var shown: Shown
    var stableFor: int
    var wake: Wake
    var lock: Lock
    var blocked: bool

    function View(): Tracker reads this { Tracker(signature, stableSince, shown, stableFor, wake, lock, blocked) }

    constructor (stabilityMs: int)
      ensures View() == NEW && this.stabilityMs == stabilityMs
    {
      this.stabilityMs := stabilityMs;
      signature, stableSince, shown, stableFor := None, 0, Unknown, 0;
      wake, lock, blocked := UnknownWake, UnknownLock, false;
    }

    /** `debugger`: the app is paused; `tree`: a valid sample as its signature and loading mark. */
    method Observe(debugger: bool, tree: Option<(int, bool)>, now: int)
      modifies this
      ensures View() == Apply(old(View()), if debugger then PausedSample
                                           else if tree.None? then Bad
                                           else Sample(tree.value.0, tree.value.1, now), stabilityMs)
    {
      if debugger {
        shown := DebuggerPaused;
        stableFor := 0;
        return;
      }
      if tree.None? {
        signature := None;
        shown := Unknown;
        stableFor := 0;
        return;
      }
      var (next, loading) := tree.value;
      var previous := signature;
      var same := previous == Some(next);
      if !same || loading { stableSince := now; }
      signature := Some(next);
      stableFor := if same && !loading then Max(0, now - stableSince) else 0;
      shown := if loading then Loading else if previous == None then Unknown else if !same then Changing
               else if stableFor >= stabilityMs then Settled else Unknown;
    }

    method ObserveDevice(nextWake: Wake, nextLock: Lock, paused: bool)
      modifies this
      ensures View() == Apply(old(View()), Probe(nextWake, nextLock, paused), stabilityMs)
    {
      if !(nextWake == UnknownWake && wake in {Asleep, Transitioning}) { wake := nextWake; }
      if !(nextLock == UnknownLock && lock == Locked) { lock := nextLock; }
      blocked := wake in {Asleep, Transitioning} || lock == Locked || paused;
      if blocked {
        signature := None;
        stableSince := 0;
        shown := Unknown;
        stableFor := 0;
      }
    }
  }
}
