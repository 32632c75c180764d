/** The gate in front of conditional input. */
module ConditionalInput {
  import opened Wrappers
  import D = SnapshotDelta
  import opened SnapshotStore

  // The input goes out only while the device still shows the revision the caller decided on.

  datatype Status = NotChecked | Unavailable | Matched | Mismatch

  datatype Reason =
    ActionNotReached | DeviceMismatch | SessionMismatch | BaselineUnavailable
  | ObservationFailed | ObservationInvalid | ConditionTimeout

  /** What a capture returned.  `wellFormed`: elements, resolution and capture time are usable. */
  datatype Reply = Reply(failed: bool, wellFormed: bool, session: int, key: Key, revision: nat)

  datatype Capture = Returned(reply: Reply) | Threw | TimedOut

  datatype Verdict = Verdict(status: Status, reason: Option<Reason>)

  function Refused(r: Reason): Verdict { Verdict(Unavailable, Some(r)) }

  /** `baseline`: the expected revision is retained when the input is about to go out. */
  function Judge(target: Key, expectedSession: int, expectedRevision: nat,
                 key: Key, session: int, baseline: bool, capture: Capture): Verdict {
    if key != target then Refused(DeviceMismatch)
    else if expectedSession != session then Refused(SessionMismatch)
    else if !baseline then Refused(BaselineUnavailable)
    else match capture
      case TimedOut => Refused(ConditionTimeout)
      case Threw => Refused(ObservationFailed)
      case Returned(reply) =>
        if reply.failed then Refused(ObservationFailed)
        else if !reply.wellFormed || reply.revision < 1 || reply.session != session then Refused(ObservationInvalid)
        else if reply.key != key then Refused(DeviceMismatch)
        else Verdict(if reply.revision == expectedRevision then Matched else Mismatch, None)
  }

  class ConditionalAction {
    const target: Key
    const expectedSession: int
    const expectedRevision: nat
    var status: Status
    var reason: Option<Reason>
    var observed: Option<Reply>

    constructor (target: Key, session: int, revision: nat)
      ensures this.target == target && expectedSession == session && expectedRevision == revision
      ensures status == NotChecked && reason == Some(ActionNotReached) && observed == None
    {
      this.target := target;
      expectedSession := session;
      expectedRevision := revision;
      status := NotChecked;
      reason := Some(ActionNotReached);
      observed := None;
    }

    /** `dispatch`: the input may go out; otherwise the source throws. */
    method BeforeInputDispatch(key: Key, session: int, store: Store, now: int, capture: Capture)
        returns (dispatch: bool)
      modifies this
      ensures Verdict(status, reason)
           == Judge(target, expectedSession, expectedRevision, key, session,
                    HasBaseline(store, key, expectedRevision, now), capture)
      ensures dispatch <==> status == Matched
      ensures status in {Matched, Mismatch} ==> capture.Returned? && observed == Some(capture.reply)
    {
      status := Unavailable;
      reason := None;
      if key != target {
        reason := Some(DeviceMismatch);
      } else if expectedSession != session {
        reason := Some(SessionMismatch);
      } else if !HasBaseline(store, key, expectedRevision, now) {
        reason := Some(BaselineUnavailable);
      } else {
        match capture
        case TimedOut => reason := Some(ConditionTimeout);
        case Threw => reason := Some(ObservationFailed);
        case Returned(reply) =>
          if reply.failed {
            reason := Some(ObservationFailed);
          } else if !reply.wellFormed || reply.revision < 1 || reply.session != session {
            reason := Some(ObservationInvalid);
          } else if reply.key != key {
            reason := Some(DeviceMismatch);
          } else {
            observed := Some(reply);
            status := if reply.revision == expectedRevision then Matched else Mismatch;
          }
      }
      dispatch := status == Matched;
    }
  }

  /** `reply` answers `last`, a capture of `tree` made after `log`. */
  ghost predicate Answers(log: seq<Event>, last: Event, reply: Reply, tree: Tree) {
    && last.Observe? && last.observation == Observation(Some(tree), None) && reply.key == last.key
    && reply.revision == Revision(After(FRESH, log), last.key, last.observation, last.now)
  }

  lemma {:induction false} AfterSplits(s: Store, front: seq<Event>, rest: seq<Event>)
    ensures After(s, front + rest) == After(After(s, front), rest)
    decreases |rest|
  {
    if rest == [] {
      assert front + rest == front;
    } else {
      var n := |rest| - 1;
      AfterSplits(s, front, rest[..n]);
      assert (front + rest)[..|front + rest| - 1] == front + rest[..n];
    }
  }

  lemma Regroup<T>(front: seq<T>, first: T, rest: seq<T>, during: seq<T>)
    ensures front + [first] + rest + during == (front + [first]) + (rest + during)
    ensures front + [first] + rest == front + ([first] + rest)
  {
  }

  lemma AfterAll(s: Store, front: seq<Event>, first: Event, rest: seq<Event>, during: seq<Event>)
    ensures After(s, front + [first] + rest + during) == After(Apply(After(s, front), first), rest + during)
  {
    Regroup(front, first, rest, during);
    AfterSplits(s, front + [first], rest + during);
  }

  lemma PrefixSound(front: seq<Event>, more: seq<Event>, from: int)
    requires Timely(front + more, from)
    ensures Inv(After(FRESH, front)) && 0 < After(FRESH, front).next
  {
    assert forall k :: 0 <= k < |front| ==> (front + more)[k] == front[k];
    assert Timely(front, from);
    AfterReachable(FRESH, front, from);
  }

  lemma SourceSound(log: seq<Event>, front: seq<Event>, first: Event, rest: seq<Event>, key: Key, r: nat, from: int)
    requires Timely(log, from) && Assigned(log, front, first, rest, key, r)
    ensures Inv(After(FRESH, front)) && 0 < After(FRESH, front).next
  {
    Regroup(front, first, rest, []);
    PrefixSound(front, [first] + rest, from);
  }

  /** From an observation that was given the revision of a later valid capture on: nothing but
      the same signature, up to that capture. */
  lemma SteadySince(log: seq<Event>, front: seq<Event>, first: Event, rest: seq<Event>, during: seq<Event>,
                    last: Event, reply: Reply, tree: Tree, from: int)
    requires Timely(log, from) && Assigned(log, front, first, rest, reply.key, reply.revision)
    requires Answers(log + during, last, reply, tree)
    ensures var sig := OfTree(tree.frame, D.Sigs(tree.elements));
      Signed(first.observation) == Some(sig) && Steady(rest + during + [last], reply.key, sig, first.now)
  {
    SourceSound(log, front, first, rest, reply.key, reply.revision, from);
    AfterAll(FRESH, front, first, rest, during);
    SameRevisionExactly(After(FRESH, front), first, rest + during, last, OfTree(tree.frame, D.Sigs(tree.elements)));
  }

  /** No ABA: when the gate lets input for revision `r` through, then from the one observation
      for which `r` was minted up to the gate's own capture, the device was neither cleared nor
      expired and every observation of it, the first included, was valid with that same
      signature.  `log` happened before the gate's check, `during` while it waited for its
      capture `last`. */
  lemma MatchedMeansUnchanged(target: Key, expectedSession: int, r: nat, key: Key, session: int, now: int,
                              log: seq<Event>, during: seq<Event>, last: Event, reply: Reply, tree: Tree, from: int)
      returns (front: seq<Event>, first: Event, rest: seq<Event>)
    requires Timely(log, from) && Answers(log + during, last, reply, tree)
    requires Judge(target, expectedSession, r, key, session,
                   HasBaseline(After(FRESH, log), key, r, now), Returned(reply)).status == Matched
    ensures key == target && Minted(log, front, first, rest, target, r)
    ensures var sig := OfTree(tree.frame, D.Sigs(tree.elements));
      Signed(first.observation) == Some(sig) && Steady(rest + during + [last], target, sig, first.now)
  {
    front, first, rest := BaselineWasMinted(log, key, r);
    SteadySince(log, front, first, rest, during, last, reply, tree, from);
  }
}
