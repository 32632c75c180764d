/** All debugger sessions of one platform: admission of new ones, and their interleaved steps. */
module DebuggerSessions {
  import opened Collections
  import H = HostSession

  const LIMIT: nat := 4

  datatype Slot = Slot(device: string, host: H.Host)

  datatype Sessions = Sessions(slots: map<nat, Slot>, closing: bool)

  const NONE := Sessions(map[], false)

  /** Sessions whose cleanup is not complete still own resources. */
  function Owned(s: Sessions): set<nat> {
    set id | id in s.slots && s.slots[id].host.cleanup != H.Complete
  }

  predicate Admits(s: Sessions, device: string) {
    !s.closing && |Owned(s)| < LIMIT && forall id :: id in Owned(s) ==> s.slots[id].device != device
  }

  datatype Action =
    | Attach(id: nat, device: string)
    | Step(id: nat, step: H.Action)
    | Prune(dropped: set<nat>)             // old sessions whose cleanup is complete
    | Close

  predicate Enabled(s: Sessions, a: Action) {
    match a
    case Attach(id, _) => id !in s.slots
    case Step(id, step) => id in s.slots && H.Enabled(s.slots[id].host, step)
    case Prune(dropped) => dropped <= s.slots.Keys && dropped !! Owned(s)
    case Close => true
  }

  /** A refused attach leaves no session behind. */
  function Apply(s: Sessions, platform: H.Platform, a: Action): Sessions
    requires Enabled(s, a)
  {
    match a
    case Attach(id, device) => if Admits(s, device) then s.(slots := s.slots[id := Slot(device, H.NEW)]) else s
    case Step(id, step) =>
      s.(slots := s.slots[id := s.slots[id].(host := H.Apply(s.slots[id].host, platform, step))])
    case Prune(dropped) => s.(slots := s.slots - dropped)
    case Close => s.(closing := true)
  }

  ghost predicate Inv(s: Sessions) {
    && |Owned(s)| <= LIMIT
    && (forall i, j :: i in Owned(s) && j in Owned(s) && i != j ==> s.slots[i].device != s.slots[j].device)
    && (forall id :: id in s.slots ==> H.Inv(s.slots[id].host))
  }

  lemma AttachOwns(s: Sessions, id: nat, slot: Slot)
    requires id !in s.slots && slot.host.cleanup == H.Pending
    ensures Owned(s.(slots := s.slots[id := slot])) == Owned(s) + {id}
    ensures |Owned(s.(slots := s.slots[id := slot]))| == |Owned(s)| + 1
  {
  }

  lemma AttachKeepsInv(s: Sessions, id: nat, slot: Slot)
    requires Inv(s) && id !in s.slots && Admits(s, slot.device)
    requires H.Inv(slot.host) && slot.host.cleanup == H.Pending
    ensures Inv(s.(slots := s.slots[id := slot]))
  {
    AttachOwns(s, id, slot);
  }

  lemma AdvanceKeepsInv(s: Sessions, id: nat, host: H.Host)
    requires Inv(s) && id in s.slots
    requires H.Inv(host) && (s.slots[id].host.cleanup == H.Complete ==> host.cleanup == H.Complete)
    ensures Inv(s.(slots := s.slots[id := s.slots[id].(host := host)]))
  {
    var s' := s.(slots := s.slots[id := s.slots[id].(host := host)]);
    SubsetCount(Owned(s'), Owned(s));
  }

  lemma StepKeepsInv(s: Sessions, platform: H.Platform, a: Action)
    requires Inv(s) && Enabled(s, a)
    ensures Inv(Apply(s, platform, a))
  {
    var s' := Apply(s, platform, a);
    match a
    case Attach(id, device) =>
      if Admits(s, device) {
        AttachKeepsInv(s, id, Slot(device, H.NEW));
      }
    case Step(id, step) =>
      H.StepKeepsInv(s.slots[id].host, platform, step);
      AdvanceKeepsInv(s, id, H.Apply(s.slots[id].host, platform, step));
    case Prune(dropped) => assert Owned(s') == Owned(s);
    case Close => assert Owned(s') == Owned(s);
  }

  ghost predicate Legal(s: Sessions, platform: H.Platform, run: seq<Action>)
    decreases |run|
  {
    run == [] || (Enabled(s, run[0]) && Legal(Apply(s, platform, run[0]), platform, run[1..]))
  }

  function Final(s: Sessions, platform: H.Platform, run: seq<Action>): Sessions
    requires Legal(s, platform, run)
    decreases |run|
  {
    if run == [] then s else Final(Apply(s, platform, run[0]), platform, run[1..])
  }

  lemma {:induction false} RunKeepsInv(s: Sessions, platform: H.Platform, run: seq<Action>)
    requires Inv(s) && Legal(s, platform, run)
    ensures Inv(Final(s, platform, run))
    decreases |run|
  {
    if run != [] {
      StepKeepsInv(s, platform, run[0]);
      RunKeepsInv(Apply(s, platform, run[0]), platform, run[1..]);
    }
  }

  /** Over all interleavings of all sessions: at most four own resources, one per device. */
  lemma AtMostFourOnePerDevice(platform: H.Platform, run: seq<Action>)
    requires Legal(NONE, platform, run)
    ensures var s := Final(NONE, platform, run);
      && |Owned(s)| <= LIMIT
      && forall i, j :: i in Owned(s) && j in Owned(s) && i != j ==> s.slots[i].device != s.slots[j].device
  {
    assert Owned(NONE) == {};
    RunKeepsInv(NONE, platform, run);
  }

  // ---------- the session map ----------

  class SessionMap {
    const platform: H.Platform
    var slots: map<nat, Slot>
    var closing: bool

    function View(): Sessions reads this { Sessions(slots, closing) }

    constructor (platform: H.Platform)
      ensures View() == NONE && this.platform == platform
    {
      this.platform := platform;
      slots := map[];
      closing := false;
    }

    /** Registers a session for a device, or refuses; there is no await in between. */
    method Admit(id: nat, device: string) returns (admitted: bool)
      requires id !in slots
      modifies this
      ensures admitted == Admits(old(View()), device)
      ensures View() == Apply(old(View()), platform, Attach(id, device))
    {
      var owned := set i | i in slots && slots[i].host.cleanup != H.Complete;
      assert owned == Owned(View());
      admitted := !closing && |owned| < LIMIT && forall i :: i in owned ==> slots[i].device != device;
      if admitted { slots := slots[id := Slot(device, H.NEW)]; }
    }

    method Advance(id: nat, step: H.Action)
      requires id in slots && H.Enabled(slots[id].host, step)
      modifies this
      ensures View() == Apply(old(View()), platform, Step(id, step))
    {
      var slot := slots[id];
      slots := slots[id := slot.(host := H.Apply(slot.host, platform, step))];
    }

    method Drop(ids: set<nat>)
      requires Enabled(View(), Prune(ids))
      modifies this
      ensures View() == Apply(old(View()), platform, Prune(ids))
    {
      slots := slots - ids;
    }

    method Shutdown()
      modifies this
      ensures View() == Apply(old(View()), platform, Close)
    {
      closing := true;
    }
  }
}
