/** The retained interaction results: at most a hundred, sixteen mebibytes and ten minutes. */
module InteractionDiagnostics {
  import opened Wrappers

  const COUNT: nat := 100
  const TOTAL: nat := 16 * 1024 * 1024
  const SINGLE: nat := 1024 * 1024
  const EXPIRY: int := 600000

  /** `id` is fresh for every result; `bytes` is the length of `text` in UTF-8. */
  datatype Entry = Entry(id: nat, text: int, completed: int, bytes: nat)

  /** The entries in insertion order and the byte counter. */
  datatype Store = Store(entries: seq<Entry>, bytes: int)

  const EMPTY := Store([], 0)

  predicate Expired(e: Entry, now: int) { now - e.completed >= EXPIRY }

  function Sum(es: seq<Entry>): nat { if es == [] then 0 else es[0].bytes + Sum(es[1..]) }

  function Unexpired(es: seq<Entry>, now: int): seq<Entry> {
    if es == [] then [] else (if Expired(es[0], now) then [] else [es[0]]) + Unexpired(es[1..], now)
  }

  /** The byte counter is right. */
  predicate Counted(s: Store) { s.bytes == Sum(s.entries) }

  function Pruned(s: Store, now: int): (r: Store)
    ensures Counted(s) ==> Counted(r)
  {
    Store(Unexpired(s.entries, now), s.bytes - (Sum(s.entries) - Sum(Unexpired(s.entries, now))))
  }

  /** There is no room yet for `bytes` more. */
  predicate Full(s: Store, bytes: nat) { |s.entries| >= COUNT || s.bytes + bytes > TOTAL }

  /** The eviction loop that makes room for `bytes` more.  With a right counter and a result that
      is not too large by itself, it never looks for the oldest entry of an empty store. */
  function Evicted(s: Store, bytes: nat): (r: Store)
    requires Counted(s) && bytes <= SINGLE
    ensures Counted(r) && !Full(r, bytes)
    decreases |s.entries|
  {
    if Full(s, bytes) then Evicted(Store(s.entries[1..], s.bytes - s.entries[0].bytes), bytes) else s
  }

  function Retained(s: Store, e: Entry, now: int): (r: Store)
    requires Counted(s)
    ensures Counted(r)
  {
    if e.bytes > SINGLE then Pruned(s, now)
    else
      var s' := Evicted(Pruned(s, now), e.bytes);
      SumGrows(s'.entries, e);
      Store(s'.entries + [e], s'.bytes + e.bytes)
  }

  function Find(es: seq<Entry>, id: nat): Option<int> {
    if es == [] then None else if es[0].id == id then Some(es[0].text) else Find(es[1..], id)
  }

  /** A timer fires for the oldest entry; all timers have the same delay and fire in order. */
  function Fired(s: Store): (r: Store)
    requires s.entries != []
    ensures Counted(s) ==> Counted(r)
  {
    Store(s.entries[1..], s.bytes - s.entries[0].bytes)
  }

  datatype Action = Retain(entry: Entry, now: int) | Lookup(now: int) | Fire(now: int)

  function At(a: Action): int { match a case Retain(e, _) => e.completed case Lookup(now) => now case Fire(now) => now }

  predicate Enabled(s: Store, a: Action, clock: int) {
    match a
    case Retain(e, now) => clock <= now <= e.completed
    case Lookup(now) => clock <= now
    case Fire(now) => clock <= now && s.entries != [] && Expired(s.entries[0], now)
  }

  function Apply(s: Store, a: Action): (r: Store)
    requires Counted(s) && (a.Fire? ==> s.entries != [])
    ensures Counted(r)
  {
    match a
    case Retain(e, now) => Retained(s, e, now)
    case Lookup(now) => Pruned(s, now)
    case Fire(_) => Fired(s)
  }

  // ---------- the accepted results ----------

  function Accepted(log: seq<Entry>, a: Action): seq<Entry> {
    if a.Retain? && a.entry.bytes <= SINGLE then log + [a.entry] else log
  }

  predicate Within(es: seq<Entry>) {
    && |es| <= COUNT
    && Sum(es) <= TOTAL
  }

  ghost predicate AllLive(es: seq<Entry>, now: int) { forall i :: 0 <= i < |es| ==> !Expired(es[i], now) }

  ghost predicate Timely(log: seq<Entry>, clock: int) {
    && (forall i, j :: 0 <= i < j < |log| ==> log[i].completed <= log[j].completed)
    && forall i :: 0 <= i < |log| ==> log[i].completed <= clock && log[i].bytes <= SINGLE
  }

  /** The entries are the end of the log from `k` on, within the limits, and the result before
      them is out because it expired or would exceed the limits. */
  ghost predicate Suffix(s: Store, log: seq<Entry>, k: nat, clock: int) {
    && k <= |log|
    && s.entries == log[k..]
    && s.bytes == Sum(s.entries)
    && Within(s.entries)
    && (k > 0 ==> Expired(log[k - 1], clock) || !Within(log[k - 1..]))
  }

  ghost predicate Inv(s: Store, log: seq<Entry>, clock: int) {
    Timely(log, clock) && exists k: nat :: Suffix(s, log, k, clock)
  }

  /** The longest suffix of the accepted results that is within the limits and unexpired. */
  ghost predicate Longest(es: seq<Entry>, log: seq<Entry>, now: int) {
    exists k: nat :: k <= |log| && es == log[k..] && Within(es) && AllLive(es, now)
                  && forall j: nat :: j < k ==> !(Within(log[j..]) && AllLive(log[j..], now))
  }

  // ---------- suffixes ----------

  lemma {:induction false} SumSplits(a: seq<Entry>, b: seq<Entry>)
    ensures Sum(a + b) == Sum(a) + Sum(b)
  {
    if a == [] {
      assert a + b == b;
    } else {
      assert (a + b)[1..] == a[1..] + b;
      SumSplits(a[1..], b);
    }
  }

  lemma SumOfSuffix(log: seq<Entry>, j: nat, k: nat)
    requires j <= k <= |log|
    ensures Sum(log[k..]) <= Sum(log[j..])
  {
    assert log[j..] == log[j..k] + log[k..];
    SumSplits(log[j..k], log[k..]);
  }

  lemma SumGrows(es: seq<Entry>, e: Entry)
    ensures Sum(es + [e]) == Sum(es) + e.bytes
  {
    SumSplits(es, [e]);
    assert [e][1..] == [];
  }

  /** In time order the unexpired results are a suffix. */
  lemma {:induction false} UnexpiredIsSuffix(log: seq<Entry>, k: nat, clock: int, now: int) returns (m: nat)
    requires Timely(log, clock) && k <= |log|
    ensures k <= m <= |log| && Unexpired(log[k..], now) == log[m..]
    ensures AllLive(log[m..], now)
    ensures m > k ==> Expired(log[m - 1], now)
    decreases |log| - k
  {
    m := k;
    if k < |log| {
      assert log[k..][1..] == log[k + 1..];
      m := UnexpiredIsSuffix(log, k + 1, clock, now);
      if !Expired(log[k], now) {
        m := k;
        assert forall i :: k <= i < |log| ==> log[i].completed >= log[k].completed;
      }
    }
  }

  lemma WithinShrinks(log: seq<Entry>, j: nat, k: nat)
    requires j <= k <= |log| && Within(log[j..])
    ensures Within(log[k..])
  {
    SumOfSuffix(log, j, k);
  }

  lemma PrunedSuffix(s: Store, log: seq<Entry>, k: nat, clock: int, now: int) returns (m: nat)
    requires Timely(log, clock) && Suffix(s, log, k, clock) && clock <= now
    ensures Suffix(Pruned(s, now), log, m, now)
    ensures AllLive(log[m..], now)
  {
    m := UnexpiredIsSuffix(log, k, clock, now);
    WithinShrinks(log, k, m);
  }

  lemma {:induction false} EvictedSuffix(s: Store, log: seq<Entry>, k: nat, e: Entry) returns (m: nat)
    requires k <= |log| && s.entries == log[k..] && Counted(s) && e.bytes <= SINGLE
    ensures k <= m <= |log|
    ensures Evicted(s, e.bytes).entries == log[m..]
    ensures m > k ==> |log[m - 1..]| + 1 > COUNT || Sum(log[m - 1..]) + e.bytes > TOTAL
    decreases |s.entries|
  {
    m := k;
    if Full(s, e.bytes) {
      assert log[k..][1..] == log[k + 1..];
      m := EvictedSuffix(Store(log[k + 1..], Sum(log[k + 1..])), log, k + 1, e);
    }
  }

  lemma AppendedSuffix(log: seq<Entry>, k: nat, m: nat, now: int, e: Entry)
    requires k <= m <= |log| && now <= e.completed
    requires |log[m..]| < COUNT && Sum(log[m..]) + e.bytes <= TOTAL
    requires m > k ==> |log[m - 1..]| + 1 > COUNT || Sum(log[m - 1..]) + e.bytes > TOTAL
    requires k > 0 ==> Expired(log[k - 1], now) || !Within(log[k - 1..])
    ensures Suffix(Store(log[m..] + [e], Sum(log[m..]) + e.bytes), log + [e], m, e.completed)
  {
    var all := log + [e];
    assert all[m..] == log[m..] + [e];
    SumGrows(log[m..], e);
    if m > 0 {
      assert all[m - 1..] == log[m - 1..] + [e];
      SumGrows(log[m - 1..], e);
    }
  }

  lemma TimelyGrows(log: seq<Entry>, clock: int, e: Entry)
    requires Timely(log, clock) && clock <= e.completed && e.bytes <= SINGLE
    ensures Timely(log + [e], e.completed)
  {
  }

  lemma TimePasses(s: Store, log: seq<Entry>, k: nat, clock: int, later: int)
    requires Timely(log, clock) && Suffix(s, log, k, clock) && clock <= later
    ensures Inv(s, log, later)
  {
    assert Suffix(s, log, k, later);
  }

  lemma RoomMade(pruned: Store, log: seq<Entry>, p: nat, e: Entry, now: int)
    requires Timely(log, now) && Suffix(pruned, log, p, now) && Counted(pruned)
    requires now <= e.completed && e.bytes <= SINGLE
    ensures var s := Evicted(pruned, e.bytes); Inv(Store(s.entries + [e], s.bytes + e.bytes), log + [e], e.completed)
  {
    var m := EvictedSuffix(pruned, log, p, e);
    AppendedSuffix(log, p, m, now, e);
    TimelyGrows(log, now, e);
  }

  lemma PrunedKeepsInv(s: Store, log: seq<Entry>, clock: int, now: int) returns (p: nat)
    requires Inv(s, log, clock) && clock <= now
    ensures Timely(log, now)
    ensures Suffix(Pruned(s, now), log, p, now)
    ensures AllLive(log[p..], now)
  {
    var k: nat :| Suffix(s, log, k, clock);
    p := PrunedSuffix(s, log, k, clock, now);
  }

  lemma RetainKeepsInv(s: Store, log: seq<Entry>, clock: int, e: Entry, now: int)
    requires Inv(s, log, clock) && Counted(s) && clock <= now <= e.completed
    ensures Inv(Retained(s, e, now), Accepted(log, Retain(e, now)), e.completed)
  {
    var p := PrunedKeepsInv(s, log, clock, now);
    if e.bytes > SINGLE {
      TimePasses(Pruned(s, now), log, p, now, e.completed);
    } else {
      RoomMade(Pruned(s, now), log, p, e, now);
    }
  }

  lemma FireKeepsInv(s: Store, log: seq<Entry>, clock: int, now: int)
    requires Inv(s, log, clock) && clock <= now && s.entries != [] && Expired(s.entries[0], now)
    ensures Inv(Fired(s), log, now)
  {
    var k: nat :| Suffix(s, log, k, clock);
    assert log[k..][1..] == log[k + 1..];
    WithinShrinks(log, k, k + 1);
    assert Suffix(Fired(s), log, k + 1, now);
  }

  lemma StepKeepsInv(s: Store, log: seq<Entry>, clock: int, a: Action)
    requires Inv(s, log, clock) && Counted(s) && Enabled(s, a, clock)
    ensures Inv(Apply(s, a), Accepted(log, a), At(a))
  {
    match a
    case Retain(e, now) => RetainKeepsInv(s, log, clock, e, now);
    case Lookup(now) => var p := PrunedKeepsInv(s, log, clock, now);
    case Fire(now) => FireKeepsInv(s, log, clock, now);
  }

  // ---------- runs ----------

  datatype History = History(store: Store, log: seq<Entry>, clock: int)

  ghost predicate Legal(h: History, run: seq<Action>)
    requires Counted(h.store)
    decreases |run|
  {
    run == [] || (Enabled(h.store, run[0], h.clock) && Legal(Next(h, run[0]), run[1..]))
  }

  function Next(h: History, a: Action): History
    requires Counted(h.store) && (a.Fire? ==> h.store.entries != [])
  {
    History(Apply(h.store, a), Accepted(h.log, a), At(a))
  }

  function Final(h: History, run: seq<Action>): History
    requires Counted(h.store) && Legal(h, run)
    decreases |run|
  {
    if run == [] then h else Final(Next(h, run[0]), run[1..])
  }

  lemma {:induction false} RunKeepsInv(h: History, run: seq<Action>)
    requires Inv(h.store, h.log, h.clock) && Counted(h.store) && Legal(h, run)
    ensures var end := Final(h, run); Inv(end.store, end.log, end.clock)
    decreases |run|
  {
    if run != [] {
      StepKeepsInv(h.store, h.log, h.clock, run[0]);
      RunKeepsInv(Next(h, run[0]), run[1..]);
    }
  }

  lemma LiveInside(log: seq<Entry>, j: nat, k: nat, now: int)
    requires j <= k < |log| && AllLive(log[j..], now)
    ensures !Expired(log[k], now)
  {
    assert log[j..][k - j] == log[k];
  }

  lemma SuffixIsLongest(s: Store, log: seq<Entry>, m: nat, now: int)
    requires Suffix(s, log, m, now) && AllLive(log[m..], now)
    ensures Longest(s.entries, log, now)
  {
    forall j: nat | j < m ensures !(Within(log[j..]) && AllLive(log[j..], now)) {
      if Within(log[j..]) && AllLive(log[j..], now) {
        LiveInside(log, j, m - 1, now);
        WithinShrinks(log, j, m - 1);
      }
    }
  }

  /** After any history a lookup sees exactly the longest suffix of the accepted results that is
      unexpired and within a hundred entries and sixteen mebibytes, and the byte counter is its
      sum. */
  lemma LookupSeesLongestSuffix(start: int, run: seq<Action>, now: int)
    requires Legal(History(EMPTY, [], start), run) && Final(History(EMPTY, [], start), run).clock <= now
    ensures var end := Final(History(EMPTY, [], start), run);
      Longest(Pruned(end.store, now).entries, end.log, now)
        && Pruned(end.store, now).bytes == Sum(Pruned(end.store, now).entries)
  {
    assert Suffix(EMPTY, [], 0, start);
    RunKeepsInv(History(EMPTY, [], start), run);
    var end := Final(History(EMPTY, [], start), run);
    var m := PrunedKeepsInv(end.store, end.log, end.clock, now);
    SuffixIsLongest(Pruned(end.store, now), end.log, m, now);
  }

  /** One pass of the pruning loop. */
  lemma OneChecked(kept: seq<Entry>, left: seq<Entry>, now: int)
    requires left != []
    ensures kept + Unexpired(left, now)
         == (if Expired(left[0], now) then kept else kept + [left[0]]) + Unexpired(left[1..], now)
  {
  }

  lemma OneMoved(kept: seq<Entry>, left: seq<Entry>)
    requires left != []
    ensures Sum(kept + [left[0]]) + Sum(left[1..]) == Sum(kept) + Sum(left)
  {
    SumGrows(kept, left[0]);
  }

  // ---------- the store object ----------

  class Diagnostics {
    var entries: seq<Entry>
    var bytes: int

    function View(): Store reads this { Store(entries, bytes) }

    predicate Valid() reads this { Counted(View()) }

    constructor ()
      ensures Valid() && View() == EMPTY
    {
      entries := [];
      bytes := 0;
    }

    method Prune(now: int)
      requires Valid()
      modifies this
      ensures Valid() && View() == Pruned(old(View()), now)
    {
      var kept: seq<Entry>, left := [], entries;
      while left != []
        invariant entries == old(entries)
        invariant kept + Unexpired(left, now) == Unexpired(entries, now)
        invariant bytes == Sum(kept) + Sum(left)
        decreases |left|
      {
        OneChecked(kept, left, now);
        OneMoved(kept, left);
        var e := left[0];
        left := left[1..];
        if Expired(e, now) {
          bytes := bytes - e.bytes;
        } else {
          kept := kept + [e];
        }
      }
      assert kept + [] == kept;
      entries := kept;
    }

    /** The result is available afterwards unless it is too large. */
    method Retain(e: Entry, now: int) returns (available: bool)
      requires Valid()
      modifies this
      ensures Valid() && View() == Retained(old(View()), e, now)
      ensures available <==> e.bytes <= SINGLE
    {
      Prune(now);
      if e.bytes > SINGLE { return false; }
      ghost var pruned := View();
      while |entries| >= COUNT || bytes + e.bytes > TOTAL
        invariant Valid() && Evicted(View(), e.bytes) == Evicted(pruned, e.bytes)
        decreases |entries|
      {
        assert entries != [];
        bytes := bytes - entries[0].bytes;
        entries := entries[1..];
      }
      SumGrows(entries, e);
      entries := entries + [e];
      bytes := bytes + e.bytes;
      available := true;
    }

    method LookupResult(id: nat, now: int) returns (text: Option<int>)
      requires Valid()
      modifies this
      ensures Valid() && View() == Pruned(old(View()), now) && text == Find(entries, id)
    {
      Prune(now);
      text := Find(entries, id);
    }
  }
}
