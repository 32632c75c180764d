/** The numbered events a debugger session retains for polling clients: at most 256, emptied
    by cleanup, and read with a cursor. */
module EventFeed {
  import opened Wrappers

  const RETAINED: nat := 256
  const PAGE: nat := 100

  datatype Entry<E> = Entry(number: nat, event: E)

  datatype Feed<E> = Feed(entries: seq<Entry<E>>, sequence: nat)

  /** What one poll reports. */
  datatype Page<E> = Page(entries: seq<Entry<E>>, next: nat, overflow: bool)

  function Empty<E>(): Feed<E> { Feed([], 0) }

  function Push<E>(f: Feed<E>, e: E): Feed<E> {
    var all := f.entries + [Entry(f.sequence + 1, e)];
    Feed(if |all| > RETAINED then all[1..] else all, f.sequence + 1)
  }

  function Clear<E>(f: Feed<E>): Feed<E> {
    f.(entries := [])
  }

  function After<E>(entries: seq<Entry<E>>, cursor: nat): seq<Entry<E>> {
    if entries == [] then []
    else (if entries[0].number > cursor then [entries[0]] else []) + After(entries[1..], cursor)
  }

  function Poll<E>(f: Feed<E>, cursor: nat): Result<Page<E>, ()> {
    if cursor > f.sequence then Err(())
    else
      var later := After(f.entries, cursor);
      var page := if |later| > PAGE then later[..PAGE] else later;
      var first := if f.entries == [] then f.sequence + 1 else f.entries[0].number;
      Ok(Page(page, if page == [] then f.sequence else page[|page| - 1].number, cursor < first - 1))
  }

  /** The retained entries are the newest events of `log`, numbered from 1, without gaps. */
  ghost predicate Retains<E>(f: Feed<E>, log: seq<E>) {
    && f.sequence == |log|
    && |f.entries| <= Min(RETAINED, |log|)
    && forall i :: 0 <= i < |f.entries| ==> f.entries[i] == Numbering(log, |log| - |f.entries| + i)
  }

  function Numbering<E>(log: seq<E>, i: nat): Entry<E>
    requires i < |log|
  {
    Entry(i + 1, log[i])
  }

  function Min(a: nat, b: nat): nat { if a <= b then a else b }

  lemma AppendRetains<E>(f: Feed<E>, log: seq<E>, e: E, i: nat)
    requires Retains(f, log) && i <= |f.entries|
    ensures (f.entries + [Entry(f.sequence + 1, e)])[i] == Numbering(log + [e], |log| - |f.entries| + i)
  {
  }

  lemma PushRetains<E>(f: Feed<E>, log: seq<E>, e: E)
    requires Retains(f, log)
    ensures Retains(Push(f, e), log + [e])
  {
    var all, kept := f.entries + [Entry(f.sequence + 1, e)], Push(f, e).entries;
    forall i | 0 <= i < |kept| ensures kept[i] == Numbering(log + [e], |log| + 1 - |kept| + i) {
      assert kept[i] == all[i + |all| - |kept|];
      AppendRetains(f, log, e, i + |all| - |kept|);
    }
  }

  lemma {:induction false} AfterSplits<E>(entries: seq<Entry<E>>, cursor: nat, k: nat)
    requires k <= |entries|
    requires forall i :: 0 <= i < k ==> entries[i].number <= cursor
    requires forall i :: k <= i < |entries| ==> entries[i].number > cursor
    ensures After(entries, cursor) == entries[k..]
  {
    if entries != [] {
      AfterSplits(entries[1..], cursor, if k == 0 then 0 else k - 1);
    }
  }

  function First<E>(f: Feed<E>): nat { f.sequence - Min(|f.entries|, f.sequence) + 1 }

  lemma RetainedNumbers<E>(f: Feed<E>, log: seq<E>, n: nat)
    requires Retains(f, log) && 1 <= n <= |log|
    ensures Numbered(f, n) <==> First(f) <= n
  {
    if First(f) <= n { assert f.entries[n - First(f)].number == n; }
  }

  /** A poll flags an overflow exactly when an event past the cursor is no longer retained. */
  lemma OverflowExactly<E>(f: Feed<E>, log: seq<E>, cursor: nat)
    requires Retains(f, log) && cursor <= |log|
    ensures Poll(f, cursor).Ok?
    ensures Poll(f, cursor).value.overflow <==> exists n: nat :: cursor < n <= |log| && !Numbered(f, n)
  {
    assert Poll(f, cursor).value.overflow <==> cursor < First(f) - 1;
    if cursor < First(f) - 1 {
      RetainedNumbers(f, log, cursor + 1);
    } else {
      forall n: nat | cursor < n <= |log| ensures Numbered(f, n) { RetainedNumbers(f, log, n); }
    }
  }

  /** The page of a poll, as a slice of the retained entries. */
  lemma PageSlice<E>(f: Feed<E>, log: seq<E>, cursor: nat) returns (k: nat, n: nat)
    requires Retains(f, log) && cursor <= |log|
    ensures k == (if cursor < First(f) then 0 else cursor - First(f) + 1)
    ensures k <= |f.entries|
    ensures n == Min(PAGE, |f.entries| - k)
    ensures Poll(f, cursor).Ok?
    ensures Poll(f, cursor).value.entries == f.entries[k..k + n]
  {
    k := if cursor < First(f) then 0 else cursor - First(f) + 1;
    n := Min(PAGE, |f.entries| - k);
    AfterSplits(f.entries, cursor, k);
    assert f.entries[k..][..n] == f.entries[k..k + n];
    assert f.entries[k..][..|f.entries| - k] == f.entries[k..];
  }

  /** A page in terms of positions: `n` entries from the `k`-th retained one on. */
  lemma PageByPosition<E>(f: Feed<E>, log: seq<E>, cursor: nat) returns (k: nat, n: nat)
    requires Retains(f, log) && cursor <= |log|
    ensures var base := |log| - |f.entries|;
      && k == (if cursor < base then 0 else cursor - base) && k <= |f.entries|
      && n == Min(PAGE, |f.entries| - k)
      && Poll(f, cursor).Ok?
      && var page := Poll(f, cursor).value;
         && page.overflow == (cursor < base) && page.next == (if n == 0 then |log| else base + k + n)
         && Events(page.entries) == log[base + k..base + k + n]
  {
    k, n := PageSlice(f, log, cursor);
  }

  /** Without an overflow a poll delivers the events that follow the cursor, in order, as
      many as fit a page, and moves the cursor past exactly those. */
  lemma PageFollowsCursor<E>(f: Feed<E>, log: seq<E>, cursor: nat)
    requires Retains(f, log) && cursor <= |log|
    ensures Poll(f, cursor).Ok?
    ensures var page := Poll(f, cursor).value;
      && cursor <= page.next <= |log|
      && (!page.overflow ==>
            page.next == cursor + Min(PAGE, |log| - cursor) && Events(page.entries) == log[cursor..page.next])
  {
    var k, n := PageByPosition(f, log, cursor);
  }

  ghost predicate Numbered<E>(f: Feed<E>, n: nat) {
    exists i :: 0 <= i < |f.entries| && f.entries[i].number == n
  }

  // ---------- chains of polls ----------

  datatype Op<E> = Pushed(event: E) | Cleared | Polled

  /** What a client that feeds every `next` into its following poll has seen. */
  datatype Client<E> = Client(feed: Feed<E>, log: seq<E>, cursor: nat, seen: seq<E>, overflowed: bool)

  function Events<E>(entries: seq<Entry<E>>): seq<E> {
    seq(|entries|, i requires 0 <= i < |entries| => entries[i].event)
  }

  function Step<E>(c: Client<E>, op: Op<E>): Client<E> {
    match op
    case Pushed(e) => c.(feed := Push(c.feed, e), log := c.log + [e])
    case Cleared => c.(feed := Clear(c.feed))
    case Polled =>
      match Poll(c.feed, c.cursor)
      case Err(_) => c
      case Ok(page) => c.(cursor := page.next, seen := c.seen + Events(page.entries),
                          overflowed := c.overflowed || page.overflow)
  }

  function Chain<E>(c: Client<E>, ops: seq<Op<E>>): Client<E>
    decreases |ops|
  {
    if ops == [] then c else Chain(Step(c, ops[0]), ops[1..])
  }

  ghost predicate Faithful<E>(c: Client<E>, start: nat) {
    && Retains(c.feed, c.log)
    && start <= c.cursor <= |c.log|
    && (!c.overflowed ==> c.seen == c.log[start..c.cursor])
  }

  lemma {:induction false} ChainFaithful<E>(c: Client<E>, start: nat, ops: seq<Op<E>>)
    requires Faithful(c, start)
    ensures Faithful(Chain(c, ops), start)
    ensures c.overflowed ==> Chain(c, ops).overflowed
    decreases |ops|
  {
    if ops != [] {
      var next := Step(c, ops[0]);
      match ops[0] {
        case Pushed(e) => PushRetains(c.feed, c.log, e);
        case Cleared =>
        case Polled =>
          PageFollowsCursor(c.feed, c.log, c.cursor);
          var page := Poll(c.feed, c.cursor).value;
          if !page.overflow {
            assert c.log[start..c.cursor] + c.log[c.cursor..page.next] == c.log[start..page.next];
          }
      }
      ChainFaithful(next, start, ops[1..]);
    }
  }

  /** Whatever is pushed or cleared in between, a chain of polls that never overflowed has
      delivered every event once, in order, without gaps. */
  lemma ChainOfPollsIsLossless<E>(ops: seq<Op<E>>)
    ensures var c := Chain(Client(Empty(), [], 0, [], false), ops);
      Retains(c.feed, c.log) && c.cursor <= |c.log| && (!c.overflowed ==> c.seen == c.log[..c.cursor])
  {
    ChainFaithful(Client(Empty(), [], 0, [], false), 0, ops);
  }
}
