/** The worker's input loop: units are gathered into lines until one grows too long.  The limit
    counts units here, where the host counts the bytes of a line.  The loop that the worker runs
    on its input is proved against a fold over the units, and the fold against the lines of the
    text as the splitter of the host defines them. */
module WorkerInput {
  import Framing
  import opened Utf8

  /** The lines read so far, the one being gathered, and whether the loop gave up. */
  datatype Input = Input(lines: seq<Text>, line: Text, failed: bool)

  const EMPTY := Input([], [], false)

  function Fed(s: Input, u: CodeUnit): Input {
    if s.failed then s
    else if u == Framing.NEWLINE then Input(s.lines + [s.line], [], false)
    else s.(line := s.line + [u], failed := |s.line| + 1 > Framing.MAX_LINE)
  }

  function FedAll(s: Input, t: Text): Input
    decreases |t|
  {
    if t == [] then s else FedAll(Fed(s, t[0]), t[1..])
  }

  lemma {:induction false} FailedStays(s: Input, t: Text)
    requires s.failed
    ensures FedAll(s, t) == s
    decreases |t|
  {
    if t != [] { FailedStays(s, t[1..]); }
  }

  /** Reads until the end of the input, or until a line is too long. */
  method ReadInput(t: Text) returns (lines: seq<Text>, line: Text, failed: bool)
    ensures Input(lines, line, failed) == FedAll(EMPTY, t)
  {
    lines, line := [], [];
    for i := 0 to |t|
      invariant FedAll(Input(lines, line, false), t[i..]) == FedAll(EMPTY, t)
    {
      assert t[i..][1..] == t[i + 1..];
      if t[i] != Framing.NEWLINE {
        line := line + [t[i]];
        if |line| > Framing.MAX_LINE {
          FailedStays(Input(lines, line, true), t[i + 1..]);
          return lines, line, true;
        }
      } else {
        lines, line := lines + [line], [];
      }
    }
    assert t[|t|..] == [];
    failed := false;
  }

  /** A line, or what follows the last one, has more units than the limit. */
  predicate TooLong(t: Text)
    decreases |t|
  {
    var i := Framing.NewlineIndex(t);
    i > Framing.MAX_LINE || (i < |t| && TooLong(t[i + 1..]))
  }

  /** The loop gives up exactly when a line is too long, and otherwise has read the lines. */
  ghost predicate Reads(s: Input, t: Text) {
    var end := FedAll(s, t);
    && (end.failed <==> TooLong(s.line + t))
    && (!end.failed ==> end.lines == s.lines + Framing.Lines(s.line + t))
  }

  predicate Gathering(s: Input) {
    !s.failed && |s.line| <= Framing.MAX_LINE && Framing.NewlineIndex(s.line) == |s.line|
  }

  lemma {:induction false} ReadsExactly(s: Input, t: Text)
    requires Gathering(s)
    ensures Reads(s, t)
    decreases |t|
  {
    if t == [] {
      assert s.line + t == s.line;
    } else {
      assert s.line + t == s.line + [t[0]] + t[1..];
      if t[0] == Framing.NEWLINE {
        LineEnds(s, t);
      } else {
        LineGrows(s, t);
      }
      if !Fed(s, t[0]).failed { ReadsExactly(Fed(s, t[0]), t[1..]); }
    }
  }

  lemma LineGrows(s: Input, t: Text)
    requires Gathering(s) && t != [] && t[0] != Framing.NEWLINE
    ensures var next := Fed(s, t[0]);
      if next.failed then Reads(s, t) else Gathering(next) && (Reads(next, t[1..]) ==> Reads(s, t))
  {
    var next := Fed(s, t[0]);
    Framing.IndexInConcat(s.line, [t[0]]);
    Framing.IndexInConcat(next.line, t[1..]);
    assert s.line + t == next.line + t[1..];
    if next.failed { FailedStays(next, t[1..]); }
  }

  lemma LineEnds(s: Input, t: Text)
    requires Gathering(s) && t != [] && t[0] == Framing.NEWLINE
    ensures Gathering(Fed(s, t[0])) && (Reads(Fed(s, t[0]), t[1..]) ==> Reads(s, t))
  {
    var rest := t[1..];
    assert s.line + t == s.line + [Framing.NEWLINE] + rest && [] + rest == rest;
    Framing.NewlineFound(s.line, rest);
    Framing.SliceAround(s.line, Framing.NEWLINE, rest);
  }
}
