/** The JSON codec of the worker bridge, over UTF-16 code units. */
module Json {
  import opened Utf8
  import opened Wrappers

  const QUOTE: CodeUnit := 34
  const COMMA: CodeUnit := 44
  const MINUS: CodeUnit := 45
  const COLON: CodeUnit := 58
  const OPEN_BRACKET: CodeUnit := 91
  const BACKSLASH: CodeUnit := 92
  const CLOSE_BRACKET: CodeUnit := 93
  const OPEN_BRACE: CodeUnit := 123
  const CLOSE_BRACE: CodeUnit := 125
  const TRUE: Text := [116, 114, 117, 101]
  const FALSE: Text := [102, 97, 108, 115, 101]
  const NULL: Text := [110, 117, 108, 108]

  /** Doubles are kept as the text they were read from. */
  datatype Value =
    | Null
    | Bool(b: bool)
    | Long(n: int)
    | Double(text: Text)
    | Str(s: Text)
    | List(items: seq<Value>)
    | Map(entries: seq<Entry>)

  datatype Entry = Entry(key: Text, value: Value)

  // ---------- reading ----------

  /** `Bad` stands for every exception of the reader. */
  datatype Parsed<+T> = Bad | Good(value: T, rest: Text)

  predicate IsSpace(u: CodeUnit) {
    9 <= u <= 13 || 28 <= u <= 32 || u == 0x1680 || 0x2000 <= u <= 0x2006 || 0x2008 <= u <= 0x200A
    || u == 0x2028 || u == 0x2029 || u == 0x205F || u == 0x3000
  }

  function SkipSpace(t: Text): Text {
    if t != [] && IsSpace(t[0]) then SkipSpace(t[1..]) else t
  }

  predicate IsDigit(u: CodeUnit) { 48 <= u <= 57 }

  function HexDigit(u: CodeUnit): Option<nat> {
    if IsDigit(u) then Some(u - 48)
    else if 97 <= u <= 102 then Some(u - 87)
    else if 65 <= u <= 70 then Some(u - 55)
    else None
  }

  function HexValue(t: Text, acc: nat): Option<nat> {
    if t == [] then Some(acc)
    else match HexDigit(t[0])
      case None => None
      case Some(d) => HexValue(t[1..], 16 * acc + d)
  }

  /** Four characters after `\u`: a sign is accepted in front of the digits, and the value is
      cut to sixteen bits. */
  function Escape(t: Text): Option<CodeUnit>
    requires |t| == 4
  {
    var signed := t[0] == MINUS || t[0] == 43;
    match HexValue(if signed then t[1..] else t, 0)
    case None => None
    case Some(n) =>
      var value: int := n;
      Some((if t[0] == MINUS then -value else value) % 0x1_0000)
  }

  function Unescaped(u: CodeUnit): Option<CodeUnit> {
    if u == 110 then Some(10)
    else if u == 114 then Some(13)
    else if u == 116 then Some(9)
    else if u == 98 then Some(8)
    else if u == 102 then Some(12)
    else if u == QUOTE || u == BACKSLASH || u == 47 then Some(u)
    else None
  }

  /** After the opening quote. */
  function ReadString(t: Text, acc: Text): Parsed<Text>
    ensures ReadString(t, acc).Good? ==> |ReadString(t, acc).rest| < |t|
  {
    if t == [] then Bad
    else if t[0] == QUOTE then Good(acc, t[1..])
    else if t[0] == BACKSLASH then
      if |t| < 2 then Bad
      else if t[1] == 117 then
        if |t| < 6 then Bad
        else match Escape(t[2..6])
          case None => Bad
          case Some(u) => ReadString(t[6..], acc + [u])
      else match Unescaped(t[1])
        case None => Bad
        case Some(u) => ReadString(t[2..], acc + [u])
    else if t[0] < 32 then Bad
    else ReadString(t[1..], acc + [t[0]])
  }

  /** One of `-+0123456789.eE`. */
  predicate IsNumeric(u: CodeUnit) { IsDigit(u) || u in {MINUS, 43, 46, 101, 69} }

  function NumericLength(t: Text): (n: nat)
    ensures n <= |t|
  {
    if t != [] && IsNumeric(t[0]) then 1 + NumericLength(t[1..]) else 0
  }

  function DigitsValue(t: Text, acc: nat): Option<nat> {
    if t == [] then Some(acc)
    else if IsDigit(t[0]) then DigitsValue(t[1..], 10 * acc + (t[0] - 48))
    else None
  }

  const LONG_MAX: int := 0x7FFF_FFFF_FFFF_FFFF

  function LongOf(t: Text): Option<Value> {
    var signed := t != [] && (t[0] == MINUS || t[0] == 43);
    var digits := if signed then t[1..] else t;
    if digits == [] then None
    else match DigitsValue(digits, 0)
      case None => None
      case Some(n) =>
        var magnitude: int := n;
        var value := if signed && t[0] == MINUS then -magnitude else magnitude;
        if -LONG_MAX - 1 <= value <= LONG_MAX then Some(Long(value)) else None
  }

  function DigitRun(t: Text): (n: nat)
    ensures n <= |t|
  {
    if t != [] && IsDigit(t[0]) then 1 + DigitRun(t[1..]) else 0
  }

  /** Digits with an optional point, at least one digit in all, and an optional exponent. */
  predicate IsDouble(t: Text) {
    var unsigned := if t != [] && (t[0] == MINUS || t[0] == 43) then t[1..] else t;
    var whole := DigitRun(unsigned);
    var after := unsigned[whole..];
    var fraction := if after != [] && after[0] == 46 then DigitRun(after[1..]) else 0;
    var tail := if after != [] && after[0] == 46 then after[1 + fraction..] else after;
    && whole + fraction > 0
    && (tail == [] ||
        (tail[0] in {101, 69} &&
         var exponent := if |tail| > 1 && (tail[1] == MINUS || tail[1] == 43) then tail[2..] else tail[1..];
         exponent != [] && DigitRun(exponent) == |exponent|))
  }

  function NumberOf(t: Text): Option<Value> {
    if 46 !in t && 101 !in t && 69 !in t then LongOf(t)
    else if IsDouble(t) then Some(Double(t))
    else None
  }

  /** A repeated key keeps its place and takes the new value. */
  function Put(entries: seq<Entry>, key: Text, value: Value): seq<Entry> {
    if entries == [] then [Entry(key, value)]
    else if entries[0].key == key then [Entry(key, value)] + entries[1..]
    else [entries[0]] + Put(entries[1..], key, value)
  }

  function ReadScalar(t: Text): Parsed<Value> {
    if TRUE <= t then Good(Bool(true), t[4..])
    else if FALSE <= t then Good(Bool(false), t[5..])
    else if NULL <= t then Good(Null, t[4..])
    else
      var n := NumericLength(t);
      match NumberOf(t[..n])
      case None => Bad
      case Some(v) => Good(v, t[n..])
  }

  lemma SkipSpaceShortens(t: Text)
    ensures |SkipSpace(t)| <= |t|
  {
  }

  function ReadValue(text: Text): Parsed<Value>
    ensures ReadValue(text).Good? ==> |ReadValue(text).rest| <= |text|
    decreases |text|, 1
  {
    SkipSpaceShortens(text);
    var t := SkipSpace(text);
    if t == [] then Bad
    else if t[0] == QUOTE then
      match ReadString(t[1..], [])
      case Bad => Bad
      case Good(s, rest) => Good(Str(s), rest)
    else if t[0] == OPEN_BRACE then
      SkipSpaceShortens(t[1..]);
      var body := SkipSpace(t[1..]);
      if body == [] then Bad
      else if body[0] == CLOSE_BRACE then Good(Map([]), body[1..])
      else ReadMembers(body, [])
    else if t[0] == OPEN_BRACKET then
      SkipSpaceShortens(t[1..]);
      var body := SkipSpace(t[1..]);
      if body == [] then Bad
      else if body[0] == CLOSE_BRACKET then Good(List([]), body[1..])
      else ReadItems(body, [])
    else ReadScalar(t)
  }

  /** A quoted key and the colon after it. */
  function ReadKey(text: Text): Parsed<Text>
    ensures ReadKey(text).Good? ==> |ReadKey(text).rest| < |text|
  {
    SkipSpaceShortens(text);
    var t := SkipSpace(text);
    if t == [] || t[0] != QUOTE then Bad
    else match ReadString(t[1..], [])
      case Bad => Bad
      case Good(key, afterKey) =>
        SkipSpaceShortens(afterKey);
        var colon := SkipSpace(afterKey);
        if colon == [] || colon[0] != COLON then Bad else Good(key, colon[1..])
  }

  function ReadMembers(text: Text, acc: seq<Entry>): Parsed<Value>
    ensures ReadMembers(text, acc).Good? ==> |ReadMembers(text, acc).rest| <= |text|
    decreases |text|, 2
  {
    match ReadKey(text)
    case Bad => Bad
    case Good(key, rest) => AfterColon(key, rest, acc)
  }

  function AfterColon(key: Text, text: Text, acc: seq<Entry>): Parsed<Value>
    ensures AfterColon(key, text, acc).Good? ==> |AfterColon(key, text, acc).rest| <= |text|
    decreases |text|, 3
  {
    match ReadValue(text)
    case Bad => Bad
    case Good(value, afterValue) =>
      SkipSpaceShortens(afterValue);
      var next := SkipSpace(afterValue);
      if next == [] then Bad
      else if next[0] == COMMA then ReadMembers(next[1..], Put(acc, key, value))
      else if next[0] == CLOSE_BRACE then Good(Map(Put(acc, key, value)), next[1..])
      else Bad
  }

  function ReadItems(text: Text, acc: seq<Value>): Parsed<Value>
    ensures ReadItems(text, acc).Good? ==> |ReadItems(text, acc).rest| <= |text|
    decreases |text|, 2
  {
    match ReadValue(text)
    case Bad => Bad
    case Good(value, afterValue) =>
      SkipSpaceShortens(afterValue);
      var next := SkipSpace(afterValue);
      if next == [] then Bad
      else if next[0] == COMMA then ReadItems(next[1..], acc + [value])
      else if next[0] == CLOSE_BRACKET then Good(List(acc + [value]), next[1..])
      else Bad
  }

  /** The whole text is one value. */
  function ReadAll(text: Text): Option<Value> {
    match ReadValue(text)
    case Bad => None
    case Good(v, rest) => if SkipSpace(rest) == [] then Some(v) else None
  }

  // ---------- writing ----------

  function HexCharacter(d: int): CodeUnit
    requires 0 <= d < 16
  {
    if d < 10 then 48 + d else 87 + d
  }

  function Hex4(u: CodeUnit): Text {
    [HexCharacter(u / 4096), HexCharacter(u / 256 % 16), HexCharacter(u / 16 % 16), HexCharacter(u % 16)]
  }

  /** Who prints: the worker's own printer, or `JSON.stringify` on the host. */
  datatype Side = WorkerSide | HostSide

  function EscapedUnit(side: Side, u: CodeUnit): Text {
    if u == QUOTE || u == BACKSLASH then [BACKSLASH, u]
    else if u == 10 then [BACKSLASH, 110]
    else if u == 13 then [BACKSLASH, 114]
    else if u == 9 then [BACKSLASH, 116]
    else if side.HostSide? && u == 8 then [BACKSLASH, 98]
    else if side.HostSide? && u == 12 then [BACKSLASH, 102]
    else if u < 32 || IsSurrogate(u) then [BACKSLASH, 117] + Hex4(u)
    else [u]
  }

  /** How many units the printer takes at once, and what it makes of them. */
  function Span(side: Side, s: Text): (n: nat)
    requires s != []
    ensures 0 < n <= |s|
  {
    if side.HostSide? && Paired(s) then 2 else 1
  }

  function EscapedFirst(side: Side, s: Text): Text
    requires s != []
  {
    if side.HostSide? && Paired(s) then s[..2] else EscapedUnit(side, s[0])
  }

  /** The host leaves surrogate pairs as they are, the worker escapes both halves. */
  function Escaped(side: Side, s: Text): Text {
    if s == [] then [] else EscapedFirst(side, s) + Escaped(side, s[Span(side, s)..])
  }

  function WriteString(side: Side, s: Text): Text { [QUOTE] + Escaped(side, s) + [QUOTE] }

  function Decimal(n: nat): Text {
    if n < 10 then [48 + n] else Decimal(n / 10) + [48 + n % 10]
  }

  function Write(side: Side, v: Value): Text {
    match v
    case Null => NULL
    case Bool(b) => if b then TRUE else FALSE
    case Long(n) => if n < 0 then [MINUS] + Decimal(-n) else Decimal(n)
    case Double(text) => text
    case Str(s) => WriteString(side, s)
    case List(items) => [OPEN_BRACKET] + WriteItems(side, items) + [CLOSE_BRACKET]
    case Map(entries) => [OPEN_BRACE] + WriteEntries(side, entries) + [CLOSE_BRACE]
  }

  function WriteItems(side: Side, items: seq<Value>): Text {
    if items == [] then []
    else if |items| == 1 then Write(side, items[0])
    else Write(side, items[0]) + [COMMA] + WriteItems(side, items[1..])
  }

  function WriteEntry(side: Side, e: Entry): Text { WriteString(side, e.key) + [COLON] + Write(side, e.value) }

  function WriteEntries(side: Side, entries: seq<Entry>): Text {
    if entries == [] then []
    else if |entries| == 1 then WriteEntry(side, entries[0])
    else WriteEntry(side, entries[0]) + [COMMA] + WriteEntries(side, entries[1..])
  }

  // ---------- round trip ----------

  /** What the bridge sends: no doubles, longs in range, maps with distinct keys. */
  ghost predicate Sendable(v: Value) {
    match v
    case Double(_) => false
    case Long(n) => -LONG_MAX - 1 <= n <= LONG_MAX
    case List(items) => forall i :: 0 <= i < |items| ==> Sendable(items[i])
    case Map(entries) =>
      && DistinctKeys(entries)
      && forall i :: 0 <= i < |entries| ==> Sendable(entries[i].value)
    case _ => true
  }

  ghost predicate DistinctKeys(entries: seq<Entry>) {
    forall i, j :: 0 <= i < j < |entries| ==> entries[i].key != entries[j].key
  }

  lemma HexDigits(u: CodeUnit) returns (a: int, b: int, c: int, d: int)
    ensures 0 <= a < 16 && 0 <= b < 16 && 0 <= c < 16 && 0 <= d < 16
    ensures u == ((a * 16 + b) * 16 + c) * 16 + d
    ensures Hex4(u) == [HexCharacter(a), HexCharacter(b), HexCharacter(c), HexCharacter(d)]
  {
    var h, q: int := u / 16, u / 256;
    assert q == h / 16 && u / 4096 == q / 16;
    a, b, c, d := u / 4096, q % 16, h % 16, u % 16;
    assert u == h * 16 + d && h == q * 16 + c && q == a * 16 + b;
  }

  lemma HexValueReads(d: int, rest: Text, acc: nat)
    requires 0 <= d < 16
    ensures HexValue([HexCharacter(d)] + rest, acc) == HexValue(rest, 16 * acc + d)
  {
  }

  lemma FourDigitsRead(a: int, b: int, c: int, d: int)
    requires 0 <= a < 16 && 0 <= b < 16 && 0 <= c < 16 && 0 <= d < 16
    ensures HexValue([HexCharacter(a), HexCharacter(b), HexCharacter(c), HexCharacter(d)], 0)
         == Some(((a * 16 + b) * 16 + c) * 16 + d)
  {
    var x, y, z, w := HexCharacter(a), HexCharacter(b), HexCharacter(c), HexCharacter(d);
    HexValueReads(a, [y, z, w], 0);
    HexValueReads(b, [z, w], a);
    HexValueReads(c, [w], a * 16 + b);
    HexValueReads(d, [], (a * 16 + b) * 16 + c);
    assert [x, y, z, w] == [x] + [y, z, w] && [y, z, w] == [y] + [z, w] && [z, w] == [z] + [w] && [w] == [w] + [];
  }

  lemma HexRoundTrip(u: CodeUnit)
    ensures Escape(Hex4(u)) == Some(u)
  {
    var a, b, c, d := HexDigits(u);
    FourDigitsRead(a, b, c, d);
    HexCharacterReads(a);
  }

  lemma HexCharacterReads(d: int)
    requires 0 <= d < 16
    ensures HexDigit(HexCharacter(d)) == Some(d)
  {
  }

  lemma EscapedUnitReads(side: Side, u: CodeUnit, rest: Text, acc: Text)
    ensures ReadString(EscapedUnit(side, u) + rest, acc) == ReadString(rest, acc + [u])
  {
    var t := EscapedUnit(side, u) + rest;
    if |EscapedUnit(side, u)| == 6 {
      HexRoundTrip(u);
      assert t[2..6] == Hex4(u);
      assert t[6..] == rest;
    } else if |EscapedUnit(side, u)| == 2 {
      assert t[2..] == rest;
    } else {
      assert t[1..] == rest;
    }
  }

  lemma PairReads(pair: Text, rest: Text, acc: Text)
    requires Paired(pair) && |pair| == 2
    ensures ReadString(pair + rest, acc) == ReadString(rest, acc + pair)
  {
    var t := pair + rest;
    assert t[1..][0] == pair[1] && t[1..][1..] == rest;
    assert acc + [pair[0]] + [pair[1]] == acc + pair;
  }

  lemma Regrouped<T>(a: seq<T>, b: seq<T>, c: seq<T>, d: seq<T>)
    ensures a + b + c + d == a + (b + c + d)
  {
  }

  lemma FirstReads(side: Side, s: Text, rest: Text, acc: Text)
    requires s != []
    ensures ReadString(EscapedFirst(side, s) + rest, acc) == ReadString(rest, acc + s[..Span(side, s)])
  {
    if side.HostSide? && Paired(s) {
      PairReads(s[..2], rest, acc);
    } else {
      assert s[..1] == [s[0]];
      EscapedUnitReads(side, s[0], rest, acc);
    }
  }

  lemma SplitBehind<T>(front: seq<T>, s: seq<T>, n: nat)
    requires n <= |s|
    ensures front + s[..n] + s[n..] == front + s
  {
  }

  lemma EscapedText(side: Side, s: Text, post: Text)
    requires s != []
    ensures Escaped(side, s) + [QUOTE] + post
         == EscapedFirst(side, s) + (Escaped(side, s[Span(side, s)..]) + [QUOTE] + post)
  {
    Regrouped(EscapedFirst(side, s), Escaped(side, s[Span(side, s)..]), [QUOTE], post);
  }

  lemma {:induction false} EscapedReads(side: Side, s: Text, post: Text, acc: Text)
    ensures ReadString(Escaped(side, s) + [QUOTE] + post, acc) == Good(acc + s, post)
    decreases |s|
  {
    if s == [] {
      assert Escaped(side, s) + [QUOTE] + post == [QUOTE] + post;
      assert acc + s == acc;
    } else {
      var n := Span(side, s);
      var rest := Escaped(side, s[n..]) + [QUOTE] + post;
      EscapedText(side, s, post);
      FirstReads(side, s, rest, acc);
      SplitBehind(acc, s, n);
      EscapedReads(side, s[n..], post, acc + s[..n]);
    }
  }

  lemma {:induction false} DigitsAppend(t: Text, digit: CodeUnit, acc: nat)
    requires IsDigit(digit) && DigitsValue(t, acc).Some?
    ensures DigitsValue(t + [digit], acc) == Some(10 * DigitsValue(t, acc).value + (digit - 48))
  {
    if t == [] {
      assert (t + [digit])[1..] == [];
    } else {
      assert (t + [digit])[1..] == t[1..] + [digit];
      DigitsAppend(t[1..], digit, 10 * acc + (t[0] - 48));
    }
  }

  lemma {:induction false} DecimalReads(n: nat)
    ensures DigitsValue(Decimal(n), 0) == Some(n)
    ensures Decimal(n) != [] && forall u :: u in Decimal(n) ==> IsDigit(u)
  {
    if n < 10 {
      assert Decimal(n)[1..] == [];
    } else {
      DecimalReads(n / 10);
      DigitsAppend(Decimal(n / 10), 48 + n % 10, 0);
    }
  }

  lemma {:induction false} NumericLengthOfRun(t: Text, post: Text)
    requires forall u :: u in t ==> IsNumeric(u)
    requires post == [] || !IsNumeric(post[0])
    ensures NumericLength(t + post) == |t|
  {
    if t == [] {
      assert t + post == post;
    } else {
      assert (t + post)[1..] == t[1..] + post;
      NumericLengthOfRun(t[1..], post);
    }
  }

  /** What may follow a value without being taken for a part of it. */
  predicate Separated(post: Text) { post == [] || !IsNumeric(post[0]) }

  lemma LongOfWritten(side: Side, n: int)
    requires -LONG_MAX - 1 <= n <= LONG_MAX
    ensures var t := Write(side, Long(n));
      && LongOf(t) == Some(Long(n)) && t != [] && (IsDigit(t[0]) || t[0] == MINUS)
      && forall u :: u in t ==> IsDigit(u) || u == MINUS
  {
    var t := Write(side, Long(n));
    DecimalReads(if n < 0 then -n else n);
    if n < 0 { assert t[1..] == Decimal(-n); }
  }

  lemma LongReads(side: Side, n: int, post: Text)
    requires -LONG_MAX - 1 <= n <= LONG_MAX && Separated(post)
    ensures ReadScalar(Write(side, Long(n)) + post) == Good(Long(n), post)
  {
    var t := Write(side, Long(n));
    LongOfWritten(side, n);
    NumericLengthOfRun(t, post);
    assert (t + post)[..|t|] == t && (t + post)[|t|..] == post;
    assert (t + post)[0] == t[0];
  }

  lemma StringReads(side: Side, s: Text, post: Text)
    ensures WriteString(side, s) + post == [QUOTE] + (Escaped(side, s) + [QUOTE] + post)
    ensures ReadString((WriteString(side, s) + post)[1..], []) == Good(s, post)
  {
    assert WriteString(side, s) + post == [QUOTE] + (Escaped(side, s) + [QUOTE] + post);
    assert (WriteString(side, s) + post)[1..] == Escaped(side, s) + [QUOTE] + post;
    EscapedReads(side, s, post, []);
    assert [] + s == s;
  }

  /** A sendable value is written starting with a character that opens a value. */
  lemma FirstUnit(side: Side, v: Value)
    requires Sendable(v)
    ensures Write(side, v) != []
    ensures !IsSpace(Write(side, v)[0])
    ensures Write(side, v)[0] !in {CLOSE_BRACKET, CLOSE_BRACE}
    ensures Write(side, v)[0] == QUOTE <==> v.Str?
    ensures Write(side, v)[0] == OPEN_BRACE <==> v.Map?
    ensures Write(side, v)[0] == OPEN_BRACKET <==> v.List?
  {
    if v.Long? { DecimalReads(if v.n < 0 then -v.n else v.n); }
  }

  lemma {:induction false} ScalarReads(side: Side, v: Value, post: Text)
    requires Sendable(v) && Separated(post) && !v.List? && !v.Map?
    ensures ReadValue(Write(side, v) + post) == Good(v, post)
  {
    FirstUnit(side, v);
    var t := Write(side, v) + post;
    assert t[0] == Write(side, v)[0] && SkipSpace(t) == t;
    match v
    case Long(n) => LongReads(side, n, post);
    case Str(s) => StringReads(side, s, post);
    case _ =>
  }

  lemma ArrayOpens(body: Text)
    requires body != [] && !IsSpace(body[0])
    ensures ReadValue([OPEN_BRACKET] + body)
         == if body[0] == CLOSE_BRACKET then Good(List([]), body[1..]) else ReadItems(body, [])
  {
  }

  lemma ObjectOpens(body: Text)
    requires body != [] && !IsSpace(body[0])
    ensures ReadValue([OPEN_BRACE] + body)
         == if body[0] == CLOSE_BRACE then Good(Map([]), body[1..]) else ReadMembers(body, [])
  {
  }

  lemma ListText(side: Side, items: seq<Value>, post: Text) returns (body: Text)
    ensures body == WriteItems(side, items) + [CLOSE_BRACKET] + post
    ensures Write(side, List(items)) + post == [OPEN_BRACKET] + body
  {
    body := WriteItems(side, items) + [CLOSE_BRACKET] + post;
  }

  lemma MapText(side: Side, entries: seq<Entry>, post: Text) returns (body: Text)
    ensures body == WriteEntries(side, entries) + [CLOSE_BRACE] + post
    ensures Write(side, Map(entries)) + post == [OPEN_BRACE] + body
  {
    body := WriteEntries(side, entries) + [CLOSE_BRACE] + post;
  }

  lemma ItemsOpen(side: Side, items: seq<Value>, tail: Text)
    requires items != [] && Sendable(items[0])
    ensures var body := WriteItems(side, items) + tail; body != [] && !IsSpace(body[0]) && body[0] != CLOSE_BRACKET
  {
    FirstUnit(side, items[0]);
  }

  /** Reading back what was written. */
  lemma {:induction false} ReadsBack(side: Side, v: Value, post: Text)
    requires Sendable(v) && Separated(post)
    ensures ReadValue(Write(side, v) + post) == Good(v, post)
    decreases v, 2
  {
    match v
    case List(items) => ListReadsBack(side, items, post);
    case Map(entries) => MapReadsBack(side, entries, post);
    case _ => ScalarReads(side, v, post);
  }

  lemma {:induction false} ListReadsBack(side: Side, items: seq<Value>, post: Text)
    requires Sendable(List(items))
    ensures ReadValue(Write(side, List(items)) + post) == Good(List(items), post)
    decreases items, 1
  {
    var body := ListText(side, items, post);
    if items == [] {
      assert body == [CLOSE_BRACKET] + post;
    } else {
      assert body == WriteItems(side, items) + ([CLOSE_BRACKET] + post);
      ItemsOpen(side, items, [CLOSE_BRACKET] + post);
      ItemsReadBack(side, items, post, []);
      assert [] + items == items;
    }
    ArrayOpens(body);
  }

  lemma {:induction false} MapReadsBack(side: Side, entries: seq<Entry>, post: Text)
    requires Sendable(Map(entries))
    ensures ReadValue(Write(side, Map(entries)) + post) == Good(Map(entries), post)
    decreases entries, 1
  {
    var body := MapText(side, entries, post);
    if entries == [] {
      assert body == [CLOSE_BRACE] + post;
    } else {
      assert body[0] == QUOTE;
      assert [] + entries == entries;
      EntriesReadBack(side, entries, post, []);
    }
    ObjectOpens(body);
  }

  lemma ItemsText(side: Side, items: seq<Value>, post: Text) returns (next: Text)
    requires items != []
    ensures WriteItems(side, items) + [CLOSE_BRACKET] + post == Write(side, items[0]) + next
    ensures |items| == 1 ==> next == [CLOSE_BRACKET] + post
    ensures |items| > 1 ==> next == [COMMA] + (WriteItems(side, items[1..]) + [CLOSE_BRACKET] + post)
  {
    next := if |items| == 1 then [CLOSE_BRACKET] + post
            else [COMMA] + (WriteItems(side, items[1..]) + [CLOSE_BRACKET] + post);
  }

  lemma ItemReads(side: Side, v: Value, next: Text, acc: seq<Value>)
    requires next != [] && next[0] in {COMMA, CLOSE_BRACKET}
    requires ReadValue(Write(side, v) + next) == Good(v, next)
    ensures ReadItems(Write(side, v) + next, acc)
         == if next[0] == COMMA then ReadItems(next[1..], acc + [v]) else Good(List(acc + [v]), next[1..])
  {
    assert SkipSpace(next) == next;
  }

  lemma {:induction false} ItemsReadBack(side: Side, items: seq<Value>, post: Text, acc: seq<Value>)
    requires items != [] && forall i :: 0 <= i < |items| ==> Sendable(items[i])
    ensures ReadItems(WriteItems(side, items) + [CLOSE_BRACKET] + post, acc) == Good(List(acc + items), post)
    decreases items, 0
  {
    var v := items[0];
    var next := ItemsText(side, items, post);
    ReadsBack(side, v, next);
    ItemReads(side, v, next, acc);
    assert items == [v] + items[1..];
    assert acc + [v] + items[1..] == acc + items;
    if |items| == 1 {
      assert [v] == items && next[1..] == post;
    } else {
      assert next[1..] == WriteItems(side, items[1..]) + [CLOSE_BRACKET] + post;
      ItemsReadBack(side, items[1..], post, acc + [v]);
    }
  }

  lemma {:induction false} PutFresh(entries: seq<Entry>, key: Text, value: Value)
    requires forall i :: 0 <= i < |entries| ==> entries[i].key != key
    ensures Put(entries, key, value) == entries + [Entry(key, value)]
  {
    if entries != [] {
      PutFresh(entries[1..], key, value);
      assert entries == [entries[0]] + entries[1..];
    }
  }

  lemma KeyReads(side: Side, key: Text, afterKey: Text, acc: seq<Entry>)
    requires afterKey != [] && afterKey[0] == COLON
    ensures ReadMembers(WriteString(side, key) + afterKey, acc) == AfterColon(key, afterKey[1..], acc)
  {
    var text := WriteString(side, key) + afterKey;
    StringReads(side, key, afterKey);
    assert text[0] == QUOTE && SkipSpace(text) == text;
    assert SkipSpace(afterKey) == afterKey;
  }

  lemma ValueReads(side: Side, e: Entry, next: Text, acc: seq<Entry>)
    requires next != [] && next[0] in {COMMA, CLOSE_BRACE}
    requires ReadValue(Write(side, e.value) + next) == Good(e.value, next)
    requires forall i :: 0 <= i < |acc| ==> acc[i].key != e.key
    ensures AfterColon(e.key, Write(side, e.value) + next, acc)
         == if next[0] == COMMA then ReadMembers(next[1..], acc + [e]) else Good(Map(acc + [e]), next[1..])
  {
    assert SkipSpace(next) == next;
    PutFresh(acc, e.key, e.value);
  }

  lemma MemberText(side: Side, e: Entry, next: Text)
    ensures WriteEntry(side, e) + next == WriteString(side, e.key) + ([COLON] + (Write(side, e.value) + next))
  {
  }

  /** One `key:value` member, followed by a comma or the closing brace. */
  lemma MemberReads(side: Side, e: Entry, next: Text, acc: seq<Entry>)
    requires next != [] && next[0] in {COMMA, CLOSE_BRACE}
    requires ReadValue(Write(side, e.value) + next) == Good(e.value, next)
    requires forall i :: 0 <= i < |acc| ==> acc[i].key != e.key
    ensures ReadMembers(WriteEntry(side, e) + next, acc)
         == if next[0] == COMMA then ReadMembers(next[1..], acc + [e]) else Good(Map(acc + [e]), next[1..])
  {
    var value := Write(side, e.value) + next;
    MemberText(side, e, next);
    KeyReads(side, e.key, [COLON] + value, acc);
    assert ([COLON] + value)[1..] == value;
    ValueReads(side, e, next, acc);
  }

  lemma EntriesText(side: Side, entries: seq<Entry>, post: Text) returns (next: Text)
    requires entries != []
    ensures WriteEntries(side, entries) + [CLOSE_BRACE] + post == WriteEntry(side, entries[0]) + next
    ensures |entries| == 1 ==> next == [CLOSE_BRACE] + post
    ensures |entries| > 1 ==> next == [COMMA] + (WriteEntries(side, entries[1..]) + [CLOSE_BRACE] + post)
  {
    next := if |entries| == 1 then [CLOSE_BRACE] + post
            else [COMMA] + (WriteEntries(side, entries[1..]) + [CLOSE_BRACE] + post);
  }

  lemma FirstIsFresh(acc: seq<Entry>, entries: seq<Entry>)
    requires entries != [] && DistinctKeys(acc + entries)
    ensures forall i :: 0 <= i < |acc| ==> acc[i].key != entries[0].key
    ensures acc + [entries[0]] + entries[1..] == acc + entries
  {
    forall i | 0 <= i < |acc| ensures acc[i].key != entries[0].key {
      assert (acc + entries)[i] == acc[i] && (acc + entries)[|acc|] == entries[0];
    }
  }

  lemma {:induction false} EntriesReadBack(side: Side, entries: seq<Entry>, post: Text, acc: seq<Entry>)
    requires entries != [] && DistinctKeys(acc + entries)
    requires forall i :: 0 <= i < |entries| ==> Sendable(entries[i].value)
    ensures ReadMembers(WriteEntries(side, entries) + [CLOSE_BRACE] + post, acc) == Good(Map(acc + entries), post)
    decreases entries, 0
  {
    var e := entries[0];
    FirstIsFresh(acc, entries);
    var next := EntriesText(side, entries, post);
    ReadsBack(side, e.value, next);
    MemberReads(side, e, next, acc);
    if |entries| == 1 {
      assert [e] == entries && next[1..] == post;
    } else {
      assert next[1..] == WriteEntries(side, entries[1..]) + [CLOSE_BRACE] + post;
      EntriesReadBack(side, entries[1..], post, acc + [e]);
    }
  }

  /** Every value the bridge sends is read back unchanged. */
  lemma RoundTrip(side: Side, v: Value)
    requires Sendable(v)
    ensures ReadAll(Write(side, v)) == Some(v)
  {
    ReadsBack(side, v, []);
    assert Write(side, v) + [] == Write(side, v);
  }

  /** What reaches the pipe: no control character, so no line end inside a message, and no
      surrogate on its own (from the worker none at all), so UTF-8 loses nothing. */
  ghost predicate Plain(side: Side, t: Text) {
    && (forall u :: u in t ==> u >= 32 && (side.WorkerSide? ==> !IsSurrogate(u)))
    && WellFormed(t)
  }

  lemma {:induction false} WithoutSurrogates(t: Text)
    requires forall u :: u in t ==> !IsSurrogate(u)
    ensures WellFormed(t)
  {
    if t != [] { WithoutSurrogates(t[1..]); }
  }

  lemma PlainConcat(side: Side, a: Text, b: Text)
    requires Plain(side, a) && Plain(side, b)
    ensures Plain(side, a + b)
  {
    WellFormedConcat(a, b);
  }

  lemma UnitPlain(side: Side, u: CodeUnit)
    ensures Plain(side, EscapedUnit(side, u))
  {
    WithoutSurrogates(EscapedUnit(side, u));
  }

  lemma {:induction false} EscapedPlain(side: Side, s: Text)
    ensures Plain(side, Escaped(side, s))
    decreases |s|
  {
    if s == [] {
    } else if side.HostSide? && Paired(s) {
      assert Paired(s[..2]) && s[..2][Width(s[..2])..] == [];
      EscapedPlain(side, s[2..]);
      PlainConcat(side, s[..2], Escaped(side, s[2..]));
    } else {
      UnitPlain(side, s[0]);
      EscapedPlain(side, s[1..]);
      PlainConcat(side, EscapedUnit(side, s[0]), Escaped(side, s[1..]));
    }
  }

  lemma StringPlain(side: Side, s: Text)
    ensures Plain(side, WriteString(side, s))
  {
    EscapedPlain(side, s);
    Enclosed(side, [QUOTE], Escaped(side, s), [QUOTE]);
  }

  lemma Enclosed(side: Side, open: Text, t: Text, close: Text)
    requires |open| == |close| == 1 && 32 <= open[0] < 128 && 32 <= close[0] < 128 && Plain(side, t)
    ensures Plain(side, open + t + close)
  {
    WithoutSurrogates(open);
    WithoutSurrogates(close);
    PlainConcat(side, open, t);
    PlainConcat(side, open + t, close);
  }

  lemma Separately(side: Side, a: Text, separator: Text, b: Text)
    requires |separator| == 1 && 32 <= separator[0] < 128 && Plain(side, a) && Plain(side, b)
    ensures Plain(side, a + separator + b)
  {
    WithoutSurrogates(separator);
    PlainConcat(side, a, separator);
    PlainConcat(side, a + separator, b);
  }

  lemma NumberPlain(side: Side, n: int)
    ensures Plain(side, Write(side, Long(n)))
  {
    DecimalReads(if n < 0 then -n else n);
    WithoutSurrogates(Write(side, Long(n)));
  }

  lemma {:induction false} WrittenPlain(side: Side, v: Value)
    requires Sendable(v)
    ensures Plain(side, Write(side, v))
    decreases v, 1
  {
    match v
    case Str(s) => StringPlain(side, s);
    case List(items) =>
      ItemsPlain(side, items);
      Enclosed(side, [OPEN_BRACKET], WriteItems(side, items), [CLOSE_BRACKET]);
    case Map(entries) =>
      EntriesPlain(side, entries);
      Enclosed(side, [OPEN_BRACE], WriteEntries(side, entries), [CLOSE_BRACE]);
    case Long(n) => NumberPlain(side, n);
    case _ => WithoutSurrogates(Write(side, v));
  }

  lemma {:induction false} ItemsPlain(side: Side, items: seq<Value>)
    requires forall i :: 0 <= i < |items| ==> Sendable(items[i])
    ensures Plain(side, WriteItems(side, items))
    decreases items, 0
  {
    if items != [] {
      WrittenPlain(side, items[0]);
      ItemsPlain(side, items[1..]);
      Separately(side, Write(side, items[0]), [COMMA], WriteItems(side, items[1..]));
    }
  }

  lemma {:induction false} EntriesPlain(side: Side, entries: seq<Entry>)
    requires forall i :: 0 <= i < |entries| ==> Sendable(entries[i].value)
    ensures Plain(side, WriteEntries(side, entries))
    decreases entries, 0
  {
    if entries != [] {
      StringPlain(side, entries[0].key);
      WrittenPlain(side, entries[0].value);
      Separately(side, WriteString(side, entries[0].key), [COLON], Write(side, entries[0].value));
      EntriesPlain(side, entries[1..]);
      Separately(side, WriteEntry(side, entries[0]), [COMMA], WriteEntries(side, entries[1..]));
    }
  }

  // ---------- the codec object ----------

  /** The reader advances a cursor over its text; `None` stands for an exception. */
  class Reader {
    const s: Text
    var p: nat

    constructor (s: Text)
      ensures this.s == s && p == 0
    {
      this.s := s;
      p := 0;
    }

    predicate Within() reads this { p <= |s| }

    /** The cursor consumed what the specification consumes, or both refuse. */
    ghost predicate Follows<T>(r: Option<T>, spec: Parsed<T>) reads this {
      match spec
      case Bad => r.None?
      case Good(v, rest) => r == Some(v) && Within() && s[p..] == rest
    }

    method Ws()
      requires Within()
      modifies this
      ensures old(p) <= p <= |s| && s[p..] == SkipSpace(s[old(p)..])
    {
      while p < |s| && IsSpace(s[p])
        invariant old(p) <= p <= |s| && SkipSpace(s[p..]) == SkipSpace(s[old(p)..])
      {
        assert s[p..][1..] == s[p + 1..];
        p := p + 1;
      }
    }

    method String() returns (r: Option<Text>)
      requires Within()
      modifies this
      ensures Follows(r, ReadString(s[old(p)..], [])) && old(p) <= p
      ensures r.Some? ==> old(p) < p
    {
      var b: Text := [];
      while p < |s|
        invariant old(p) <= p <= |s| && ReadString(s[p..], b) == ReadString(s[old(p)..], [])
      {
        ghost var t := s[p..];
        var c := s[p];
        p := p + 1;
        assert t[0] == c && t[1..] == s[p..];
        if c == QUOTE { return Some(b); }
        if c == BACKSLASH {
          if p == |s| { return None; }
          var e := s[p];
          p := p + 1;
          assert t[1] == e && t[2..] == s[p..];
          if e == 117 {
            if p + 4 > |s| { return None; }
            var u := Escape(s[p..p + 4]);
            assert t[2..6] == s[p..p + 4];
            if u.None? { return None; }
            p := p + 4;
            assert t[6..] == s[p..];
            b := b + [u.value];
          } else {
            var u := Unescaped(e);
            if u.None? { return None; }
            b := b + [u.value];
          }
        } else if c < 32 {
          return None;
        } else {
          b := b + [c];
        }
      }
      r := None;
    }

    static lemma NumericFront(t: Text, k: nat)
      requires k < |t| && IsNumeric(t[k])
      ensures NumericLength(t[k..]) == 1 + NumericLength(t[k + 1..])
    {
      assert t[k..][1..] == t[k + 1..];
    }

    /** A run of numeric characters, and where it ends. */
    static lemma NumericRun(t: Text, start: nat, end: nat)
      requires start <= end <= |t| && NumericLength(t[start..]) == end - start + NumericLength(t[end..])
      requires end == |t| || !IsNumeric(t[end])
      ensures NumericLength(t[start..]) == end - start
      ensures t[start..][..end - start] == t[start..end] && t[start..][end - start..] == t[end..]
    {
    }

    method Number() returns (r: Option<Value>)
      requires Within()
      modifies this
      ensures old(p) <= p <= |s| && NumericLength(s[old(p)..]) == p - old(p)
      ensures r == NumberOf(s[old(p)..p])
    {
      var start := p;
      while p < |s| && IsNumeric(s[p])
        invariant start <= p <= |s| && NumericLength(s[start..]) == p - start + NumericLength(s[p..])
      {
        NumericFront(s, p);
        p := p + 1;
      }
      NumericRun(s, start, p);
      r := NumberOf(s[start..p]);
    }

    static lemma ScalarNumber(t: Text, n: nat)
      requires !(TRUE <= t) && !(FALSE <= t) && !(NULL <= t) && NumericLength(t) == n
      ensures ReadScalar(t) == match NumberOf(t[..n]) case None => Bad case Some(v) => Good(v, t[n..])
    {
    }

    method Scalar() returns (r: Option<Value>)
      requires Within()
      modifies this
      ensures Follows(r, ReadScalar(s[old(p)..])) && old(p) <= p
    {
      if TRUE <= s[p..] { p := p + 4; return Some(Bool(true)); }
      if FALSE <= s[p..] { p := p + 5; return Some(Bool(false)); }
      if NULL <= s[p..] { p := p + 4; return Some(Null); }
      ghost var start := p;
      r := Number();
      assert s[start..][..p - start] == s[start..p];
      assert s[start..][p - start..] == s[p..];
      ScalarNumber(s[start..], p - start);
    }

    /** Skips white space and takes one character. */
    method Next() returns (c: Option<CodeUnit>)
      requires Within()
      modifies this
      ensures var t := SkipSpace(s[old(p)..]);
        if t == [] then c.None? else c == Some(t[0]) && old(p) < p <= |s| && s[p..] == t[1..]
    {
      Ws();
      if p == |s| { return None; }
      c := Some(s[p]);
      assert s[p..][1..] == s[p + 1..];
      p := p + 1;
    }

    method Key() returns (k: Option<Text>)
      requires Within()
      modifies this
      ensures Follows(k, ReadKey(s[old(p)..]))
      ensures k.Some? ==> old(p) < p
    {
      var quote := Next();
      if quote != Some(QUOTE) { return None; }
      k := String();
      if k.None? { return; }
      var colon := Next();
      if colon != Some(COLON) { return None; }
    }

    method Members() returns (r: Option<Value>)
      requires Within()
      modifies this
      ensures Follows(r, ReadMembers(s[old(p)..], []))
      ensures r.Some? ==> old(p) <= p
      decreases |s| - p, 2
    {
      var m: seq<Entry> := [];
      while true
        invariant old(p) <= p <= |s| && ReadMembers(s[p..], m) == ReadMembers(s[old(p)..], [])
        decreases |s| - p
      {
        var k := Key();
        if k.None? { return None; }
        var v := Read();
        if v.None? { return None; }
        m := Put(m, k.value, v.value);
        var c := Next();
        if c == Some(CLOSE_BRACE) { return Some(Map(m)); }
        if c != Some(COMMA) { return None; }
      }
    }

    method Items() returns (r: Option<Value>)
      requires Within()
      modifies this
      ensures Follows(r, ReadItems(s[old(p)..], []))
      ensures r.Some? ==> old(p) <= p
      decreases |s| - p, 2
    {
      var l: seq<Value> := [];
      while true
        invariant old(p) <= p <= |s| && ReadItems(s[p..], l) == ReadItems(s[old(p)..], [])
        decreases |s| - p
      {
        var v := Read();
        if v.None? { return None; }
        l := l + [v.value];
        var c := Next();
        if c == Some(CLOSE_BRACKET) { return Some(List(l)); }
        if c != Some(COMMA) { return None; }
      }
    }

    method Read() returns (r: Option<Value>)
      requires Within()
      modifies this
      ensures Follows(r, ReadValue(s[old(p)..]))
      ensures r.Some? ==> old(p) <= p
      decreases |s| - p, 1
    {
      Ws();
      if p == |s| { return None; }
      var c := s[p];
      if c != QUOTE && c != OPEN_BRACE && c != OPEN_BRACKET {
        r := Scalar();
        return;
      }
      assert s[p..][1..] == s[p + 1..];
      p := p + 1;
      if c == QUOTE {
        var text := String();
        return if text.None? then None else Some(Str(text.value));
      }
      Ws();
      if p == |s| { return None; }
      assert s[p..][1..] == s[p + 1..];
      if c == OPEN_BRACE {
        if s[p] == CLOSE_BRACE { p := p + 1; return Some(Map([])); }
        r := Members();
      } else {
        if s[p] == CLOSE_BRACKET { p := p + 1; return Some(List([])); }
        r := Items();
      }
    }

    method Value() returns (r: Option<Value>)
      requires p == 0
      modifies this
      ensures r == ReadAll(s)
    {
      assert s[0..] == s;
      r := Read();
      if r.None? { return; }
      Ws();
      if p != |s| { return None; }
    }
  }

  lemma EscapedStep(s: Text, i: nat)
    requires i < |s|
    ensures Escaped(WorkerSide, s[i..]) == EscapedUnit(WorkerSide, s[i]) + Escaped(WorkerSide, s[i + 1..])
  {
    assert s[i..][1..] == s[i + 1..];
  }

  method EncodeString(s: Text) returns (b: Text)
    ensures b == WriteString(WorkerSide, s)
  {
    b := [QUOTE];
    for i := 0 to |s|
      invariant b + Escaped(WorkerSide, s[i..]) == [QUOTE] + Escaped(WorkerSide, s)
    {
      EscapedStep(s, i);
      b := b + EscapedUnit(WorkerSide, s[i]);
    }
    b := b + [QUOTE];
  }

  /** `String.join(",", parts)`. */
  function Joined(parts: seq<Text>): Text {
    if parts == [] then []
    else if |parts| == 1 then parts[0]
    else parts[0] + [COMMA] + Joined(parts[1..])
  }

  function ItemTexts(items: seq<Value>): seq<Text> {
    if items == [] then [] else [Write(WorkerSide, items[0])] + ItemTexts(items[1..])
  }

  function EntryTexts(entries: seq<Entry>): seq<Text> {
    if entries == [] then [] else [WriteEntry(WorkerSide, entries[0])] + EntryTexts(entries[1..])
  }

  lemma {:induction false} JoinedItems(items: seq<Value>)
    ensures Joined(ItemTexts(items)) == WriteItems(WorkerSide, items)
    ensures |ItemTexts(items)| == |items|
  {
    if items != [] {
      JoinedItems(items[1..]);
      assert ItemTexts(items)[1..] == ItemTexts(items[1..]);
    }
  }

  lemma {:induction false} JoinedEntries(entries: seq<Entry>)
    ensures Joined(EntryTexts(entries)) == WriteEntries(WorkerSide, entries)
    ensures |EntryTexts(entries)| == |entries|
  {
    if entries != [] {
      JoinedEntries(entries[1..]);
      assert EntryTexts(entries)[1..] == EntryTexts(entries[1..]);
    }
  }

  method Encode(v: Value) returns (t: Text)
    ensures t == Write(WorkerSide, v)
    decreases v, 1
  {
    match v
    case Null => t := NULL;
    case Bool(b) => t := if b then TRUE else FALSE;
    case Long(n) => t := if n < 0 then [MINUS] + Decimal(-n) else Decimal(n);
    case Double(text) => t := text;
    case Str(s) => t := EncodeString(s);
    case List(items) =>
      var a := EncodeItems(items);
      JoinedItems(items);
      t := [OPEN_BRACKET] + Joined(a) + [CLOSE_BRACKET];
    case Map(entries) =>
      var l := EncodeEntries(entries);
      JoinedEntries(entries);
      t := [OPEN_BRACE] + Joined(l) + [CLOSE_BRACE];
  }

  method EncodeItems(items: seq<Value>) returns (a: seq<Text>)
    ensures a == ItemTexts(items)
    decreases items, 0
  {
    a := [];
    for i := 0 to |items|
      invariant a + ItemTexts(items[i..]) == ItemTexts(items)
    {
      var part := Encode(items[i]);
      a := a + [part];
    }
  }

  method EncodeEntries(entries: seq<Entry>) returns (l: seq<Text>)
    ensures l == EntryTexts(entries)
    decreases entries, 0
  {
    l := [];
    for i := 0 to |entries|
      invariant l + EntryTexts(entries[i..]) == EntryTexts(entries)
    {
      var k := EncodeString(entries[i].key);
      var part := Encode(entries[i].value);
      l := l + [k + [COLON] + part];
    }
  }
}
