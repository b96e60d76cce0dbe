/**
 JSON values and their text, as `JSON.stringify` prints them (section 25.5.2 of ECMA-262): strings are
 sequences of UTF-16 code units, control characters and lone surrogates are escaped, and a number is
 represented by its own printed text.

 The main result is that the printed text reads back as the value, with a reader written after the grammar
 of RFC 8259; so no two values print the same text.
 */
module JsonText {
  type Unit = u: nat | u < 0x10000
  type Text = seq<Unit>

  datatype Json =
    | Null
    | Bool(value: bool)
    | Num(text: Text)
    | Str(chars: Text)
    | Arr(items: seq<Json>)
    | Obj(members: seq<Member>)

  datatype Member = Member(key: Text, value: Json)

  const QUOTE: Unit := 34
  const COMMA: Unit := 44
  const COLON: Unit := 58
  const OPEN_BRACKET: Unit := 91
  const BACKSLASH: Unit := 92
  const CLOSE_BRACKET: Unit := 93
  const OPEN_BRACE: Unit := 123
  const CLOSE_BRACE: Unit := 125

  // ----- well-formed values: numbers print as numbers, and an object has each key once

  predicate IsDigit(u: Unit) { 48 <= u <= 57 }

  /** Digits, `+`, `-`, `.` and `e`: all a printed number consists of. */
  predicate IsNumberUnit(u: Unit) { IsDigit(u) || u == 43 || u == 45 || u == 46 || u == 101 }

  predicate IsNumber(t: Text) {
    t != [] && (IsDigit(t[0]) || t[0] == 45) && forall i | 0 <= i < |t| :: IsNumberUnit(t[i])
  }

  predicate DistinctKeys(ms: seq<Member>) {
    forall i, j | 0 <= i < j < |ms| :: ms[i].key != ms[j].key
  }

  predicate WellFormed(v: Json) {
    match v
    case Null => true
    case Bool(_) => true
    case Num(t) => IsNumber(t)
    case Str(_) => true
    case Arr(items) => forall i | 0 <= i < |items| :: WellFormed(items[i])
    case Obj(ms) => DistinctKeys(ms) && forall i | 0 <= i < |ms| :: WellFormed(ms[i].value)
  }

  // ----- strings

  predicate IsHigh(u: Unit) { 0xD800 <= u <= 0xDBFF }
  predicate IsLow(u: Unit) { 0xDC00 <= u <= 0xDFFF }

  function HexDigit(n: nat): Unit
    requires n < 16
  {
    if n < 10 then 48 + n else 87 + n
  }

  function Hex4(u: Unit): Text {
    [HexDigit(u / 16 / 16 / 16), HexDigit(u / 16 / 16 % 16), HexDigit(u / 16 % 16), HexDigit(u % 16)]
  }

  /** Backspace, tab, newline, form feed, carriage return, quote and backslash have two-character escapes. */
  function ShortEscape(u: Unit): Unit {
    if u == 8 then 98
    else if u == 9 then 116
    else if u == 10 then 110
    else if u == 12 then 102
    else if u == 13 then 114
    else u
  }

  predicate HasShortEscape(u: Unit) {
    u == 8 || u == 9 || u == 10 || u == 12 || u == 13 || u == QUOTE || u == BACKSLASH
  }

  /** A unit on its own; a surrogate reaches this only when it is not part of a pair. */
  function EscapeUnit(u: Unit): Text {
    if HasShortEscape(u) then [BACKSLASH, ShortEscape(u)]
    else if u < 32 || IsHigh(u) || IsLow(u) then [BACKSLASH, 117] + Hex4(u)
    else [u]
  }

  predicate StartsWithPair(s: Text) {
    |s| >= 2 && IsHigh(s[0]) && IsLow(s[1])
  }

  function Escape(s: Text): Text {
    if s == [] then []
    else if StartsWithPair(s) then [s[0], s[1]] + Escape(s[2..])
    else EscapeUnit(s[0]) + Escape(s[1..])
  }

  function Quote(s: Text): Text {
    [QUOTE] + Escape(s) + [QUOTE]
  }

  // ----- values

  function Print(v: Json): Text
    decreases v, 0
  {
    match v
    case Null => [110, 117, 108, 108]
    case Bool(b) => if b then [116, 114, 117, 101] else [102, 97, 108, 115, 101]
    case Num(t) => t
    case Str(s) => Quote(s)
    case Arr(items) => [OPEN_BRACKET] + PrintItems(items) + [CLOSE_BRACKET]
    case Obj(ms) => [OPEN_BRACE] + PrintMembers(ms) + [CLOSE_BRACE]
  }

  function PrintItems(items: seq<Json>): Text
    decreases items, 1
  {
    if items == [] then [] else Print(items[0]) + PrintMoreItems(items[1..])
  }

  function PrintMoreItems(items: seq<Json>): Text
    decreases items, 1
  {
    if items == [] then [] else [COMMA] + Print(items[0]) + PrintMoreItems(items[1..])
  }

  function PrintMember(m: Member): Text
    decreases m, 0
  {
    Quote(m.key) + [COLON] + Print(m.value)
  }

  function PrintMembers(ms: seq<Member>): Text
    decreases ms, 1
  {
    if ms == [] then [] else PrintMember(ms[0]) + PrintMoreMembers(ms[1..])
  }

  function PrintMoreMembers(ms: seq<Member>): Text
    decreases ms, 1
  {
    if ms == [] then [] else [COMMA] + PrintMember(ms[0]) + PrintMoreMembers(ms[1..])
  }

  // ----- a reader: the text of RFC 8259, as `JSON.parse` reads it

  datatype Parsed<T> = Parsed(value: T, rest: Text) | Stuck

  function Codes(s: string): Text {
    seq(|s|, i requires 0 <= i < |s| => if s[i] as int < 0x10000 then s[i] as int else 0)
  }

  predicate StartsWith(t: Text, p: Text) {
    |p| <= |t| && t[..|p|] == p
  }

  function HexValue(u: Unit): Parsed<nat> {
    if '0' as int <= u <= '9' as int then Parsed(u - '0' as int, [])
    else if 'a' as int <= u <= 'f' as int then Parsed(u - 'a' as int + 10, [])
    else if 'A' as int <= u <= 'F' as int then Parsed(u - 'A' as int + 10, [])
    else Stuck
  }

  /** The unit that four hexadecimal digits name. */
  function ReadHex(t: Text): Parsed<Unit> {
    if |t| < 4 then Stuck
    else
      var a, b, c, d := HexValue(t[0]), HexValue(t[1]), HexValue(t[2]), HexValue(t[3]);
      if a.Stuck? || b.Stuck? || c.Stuck? || d.Stuck? then Stuck
      else
        var n := a.value * 0x1000 + b.value * 0x100 + c.value * 0x10 + d.value;
        if n < 0x10000 then Parsed(n, t[4..]) else Stuck
  }

  /** What stands after a backslash, other than `u`. */
  function Unescaped(u: Unit): Parsed<Unit> {
    if u == '"' as int then Parsed(34, [])
    else if u == '\\' as int then Parsed(92, [])
    else if u == '/' as int then Parsed(47, [])
    else if u == 'b' as int then Parsed(8, [])
    else if u == 'f' as int then Parsed(12, [])
    else if u == 'n' as int then Parsed(10, [])
    else if u == 'r' as int then Parsed(13, [])
    else if u == 't' as int then Parsed(9, [])
    else Stuck
  }

  function Before(u: Unit, r: Parsed<Text>): Parsed<Text> {
    if r.Stuck? then Stuck else Parsed([u] + r.value, r.rest)
  }

  /** The rest of a string, after its opening quote. */
  function ReadChars(t: Text): (r: Parsed<Text>)
    ensures r.Parsed? ==> |r.rest| < |t|
    decreases |t|
  {
    if t == [] || t[0] < 32 then Stuck
    else if t[0] == '"' as int then Parsed([], t[1..])
    else if t[0] != '\\' as int then Before(t[0], ReadChars(t[1..]))
    else if |t| < 2 then Stuck
    else if t[1] == 'u' as int then
      var hex := ReadHex(t[2..]);
      if hex.Stuck? then Stuck else Before(hex.value, ReadChars(t[6..]))
    else
      var short := Unescaped(t[1]);
      if short.Stuck? then Stuck else Before(short.value, ReadChars(t[2..]))
  }

  function ReadLiteral(t: Text, literal: string, v: Json): (r: Parsed<Json>)
    requires literal != ""
    ensures r.Parsed? ==> |r.rest| < |t|
  {
    if StartsWith(t, Codes(literal)) then Parsed(v, t[|literal|..]) else Stuck
  }

  function Read(t: Text): (r: Parsed<Json>)
    ensures r.Parsed? ==> |r.rest| < |t|
    decreases |t|, 0
  {
    if t == [] then Stuck
    else if t[0] == 'n' as int then ReadLiteral(t, "null", Null)
    else if t[0] == 't' as int then ReadLiteral(t, "true", Bool(true))
    else if t[0] == 'f' as int then ReadLiteral(t, "false", Bool(false))
    else if t[0] == '"' as int then
      var r := ReadChars(t[1..]);
      if r.Stuck? then Stuck else Parsed(Str(r.value), r.rest)
    else if t[0] == '[' as int then
      if |t| > 1 && t[1] == ']' as int then Parsed(Arr([]), t[2..])
      else
        var r := ReadItems(t[1..]);
        if r.Stuck? then Stuck else Parsed(Arr(r.value), r.rest)
    else if t[0] == '{' as int then
      if |t| > 1 && t[1] == '}' as int then Parsed(Obj([]), t[2..])
      else
        var r := ReadMembers(t[1..]);
        if r.Stuck? then Stuck else Parsed(Obj(r.value), r.rest)
    else
      var n := NumberLength(t);
      if n == 0 then Stuck else Parsed(Num(t[..n]), t[n..])
  }

  /** One or more items, and the bracket that closes them. */
  function ReadItems(t: Text): (r: Parsed<seq<Json>>)
    ensures r.Parsed? ==> |r.rest| < |t|
    decreases |t|, 1
  {
    var item := Read(t);
    if item.Stuck? || item.rest == [] then Stuck
    else if item.rest[0] == ']' as int then Parsed([item.value], item.rest[1..])
    else if item.rest[0] != ',' as int then Stuck
    else
      var more := ReadItems(item.rest[1..]);
      if more.Stuck? then Stuck else Parsed([item.value] + more.value, more.rest)
  }

  function ReadMember(t: Text): (r: Parsed<Member>)
    ensures r.Parsed? ==> |r.rest| < |t|
    decreases |t|, 1
  {
    if t == [] || t[0] != '"' as int then Stuck
    else
      var key := ReadChars(t[1..]);
      if key.Stuck? || key.rest == [] || key.rest[0] != ':' as int then Stuck
      else
        var value := Read(key.rest[1..]);
        if value.Stuck? then Stuck else Parsed(Member(key.value, value.value), value.rest)
  }

  function ReadMembers(t: Text): (r: Parsed<seq<Member>>)
    ensures r.Parsed? ==> |r.rest| < |t|
    decreases |t|, 2
  {
    var member := ReadMember(t);
    if member.Stuck? || member.rest == [] then Stuck
    else if member.rest[0] == '}' as int then Parsed([member.value], member.rest[1..])
    else if member.rest[0] != ',' as int then Stuck
    else
      var more := ReadMembers(member.rest[1..]);
      if more.Stuck? then Stuck else Parsed([member.value] + more.value, more.rest)
  }

  // ----- strings are read back

  lemma HexIsRead(n: nat)
    requires n < 16
    ensures HexValue(HexDigit(n)) == Parsed(n, [])
  {
  }

  lemma Hex4IsRead(u: Unit, x: Text)
    ensures ReadHex(Hex4(u) + x) == Parsed(u, x)
  {
    HexIsRead(u / 16 / 16 / 16);
    HexIsRead(u / 16 / 16 % 16);
    HexIsRead(u / 16 % 16);
    HexIsRead(u % 16);
    assert (Hex4(u) + x)[4..] == x;
  }

  lemma UnitIsRead(u: Unit, x: Text)
    ensures ReadChars(EscapeUnit(u) + x) == Before(u, ReadChars(x))
  {
    var t := EscapeUnit(u) + x;
    if HasShortEscape(u) {
      assert t[0] == BACKSLASH && t[1] == ShortEscape(u) && t[2..] == x;
    } else if u < 32 || IsHigh(u) || IsLow(u) {
      assert t[0] == BACKSLASH && t[1] == 117 && t[2..] == Hex4(u) + x && t[6..] == x;
      Hex4IsRead(u, x);
    } else {
      assert t[0] == u && t[1..] == x;
    }
  }

  function Tail(s: Text, x: Text): Text {
    Escape(s) + [QUOTE] + x
  }

  lemma Regroup(p: Text, q: Text, x: Text)
    ensures (p + q) + [QUOTE] + x == p + (q + [QUOTE] + x)
  {
  }

  lemma TailSteps(s: Text, x: Text)
    requires s != []
    ensures StartsWithPair(s) ==> Tail(s, x) == [s[0], s[1]] + Tail(s[2..], x)
    ensures !StartsWithPair(s) ==> Tail(s, x) == EscapeUnit(s[0]) + Tail(s[1..], x)
  {
    if StartsWithPair(s) {
      Regroup([s[0], s[1]], Escape(s[2..]), x);
    } else {
      Regroup(EscapeUnit(s[0]), Escape(s[1..]), x);
    }
  }

  lemma {:induction false} CharsAreRead(s: Text, x: Text)
    ensures ReadChars(Tail(s, x)) == Parsed(s, x)
    decreases |s|
  {
    if s == [] {
      assert Tail(s, x)[1..] == x;
    } else {
      TailSteps(s, x);
      if StartsWithPair(s) {
        CharsAreRead(s[2..], x);
        var t := Tail(s, x);
        assert t[0] == s[0] && t[1..][0] == s[1] && t[1..][1..] == Tail(s[2..], x);
        assert s == [s[0]] + ([s[1]] + s[2..]);
      } else {
        CharsAreRead(s[1..], x);
        UnitIsRead(s[0], Tail(s[1..], x));
        assert s == [s[0]] + s[1..];
      }
    }
  }

  lemma QuoteIsRead(s: Text, x: Text)
    ensures (Quote(s) + x)[0] == QUOTE && ReadChars((Quote(s) + x)[1..]) == Parsed(s, x)
  {
    assert (Quote(s) + x)[1..] == Tail(s, x);
    CharsAreRead(s, x);
  }

  // ----- strings, written out

  /** The escapes with a letter of their own; a quote and a backslash are escaped by themselves. */
  lemma ShortEscapes()
    ensures EscapeUnit(8) == Codes("\\b") && EscapeUnit(9) == Codes("\\t") && EscapeUnit(10) == Codes("\\n")
    ensures EscapeUnit(12) == Codes("\\f") && EscapeUnit(13) == Codes("\\r")
    ensures EscapeUnit(34) == Codes("\\\"") && EscapeUnit(92) == Codes("\\\\")
  {
  }

  /** Other escapes have lower-case hexadecimal digits. */
  lemma HexIsLowerCase(n: nat)
    requires n < 16
    ensures HexDigit(n) == "0123456789abcdef"[n] as int
  {
  }

  lemma NumberUnitsAre(u: Unit)
    ensures IsNumberUnit(u) <==> u in Codes("0123456789+-.e")
  {
    var t := Codes("0123456789+-.e");
    assert IsDigit(u) ==> t[u - 48] == u;
    assert t[10] == 43 && t[11] == 45 && t[12] == 46 && t[13] == 101;
  }

  /** Every surrogate is part of a pair: the text is well-formed UTF-16. */
  predicate IsPaired(t: Text) {
    t == []
    || ((t[0] < 0xD800 || t[0] > 0xDFFF) && IsPaired(t[1..]))
    || (|t| >= 2 && 0xD800 <= t[0] < 0xDC00 && 0xDC00 <= t[1] < 0xE000 && IsPaired(t[2..]))
  }

  lemma {:induction false} PairedAppends(a: Text, b: Text)
    requires IsPaired(a) && IsPaired(b)
    ensures IsPaired(a + b)
    decreases |a|
  {
    if a == [] {
      assert a + b == b;
    } else if a[0] < 0xD800 || a[0] > 0xDFFF {
      PairedAppends(a[1..], b);
      assert (a + b)[1..] == a[1..] + b;
    } else {
      PairedAppends(a[2..], b);
      assert (a + b)[2..] == a[2..] + b;
    }
  }

  lemma {:induction false} AsciiIsPaired(t: Text)
    requires forall i | 0 <= i < |t| :: t[i] < 0xD800 || t[i] > 0xDFFF
    ensures IsPaired(t)
  {
    if t != [] { AsciiIsPaired(t[1..]); }
  }

  /** Whatever the string is, what is printed of it is well-formed: a lone surrogate is escaped. */
  lemma {:induction false} EscapeIsPaired(s: Text)
    ensures IsPaired(Escape(s))
    decreases |s|
  {
    if s != [] {
      if StartsWithPair(s) {
        EscapeIsPaired(s[2..]);
        assert ([s[0], s[1]] + Escape(s[2..]))[2..] == Escape(s[2..]);
      } else {
        EscapeIsPaired(s[1..]);
        AsciiIsPaired(EscapeUnit(s[0]));
        PairedAppends(EscapeUnit(s[0]), Escape(s[1..]));
      }
    }
  }

  predicate IsPlain(u: Unit) {
    u >= 32 && u != 34 && u != 92
  }

  /** And a well-formed string is printed as it is, but for control characters, quotes and backslashes. */
  lemma {:induction false} PlainIsQuoted(s: Text)
    requires IsPaired(s) && forall i | 0 <= i < |s| :: IsPlain(s[i])
    ensures Escape(s) == s
    decreases |s|
  {
    if s != [] {
      if s[0] < 0xD800 || s[0] > 0xDFFF {
        PlainIsQuoted(s[1..]);
        assert s == [s[0]] + s[1..];
      } else {
        PlainIsQuoted(s[2..]);
        assert s == [s[0], s[1]] + s[2..];
      }
    }
  }

  // ----- values are read back

  /** What may follow a value: nothing, a comma or a closing bracket or brace. */
  predicate Stops(x: Text) {
    x == [] || x[0] == COMMA || x[0] == CLOSE_BRACKET || x[0] == CLOSE_BRACE
  }

  /** How many number units a text begins with. */
  function NumberLength(p: Text): (n: nat)
    ensures n <= |p|
  {
    if p == [] || !IsNumberUnit(p[0]) then 0 else 1 + NumberLength(p[1..])
  }

  lemma {:induction false} NumberEndsAtStop(t: Text, x: Text)
    requires (forall i | 0 <= i < |t| :: IsNumberUnit(t[i])) && Stops(x)
    ensures NumberLength(t + x) == |t|
  {
    if t != [] {
      NumberEndsAtStop(t[1..], x);
      assert (t + x)[1..] == t[1..] + x;
    } else {
      assert t + x == x;
    }
  }

  /** The first unit of a value tells its kind. */
  function StartOf(v: Json): Unit {
    match v
    case Null => 110
    case Bool(b) => if b then 116 else 102
    case Num(t) => if t == [] then 0 else t[0]
    case Str(_) => QUOTE
    case Arr(_) => OPEN_BRACKET
    case Obj(_) => OPEN_BRACE
  }

  lemma PrintStart(v: Json)
    requires WellFormed(v)
    ensures Print(v) != [] && Print(v)[0] == StartOf(v)
  {
  }

  function ItemsTail(items: seq<Json>, x: Text): Text {
    PrintMoreItems(items) + [CLOSE_BRACKET] + x
  }

  lemma ItemsTailSteps(items: seq<Json>, x: Text)
    ensures Stops(ItemsTail(items, x))
    ensures items == [] <==> ItemsTail(items, x)[0] == CLOSE_BRACKET
    ensures items == [] ==> ItemsTail(items, x)[1..] == x
    ensures items != [] ==> ItemsTail(items, x)[1..] == Print(items[0]) + ItemsTail(items[1..], x)
  {
  }

  function ItemsHead(items: seq<Json>, x: Text): Text {
    PrintItems(items) + [CLOSE_BRACKET] + x
  }

  lemma ItemsHeadSteps(items: seq<Json>, x: Text)
    requires AllWellFormed(items)
    ensures items == [] <==> ItemsHead(items, x)[0] == CLOSE_BRACKET
    ensures items == [] ==> ItemsHead(items, x)[1..] == x
    ensures items != [] ==> ItemsHead(items, x) == Print(items[0]) + ItemsTail(items[1..], x)
  {
    if items != [] {
      PrintStart(items[0]);
      assert ItemsHead(items, x) == Print(items[0]) + ItemsTail(items[1..], x);
    }
  }

  function MembersHead(ms: seq<Member>, x: Text): Text {
    PrintMembers(ms) + [CLOSE_BRACE] + x
  }

  lemma MembersHeadSteps(ms: seq<Member>, x: Text)
    ensures ms == [] <==> MembersHead(ms, x)[0] == CLOSE_BRACE
    ensures ms == [] ==> MembersHead(ms, x)[1..] == x
    ensures ms != [] ==> MembersHead(ms, x) == PrintMember(ms[0]) + MembersTail(ms[1..], x)
  {
    if ms != [] {
      assert PrintMember(ms[0])[0] == QUOTE;
      assert MembersHead(ms, x) == PrintMember(ms[0]) + MembersTail(ms[1..], x);
    }
  }

  function MembersTail(ms: seq<Member>, x: Text): Text {
    PrintMoreMembers(ms) + [CLOSE_BRACE] + x
  }

  lemma MembersTailSteps(ms: seq<Member>, x: Text)
    ensures Stops(MembersTail(ms, x))
    ensures ms == [] <==> MembersTail(ms, x)[0] == CLOSE_BRACE
    ensures ms == [] ==> MembersTail(ms, x)[1..] == x
    ensures ms != [] ==> MembersTail(ms, x)[1..] == PrintMember(ms[0]) + MembersTail(ms[1..], x)
  {
  }

  predicate AllWellFormed(items: seq<Json>) {
    forall i | 0 <= i < |items| :: WellFormed(items[i])
  }

  predicate AllMembersWellFormed(ms: seq<Member>) {
    forall i | 0 <= i < |ms| :: WellFormed(ms[i].value)
  }

  lemma AfterBracket(items: seq<Json>, x: Text)
    ensures (Print(Arr(items)) + x)[1..] == ItemsHead(items, x)
  {
  }

  lemma AfterBrace(ms: seq<Member>, x: Text)
    ensures (Print(Obj(ms)) + x)[1..] == MembersHead(ms, x)
  {
  }

  lemma MemberSteps(m: Member, x: Text)
    ensures PrintMember(m) + x == Quote(m.key) + ([COLON] + (Print(m.value) + x))
  {
  }

  lemma ColonSteps(x: Text)
    ensures ([COLON] + x)[1..] == x
  {
  }

  lemma LiteralIsRead(literal: string, v: Json, p: Text, x: Text)
    requires literal != "" && p == Codes(literal)
    ensures ReadLiteral(p + x, literal, v) == Parsed(v, x)
  {
    assert (p + x)[..|p|] == p && (p + x)[|p|..] == x;
  }

  lemma NumberIsRead(t: Text, x: Text)
    requires IsNumber(t) && Stops(x)
    ensures Read(t + x) == Parsed(Num(t), x)
  {
    NumberEndsAtStop(t, x);
    assert (t + x)[..|t|] == t && (t + x)[|t|..] == x && (t + x)[0] == t[0];
  }

  predicate IsScalar(v: Json) {
    !v.Arr? && !v.Obj?
  }

  lemma ScalarIsRead(v: Json, x: Text)
    requires WellFormed(v) && Stops(x) && IsScalar(v)
    ensures Read(Print(v) + x) == Parsed(v, x)
  {
    assert (Print(v) + x)[0] == Print(v)[0];
    match v
    case Null => LiteralIsRead("null", v, Print(v), x);
    case Bool(b) => if b { LiteralIsRead("true", v, Print(v), x); } else { LiteralIsRead("false", v, Print(v), x); }
    case Num(t) => NumberIsRead(t, x);
    case Str(s) => QuoteIsRead(s, x);
  }

  /** Reading what was printed gives the value back, and the text that follows it. */
  lemma {:induction false} PrintedIsRead(v: Json, x: Text)
    requires WellFormed(v) && Stops(x)
    ensures Read(Print(v) + x) == Parsed(v, x)
    decreases v, 1
  {
    match v
    case Arr(items) =>
      AfterBracket(items, x);
      ItemsHeadSteps(items, x);
      if items != [] { ItemsAreRead(items, x); }
      ArrayIsRead(items, x);
    case Obj(ms) =>
      AfterBrace(ms, x);
      MembersHeadSteps(ms, x);
      if ms != [] { MembersAreRead(ms, x); }
      ObjectIsRead(ms, x);
    case _ => ScalarIsRead(v, x);
  }

  lemma ArrayIsRead(items: seq<Json>, x: Text)
    requires AllWellFormed(items)
    requires items != [] ==> ReadItems(ItemsHead(items, x)) == Parsed(items, x)
    ensures Read(Print(Arr(items)) + x) == Parsed(Arr(items), x)
  {
    var t := Print(Arr(items)) + x;
    AfterBracket(items, x);
    ItemsHeadSteps(items, x);
    assert t[0] == OPEN_BRACKET && t[1..] == ItemsHead(items, x) && t[1] == ItemsHead(items, x)[0];
    if items == [] { assert t[2..] == t[1..][1..] == x; }
  }

  lemma ObjectIsRead(ms: seq<Member>, x: Text)
    requires ms != [] ==> ReadMembers(MembersHead(ms, x)) == Parsed(ms, x)
    ensures Read(Print(Obj(ms)) + x) == Parsed(Obj(ms), x)
  {
    var t := Print(Obj(ms)) + x;
    AfterBrace(ms, x);
    MembersHeadSteps(ms, x);
    assert t[0] == OPEN_BRACE && t[1..] == MembersHead(ms, x) && t[1] == MembersHead(ms, x)[0];
    if ms == [] { assert t[2..] == t[1..][1..] == x; }
  }

  lemma {:induction false} ItemsAreRead(items: seq<Json>, x: Text)
    requires AllWellFormed(items) && items != []
    ensures ReadItems(ItemsHead(items, x)) == Parsed(items, x)
    decreases items, 0
  {
    ItemsHeadSteps(items, x);
    ItemsTailSteps(items[1..], x);
    PrintedIsRead(items[0], ItemsTail(items[1..], x));
    if items[1..] == [] {
      assert items == [items[0]];
    } else {
      ItemsAreRead(items[1..], x);
      ItemsHeadSteps(items[1..], x);
      assert items == [items[0]] + items[1..];
    }
  }

  lemma {:induction false} MemberIsRead(m: Member, x: Text)
    requires WellFormed(m.value) && Stops(x)
    ensures ReadMember(PrintMember(m) + x) == Parsed(m, x)
    decreases m, 1
  {
    MemberSteps(m, x);
    QuoteIsRead(m.key, [COLON] + (Print(m.value) + x));
    ColonSteps(Print(m.value) + x);
    PrintedIsRead(m.value, x);
  }

  lemma {:induction false} MembersAreRead(ms: seq<Member>, x: Text)
    requires AllMembersWellFormed(ms) && ms != []
    ensures ReadMembers(MembersHead(ms, x)) == Parsed(ms, x)
    decreases ms, 0
  {
    MembersHeadSteps(ms, x);
    MembersTailSteps(ms[1..], x);
    MemberIsRead(ms[0], MembersTail(ms[1..], x));
    if ms[1..] == [] {
      assert ms == [ms[0]];
    } else {
      MembersAreRead(ms[1..], x);
      MembersHeadSteps(ms[1..], x);
      assert ms == [ms[0]] + ms[1..];
    }
  }

  /** Printing loses nothing: the text reads back as the value. */
  lemma ReadPrints(v: Json)
    requires WellFormed(v)
    ensures Read(Print(v)) == Parsed(v, [])
  {
    assert Print(v) + [] == Print(v);
    PrintedIsRead(v, []);
  }

  /** So printing is unambiguous. */
  lemma PrintInjective(a: Json, b: Json)
    requires WellFormed(a) && WellFormed(b)
    ensures Print(a) == Print(b) <==> a == b
  {
    ReadPrints(a);
    ReadPrints(b);
  }
}
