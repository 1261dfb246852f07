/** JSON values, the compact printer and the parser of the source's language, and the round
    trip between them (RFC 8259; section 7 for strings). */
module Json {
  import opened Wrappers
  import opened Utf8

  /** A value as the source's language holds it. `Opaque` is everything a canonical encoding
      refuses whatever it is: a float, bytes, an object, a mapping with a key that is not text. */
  datatype Value =
    | Null
    | Bool(b: bool)
    | Int(n: int)
    | Str(t: Text)
    | List(items: seq<Value>)
    | Tuple(elements: seq<Value>)
    | Dict(members: seq<Member>)
    | Opaque

  /** One entry of a dictionary, in insertion order. */
  datatype Member = Member(key: Text, value: Value)

  predicate DistinctKeys(ms: seq<Member>) {
    forall i, j | 0 <= i < j < |ms| :: ms[i].key != ms[j].key
  }

  /** What the parser can produce: no tuples, nothing opaque, no key twice. */
  predicate Plain(v: Value) {
    match v
    case Null => true
    case Bool(_) => true
    case Int(_) => true
    case Str(_) => true
    case List(items) => forall i | 0 <= i < |items| :: Plain(items[i])
    case Tuple(_) => false
    case Dict(ms) => DistinctKeys(ms) && forall i | 0 <= i < |ms| :: Plain(ms[i].value)
    case Opaque => false
  }

  const QUOTE: Code := 0x22
  const COMMA: Code := 0x2C
  const MINUS: Code := 0x2D
  const DOT: Code := 0x2E
  const ZERO: Code := 0x30
  const COLON: Code := 0x3A
  const LBRACKET: Code := 0x5B
  const BACKSLASH: Code := 0x5C
  const RBRACKET: Code := 0x5D
  const SMALL_U: Code := 0x75
  const LBRACE: Code := 0x7B
  const RBRACE: Code := 0x7D

  // ---------------------------------------------------------------- printing

  function HexDigit(n: int): Code
    requires 0 <= n < 16
  {
    if n < 10 then 0x30 + n else 0x57 + n
  }

  /** One character inside a string: the two-character escapes, \u00xx for other controls. */
  function EscapeCode(c: Code): (t: Text)
    ensures |t| >= 1
  {
    if c == QUOTE then [BACKSLASH, QUOTE]
    else if c == BACKSLASH then [BACKSLASH, BACKSLASH]
    else if c == 0x0A then [BACKSLASH, 0x6E]
    else if c == 0x0D then [BACKSLASH, 0x72]
    else if c == 0x09 then [BACKSLASH, 0x74]
    else if c == 0x0C then [BACKSLASH, 0x66]
    else if c == 0x08 then [BACKSLASH, 0x62]
    else if c < 0x20 then [BACKSLASH, SMALL_U, ZERO, ZERO, HexDigit(c / 16), HexDigit(c % 16)]
    else [c]
  }

  function Escape(t: Text): Text {
    if t == [] then [] else EscapeCode(t[0]) + Escape(t[1..])
  }

  function Quoted(t: Text): Text {
    [QUOTE] + Escape(t) + [QUOTE]
  }

  function Digits(n: nat): (t: Text)
    ensures |t| >= 1
  {
    if n < 10 then [ZERO + n] else Digits(n / 10) + [ZERO + n % 10]
  }

  function Decimal(n: int): Text {
    if n < 0 then [MINUS] + Digits(-n) else Digits(n)
  }

  function Print(v: Value): Text
    requires Plain(v)
    decreases v
  {
    match v
    case Null => Literal("null")
    case Bool(b) => if b then Literal("true") else Literal("false")
    case Int(n) => Decimal(n)
    case Str(t) => Quoted(t)
    case List(items) => [LBRACKET] + PrintItems(items) + [RBRACKET]
    case Dict(ms) => [LBRACE] + PrintMembers(ms) + [RBRACE]
  }

  function PrintItems(items: seq<Value>): Text
    requires forall i | 0 <= i < |items| :: Plain(items[i])
    decreases items
  {
    if items == [] then []
    else if |items| == 1 then Print(items[0])
    else Print(items[0]) + [COMMA] + PrintItems(items[1..])
  }

  function PrintMember(m: Member): Text
    requires Plain(m.value)
    decreases m
  {
    Quoted(m.key) + [COLON] + Print(m.value)
  }

  function PrintMembers(ms: seq<Member>): Text
    requires forall i | 0 <= i < |ms| :: Plain(ms[i].value)
    decreases ms
  {
    if ms == [] then []
    else if |ms| == 1 then PrintMember(ms[0])
    else PrintMember(ms[0]) + [COMMA] + PrintMembers(ms[1..])
  }

  // ---------------------------------------------------------------- parsing

  datatype Parsed<+T> = Parsed(value: T, rest: Text) | Failed

  predicate White(c: Code) {
    c == 0x20 || c == 0x09 || c == 0x0A || c == 0x0D
  }

  function SkipWhite(s: Text): (r: Text)
    ensures |r| <= |s|
  {
    if s != [] && White(s[0]) then SkipWhite(s[1..]) else s
  }

  predicate StartsWith(s: Text, c: Code) {
    s != [] && s[0] == c
  }

  predicate HasPrefix(s: Text, p: Text) {
    |p| <= |s| && s[..|p|] == p
  }

  predicate Digit(c: Code) {
    0x30 <= c <= 0x39
  }

  function DigitCount(s: Text): (k: nat)
    ensures k <= |s| && forall i | 0 <= i < k :: Digit(s[i])
  {
    if s != [] && Digit(s[0]) then 1 + DigitCount(s[1..]) else 0
  }

  function ValueOf(digits: Text): nat
    requires forall i | 0 <= i < |digits| :: Digit(digits[i])
  {
    if digits == [] then 0
    else
      var last := digits[|digits| - 1];
      assert Digit(last);
      ValueOf(digits[..|digits| - 1]) * 10 + (last as int - 0x30)
  }

  predicate Fraction(s: Text) {
    |s| >= 2 && s[0] == DOT && Digit(s[1])
  }

  predicate Exponent(s: Text) {
    && |s| >= 2 && (s[0] == 0x65 || s[0] == 0x45)
    && (Digit(s[1]) || (|s| >= 3 && (s[1] == MINUS || s[1] == 0x2B) && Digit(s[2])))
  }

  /** An integer; a fraction or an exponent goes to a hook that refuses it. */
  function ParseNumber(s: Text): (r: Parsed<Value>)
    ensures r.Parsed? ==> |r.rest| < |s|
  {
    var body := if StartsWith(s, MINUS) then s[1..] else s;
    if body == [] || !Digit(body[0]) then Failed
    else
      var k := if body[0] == ZERO then 1 else DigitCount(body);
      var n: int := ValueOf(body[..k]);
      if Fraction(body[k..]) || Exponent(body[k..]) then Failed
      else Parsed(Int(if StartsWith(s, MINUS) then -n else n), body[k..])
  }

  function HexValue(c: Code): Option<int> {
    if Digit(c) then Some(c - 0x30)
    else if 0x61 <= c <= 0x66 then Some(c - 0x57)
    else if 0x41 <= c <= 0x46 then Some(c - 0x37)
    else None
  }

  /** Four hexadecimal digits. */
  function Hex4(s: Text): (r: Option<Code>)
    ensures r.Some? ==> |s| >= 4 && r.value <= 0xFFFF
  {
    if |s| < 4 || HexValue(s[0]).None? || HexValue(s[1]).None? || HexValue(s[2]).None? || HexValue(s[3]).None? then None
    else
      var n := HexValue(s[0]).value * 0x1000 + HexValue(s[1]).value * 0x100 + HexValue(s[2]).value * 0x10 + HexValue(s[3]).value;
      if 0 <= n <= 0xFFFF then Some(n) else None
  }

  /** One character of a string, after the opening quote: itself, an escape, or two \u escapes
      that form a surrogate pair. A raw control character is an error. */
  function ParseCode(s: Text): (r: Parsed<Code>)
    requires s != []
    ensures r.Parsed? ==> |r.rest| < |s|
  {
    if s[0] < 0x20 then Failed
    else if s[0] != BACKSLASH then Parsed(s[0], s[1..])
    else if |s| < 2 then Failed
    else if s[1] == QUOTE || s[1] == BACKSLASH || s[1] == 0x2F then Parsed(s[1], s[2..])
    else if s[1] == 0x62 then Parsed(0x08, s[2..])
    else if s[1] == 0x66 then Parsed(0x0C, s[2..])
    else if s[1] == 0x6E then Parsed(0x0A, s[2..])
    else if s[1] == 0x72 then Parsed(0x0D, s[2..])
    else if s[1] == 0x74 then Parsed(0x09, s[2..])
    else if s[1] != SMALL_U then Failed
    else
      match Hex4(s[2..])
      case None => Failed
      case Some(high) =>
        if 0xD800 <= high <= 0xDBFF && |s| >= 8 && s[6] == BACKSLASH && s[7] == SMALL_U then
          match Hex4(s[8..])
          case None => Failed
          case Some(low) =>
            if 0xDC00 <= low <= 0xDFFF
            then Parsed(0x10000 + (high - 0xD800) * 0x400 + (low - 0xDC00), s[12..])
            else Parsed(high, s[6..])
        else Parsed(high, s[6..])
  }

  function ParseString(s: Text): (r: Parsed<Text>)
    ensures r.Parsed? ==> |r.rest| < |s|
    decreases |s|
  {
    if s == [] then Failed
    else if s[0] == QUOTE then Parsed([], s[1..])
    else
      match ParseCode(s)
      case Failed => Failed
      case Parsed(c, rest) =>
        match ParseString(rest)
        case Failed => Failed
        case Parsed(t, rest') => Parsed([c] + t, rest')
  }

  function ParseValue(s: Text): (r: Parsed<Value>)
    ensures r.Parsed? ==> |r.rest| < |s|
    decreases |s|, 0
  {
    if s == [] then Failed
    else if s[0] == QUOTE then
      match ParseString(s[1..])
      case Failed => Failed
      case Parsed(t, rest) => Parsed(Str(t), rest)
    else if s[0] == LBRACKET then
      var inner := SkipWhite(s[1..]);
      if StartsWith(inner, RBRACKET) then Parsed(List([]), inner[1..])
      else
        match ParseElements(inner)
        case Failed => Failed
        case Parsed(items, rest) => Parsed(List(items), rest)
    else if s[0] == LBRACE then
      var inner := SkipWhite(s[1..]);
      if StartsWith(inner, RBRACE) then Parsed(Dict([]), inner[1..])
      else
        match ParseMembers(inner)
        case Failed => Failed
        case Parsed(ms, rest) => if DistinctKeys(ms) then Parsed(Dict(ms), rest) else Failed
    else if HasPrefix(s, Literal("null")) then Parsed(Null, s[4..])
    else if HasPrefix(s, Literal("true")) then Parsed(Bool(true), s[4..])
    else if HasPrefix(s, Literal("false")) then Parsed(Bool(false), s[5..])
    else ParseNumber(s)
  }

  /** The elements of an array and its closing bracket. */
  function ParseElements(s: Text): (r: Parsed<seq<Value>>)
    ensures r.Parsed? ==> |r.rest| < |s|
    decreases |s|, 1
  {
    match ParseValue(s)
    case Failed => Failed
    case Parsed(v, rest) =>
      var next := SkipWhite(rest);
      if StartsWith(next, RBRACKET) then Parsed([v], next[1..])
      else if !StartsWith(next, COMMA) then Failed
      else
        match ParseElements(SkipWhite(next[1..]))
        case Failed => Failed
        case Parsed(items, rest') => Parsed([v] + items, rest')
  }

  /** One key, its colon and its value. */
  function ParseMember(s: Text): (r: Parsed<Member>)
    ensures r.Parsed? ==> |r.rest| < |s|
    decreases |s|, 1
  {
    if !StartsWith(s, QUOTE) then Failed
    else
      match ParseString(s[1..])
      case Failed => Failed
      case Parsed(key, rest) =>
        var colon := SkipWhite(rest);
        if !StartsWith(colon, COLON) then Failed
        else
          match ParseValue(SkipWhite(colon[1..]))
          case Failed => Failed
          case Parsed(v, rest') => Parsed(Member(key, v), rest')
  }

  /** The members of an object and its closing brace. */
  function ParseMembers(s: Text): (r: Parsed<seq<Member>>)
    ensures r.Parsed? ==> |r.rest| < |s|
    decreases |s|, 2
  {
    match ParseMember(s)
    case Failed => Failed
    case Parsed(m, rest) =>
      var next := SkipWhite(rest);
      if StartsWith(next, RBRACE) then Parsed([m], next[1..])
      else if !StartsWith(next, COMMA) then Failed
      else
        match ParseMembers(SkipWhite(next[1..]))
        case Failed => Failed
        case Parsed(ms, rest') => Parsed([m] + ms, rest')
  }

  /** The whole text is one value, white space around it; a byte order mark is refused. */
  function Loads(s: Text): Option<Value> {
    if StartsWith(s, 0xFEFF) then None
    else
      match ParseValue(SkipWhite(s))
      case Failed => None
      case Parsed(v, rest) => if SkipWhite(rest) == [] then Some(v) else None
  }

  /** The hook every object goes through: a key that comes twice is refused. */
  method UniquePairs(pairs: seq<Member>) returns (r: Option<seq<Member>>)
    ensures r == if DistinctKeys(pairs) then Some(pairs) else None
  {
    var result: seq<Member> := [];
    var i := 0;
    while i < |pairs|
      invariant i <= |pairs| && result == pairs[..i] && DistinctKeys(result)
    {
      if exists k | 0 <= k < |result| :: result[k].key == pairs[i].key {
        return None;
      }
      result := result + [pairs[i]];
      i := i + 1;
    }
    assert pairs[..i] == pairs;
    return Some(result);
  }

  // ---------------------------------------------------------------- parsing undoes printing

  lemma EscapeParses(c: Code, rest: Text)
    ensures EscapeCode(c)[0] != QUOTE
    ensures ParseCode(EscapeCode(c) + rest) == Parsed(c, rest)
  {
    var s := EscapeCode(c) + rest;
    if c < 0x20 && |EscapeCode(c)| == 6 {
      assert s[2..][0] == ZERO && s[2..][1] == ZERO;
      assert s[2..][2] == HexDigit(c / 16) && s[2..][3] == HexDigit(c % 16);
      assert Hex4(s[2..]) == Some(c);
      assert s[6..] == rest;
    }
  }

  lemma {:induction false} StringParses(t: Text, rest: Text)
    ensures ParseString(Escape(t) + [QUOTE] + rest) == Parsed(t, rest)
  {
    hide EscapeCode, ParseCode;
    var s := Escape(t) + [QUOTE] + rest;
    if t == [] {
      assert s == [QUOTE] + rest;
    } else {
      var tail := Escape(t[1..]) + [QUOTE] + rest;
      assert s == EscapeCode(t[0]) + tail;
      EscapeParses(t[0], tail);
      StringParses(t[1..], rest);
      assert [t[0]] + t[1..] == t;
    }
  }

  lemma {:induction false} DigitsAreDigits(n: nat)
    ensures forall i | 0 <= i < |Digits(n)| :: Digit(Digits(n)[i])
    ensures Digits(n)[0] == ZERO <==> n == 0
    ensures n == 0 ==> |Digits(n)| == 1
  {
    if n >= 10 {
      DigitsAreDigits(n / 10);
    }
  }

  lemma {:induction false} DigitsHaveValue(n: nat)
    requires forall i | 0 <= i < |Digits(n)| :: Digit(Digits(n)[i])
    ensures ValueOf(Digits(n)) == n
  {
    if n < 10 {
      assert Digits(n)[..0] == [];
    } else {
      DigitsAreDigits(n / 10);
      DigitsHaveValue(n / 10);
      assert Digits(n)[..|Digits(n)| - 1] == Digits(n / 10);
    }
  }

  lemma {:induction false} CountStops(digits: Text, rest: Text)
    requires forall i | 0 <= i < |digits| :: Digit(digits[i])
    requires rest == [] || !Digit(rest[0])
    ensures DigitCount(digits + rest) == |digits|
  {
    if digits == [] {
      assert digits + rest == rest;
    } else {
      assert (digits + rest)[1..] == digits[1..] + rest;
      CountStops(digits[1..], rest);
    }
  }

  /** What may follow a value: nothing, or a separator that no number continues with. */
  predicate Stops(rest: Text) {
    rest == [] || rest[0] == COMMA || rest[0] == RBRACKET || rest[0] == RBRACE
  }

  lemma NumberParses(n: int, rest: Text)
    requires Stops(rest)
    ensures ParseNumber(Decimal(n) + rest) == Parsed(Int(n), rest)
  {
    hide Digits, DigitCount, ValueOf;
    var m := if n < 0 then -n else n;
    var body := Digits(m) + rest;
    DigitsAreDigits(m);
    DigitsHaveValue(m);
    CountStops(Digits(m), rest);
    assert body[..|Digits(m)|] == Digits(m) && body[|Digits(m)|..] == rest;
    if n < 0 {
      assert (Decimal(n) + rest)[1..] == body;
    }
  }

  /** How a printed value begins. */
  lemma PrintStart(v: Value)
    requires Plain(v)
    ensures Print(v) != []
    ensures var c := Print(v)[0];
            !White(c) && c != RBRACKET && c != RBRACE && c != 0xFEFF
  {
    if v.Int? {
      DigitsAreDigits(if v.n < 0 then -v.n else v.n);
    }
  }

  lemma SkipNothing(s: Text)
    requires s == [] || !White(s[0])
    ensures SkipWhite(s) == s
  {
  }

  lemma ScalarParses(v: Value, rest: Text)
    requires v.Null? || v.Bool? || v.Int? || v.Str?
    requires Stops(rest)
    ensures ParseValue(Print(v) + rest) == Parsed(v, rest)
  {
    hide ParseString, ParseNumber, Escape, Decimal;
    var s := Print(v) + rest;
    match v
    case Null =>
      assert s[..4] == Literal("null") && s[4..] == rest;
    case Bool(b) =>
      if b {
        assert s[..4] == Literal("true") && s[4..] == rest;
      } else {
        assert s[..5] == Literal("false") && s[5..] == rest;
      }
    case Str(t) =>
      assert s[1..] == Escape(t) + [QUOTE] + rest;
      StringParses(t, rest);
    case Int(n) =>
      NumberParses(n, rest);
      NumberStart(n);
      assert s[0] == Decimal(n)[0];
      NotLiteral(s);
  }

  lemma NumberStart(n: int)
    ensures Decimal(n) != [] && (Decimal(n)[0] == MINUS || Digit(Decimal(n)[0]))
  {
    DigitsAreDigits(if n < 0 then -n else n);
  }

  lemma NotLiteral(s: Text)
    requires s != [] && (s[0] == MINUS || Digit(s[0]))
    ensures !HasPrefix(s, Literal("null")) && !HasPrefix(s, Literal("true")) && !HasPrefix(s, Literal("false"))
  {
    assert Literal("null")[0] == 0x6E && Literal("true")[0] == 0x74 && Literal("false")[0] == 0x66;
    if |s| >= 5 {
      assert s[..4][0] == s[0] && s[..5][0] == s[0];
    } else if |s| >= 4 {
      assert s[..4][0] == s[0];
    }
  }

  /** Parsing a printed value gives it back, and stops exactly where it ends. */
  lemma {:induction false} ValueParses(v: Value, rest: Text)
    requires Plain(v) && Stops(rest)
    ensures ParseValue(Print(v) + rest) == Parsed(v, rest)
    decreases v, 0
  {
    hide ParseElements, ParseMembers, ParseString, ParseNumber, PrintItems, PrintMembers;
    match v
    case List(items) =>
      var s := Print(v) + rest;
      if items == [] {
        assert PrintItems(items) == [] by { NothingPrints(); }
        assert s == [LBRACKET, RBRACKET] + rest;
        SkipNothing(s[1..]);
      } else {
        var inner := PrintItems(items) + [RBRACKET] + rest;
        assert s[1..] == inner;
        ItemsParse(items, rest);
        ItemsStart(items, [RBRACKET] + rest);
        assert inner == PrintItems(items) + ([RBRACKET] + rest);
        SkipNothing(inner);
      }
    case Dict(ms) =>
      var s := Print(v) + rest;
      if ms == [] {
        assert PrintMembers(ms) == [] by { NothingPrints(); }
        assert s == [LBRACE, RBRACE] + rest;
        SkipNothing(s[1..]);
      } else {
        var inner := PrintMembers(ms) + [RBRACE] + rest;
        assert s[1..] == inner;
        MembersParse(ms, rest);
        MembersStart(ms, [RBRACE] + rest);
        assert inner == PrintMembers(ms) + ([RBRACE] + rest);
        SkipNothing(inner);
      }
    case _ => ScalarParses(v, rest);
  }

  lemma NothingPrints()
    ensures PrintItems([]) == [] && PrintMembers([]) == []
  {
  }

  lemma ItemsStart(items: seq<Value>, rest: Text)
    requires items != [] && forall i | 0 <= i < |items| :: Plain(items[i])
    ensures var s := PrintItems(items) + rest; s != [] && !White(s[0]) && s[0] != RBRACKET
  {
    PrintStart(items[0]);
    assert (PrintItems(items) + rest)[0] == Print(items[0])[0];
  }

  lemma MembersStart(ms: seq<Member>, rest: Text)
    requires ms != [] && forall i | 0 <= i < |ms| :: Plain(ms[i].value)
    ensures var s := PrintMembers(ms) + rest; s != [] && s[0] == QUOTE
  {
  }

  lemma Regroup(a: Text, b: Text, c: Text, d: Text)
    ensures a + b + c + d == a + (b + c + d) && a + b + c + d == (a + b) + (c + d)
    ensures b == [] ==> a + b == a && a + c + d == a + (c + d)
    ensures c == [] ==> a + b + d == a + (b + d)
  {
    assert a + b + c + d == a + (b + c + d);
    assert b == [] ==> a + b == a;
    assert a + c + d == a + (c + d);
    assert a + b + d == a + (b + d);
  }

  /** The last element, and an element followed by others, as the parser sees them. */
  lemma LastElement(v: Value, s: Text, rest: Text)
    requires ParseValue(s) == Parsed(v, [RBRACKET] + rest)
    ensures ParseElements(s) == Parsed([v], rest)
  {
    hide ParseValue;
    SkipNothing([RBRACKET] + rest);
  }

  lemma OneElement(v: Value, s: Text, tail: Text, items: seq<Value>, rest: Text)
    requires ParseValue(s) == Parsed(v, [COMMA] + tail) && tail != [] && !White(tail[0])
    requires |tail| < |s| && ParseElements(tail) == Parsed(items, rest)
    ensures ParseElements(s) == Parsed([v] + items, rest)
  {
    hide ParseValue;
    SkipNothing([COMMA] + tail);
    SkipNothing(tail);
    assert ([COMMA] + tail)[1..] == tail;
  }

  lemma {:induction false} ItemsParse(items: seq<Value>, rest: Text)
    requires items != [] && forall i | 0 <= i < |items| :: Plain(items[i])
    ensures ParseElements(PrintItems(items) + [RBRACKET] + rest) == Parsed(items, rest)
    decreases items, 1
  {
    hide ParseValue, Print, ParseElements;
    var s := PrintItems(items) + [RBRACKET] + rest;
    if |items| == 1 {
      Regroup(Print(items[0]), [], [RBRACKET], rest);
      ValueParses(items[0], [RBRACKET] + rest);
      LastElement(items[0], s, rest);
      assert items == [items[0]];
    } else {
      var tail := PrintItems(items[1..]) + [RBRACKET] + rest;
      Regroup(Print(items[0]) + [COMMA], PrintItems(items[1..]), [RBRACKET], rest);
      Regroup(Print(items[0]), [COMMA], [], tail);
      assert s == Print(items[0]) + ([COMMA] + tail);
      ValueParses(items[0], [COMMA] + tail);
      ItemsStart(items[1..], [RBRACKET] + rest);
      Regroup(PrintItems(items[1..]), [], [RBRACKET], rest);
      ItemsParse(items[1..], rest);
      OneElement(items[0], s, tail, items[1..], rest);
      assert items == [items[0]] + items[1..];
    }
  }

  lemma {:induction false} MemberParses(m: Member, rest: Text)
    requires Plain(m.value) && Stops(rest)
    ensures ParseMember(PrintMember(m) + rest) == Parsed(m, rest)
    decreases m, 1
  {
    hide ParseValue, Print, ParseString;
    var s := PrintMember(m) + rest;
    var value := Print(m.value) + rest;
    var colon := [COLON] + value;
    assert s[1..] == Escape(m.key) + [QUOTE] + colon;
    StringParses(m.key, colon);
    SkipNothing(colon);
    assert colon[1..] == value;
    PrintStart(m.value);
    SkipNothing(value);
    ValueParses(m.value, rest);
  }

  lemma LastMember(m: Member, s: Text, rest: Text)
    requires ParseMember(s) == Parsed(m, [RBRACE] + rest)
    ensures ParseMembers(s) == Parsed([m], rest)
  {
    hide ParseMember;
    SkipNothing([RBRACE] + rest);
  }

  lemma OneMember(m: Member, s: Text, tail: Text, ms: seq<Member>, rest: Text)
    requires ParseMember(s) == Parsed(m, [COMMA] + tail) && tail != [] && !White(tail[0])
    requires |tail| < |s| && ParseMembers(tail) == Parsed(ms, rest)
    ensures ParseMembers(s) == Parsed([m] + ms, rest)
  {
    hide ParseMember;
    SkipNothing([COMMA] + tail);
    SkipNothing(tail);
    assert ([COMMA] + tail)[1..] == tail;
  }

  lemma {:induction false} MembersParse(ms: seq<Member>, rest: Text)
    requires ms != [] && forall i | 0 <= i < |ms| :: Plain(ms[i].value)
    ensures ParseMembers(PrintMembers(ms) + [RBRACE] + rest) == Parsed(ms, rest)
    decreases ms, 1
  {
    hide ParseMember, PrintMember, ParseMembers;
    var s := PrintMembers(ms) + [RBRACE] + rest;
    if |ms| == 1 {
      Regroup(PrintMember(ms[0]), [], [RBRACE], rest);
      MemberParses(ms[0], [RBRACE] + rest);
      LastMember(ms[0], s, rest);
      assert ms == [ms[0]];
    } else {
      var tail := PrintMembers(ms[1..]) + [RBRACE] + rest;
      Regroup(PrintMember(ms[0]) + [COMMA], PrintMembers(ms[1..]), [RBRACE], rest);
      Regroup(PrintMember(ms[0]), [COMMA], [], tail);
      assert s == PrintMember(ms[0]) + ([COMMA] + tail);
      MemberParses(ms[0], [COMMA] + tail);
      MembersStart(ms[1..], [RBRACE] + rest);
      Regroup(PrintMembers(ms[1..]), [], [RBRACE], rest);
      MembersParse(ms[1..], rest);
      OneMember(ms[0], s, tail, ms[1..], rest);
      assert ms == [ms[0]] + ms[1..];
    }
  }

  /** The round trip: reading a printed value gives exactly that value. */
  lemma LoadsOfPrint(v: Value)
    requires Plain(v)
    ensures Loads(Print(v)) == Some(v)
  {
    hide Print, ParseValue;
    ValueParses(v, []);
    assert Print(v) + [] == Print(v);
    PrintStart(v);
    SkipNothing(Print(v));
  }

  // ---------------------------------------------------------------- what the parser produces

  lemma {:induction false} ParsedIsPlain(s: Text)
    ensures ParseValue(s).Parsed? ==> Plain(ParseValue(s).value)
    decreases |s|, 0
  {
    if s != [] {
      if s[0] == LBRACKET {
        ElementsArePlain(SkipWhite(s[1..]));
      } else if s[0] == LBRACE {
        MembersArePlain(SkipWhite(s[1..]));
      }
    }
  }

  lemma {:induction false} ElementsArePlain(s: Text)
    ensures ParseElements(s).Parsed? ==>
              forall i | 0 <= i < |ParseElements(s).value| :: Plain(ParseElements(s).value[i])
    decreases |s|, 1
  {
    ParsedIsPlain(s);
    if ParseElements(s).Parsed? {
      var next := SkipWhite(ParseValue(s).rest);
      if !StartsWith(next, RBRACKET) {
        ElementsArePlain(SkipWhite(next[1..]));
      }
    }
  }

  lemma {:induction false} MembersArePlain(s: Text)
    ensures ParseMembers(s).Parsed? ==>
              forall i | 0 <= i < |ParseMembers(s).value| :: Plain(ParseMembers(s).value[i].value)
    decreases |s|, 1
  {
    if ParseMembers(s).Parsed? {
      MemberIsPlain(s);
      var next := SkipWhite(ParseMember(s).rest);
      if !StartsWith(next, RBRACE) {
        MembersArePlain(SkipWhite(next[1..]));
      }
    }
  }

  lemma {:induction false} MemberIsPlain(s: Text)
    ensures ParseMember(s).Parsed? ==> Plain(ParseMember(s).value.value)
    decreases |s|, 0
  {
    if ParseMember(s).Parsed? {
      ParsedIsPlain(SkipWhite(SkipWhite(ParseString(s[1..]).rest)[1..]));
    }
  }
}
