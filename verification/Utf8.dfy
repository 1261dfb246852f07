/** Text as sequences of code points (surrogates included, as in the source's language), and
    the strict UTF-8 codec between text and bytes. */
module Utf8 {
  import opened Wrappers

  type Byte = b: int | 0 <= b < 0x100
  type Code = c: int | 0 <= c <= 0x10FFFF
  type Bytes = seq<Byte>
  type Text = seq<Code>

  function Literal(s: string): (t: Text)
    ensures |t| == |s|
  {
    seq(|s|, i requires 0 <= i < |s| => s[i] as int)
  }

  predicate Surrogate(c: Code) {
    0xD800 <= c <= 0xDFFF
  }

  /** Text that has an encoding: no surrogates. */
  predicate Scalar(t: Text) {
    forall i | 0 <= i < |t| :: !Surrogate(t[i])
  }

  predicate Ascii(t: Text) {
    forall i | 0 <= i < |t| :: t[i] < 0x80
  }

  /** The leading bits of a code point, and the continuation byte that carries the last six. */
  function High(c: int): int {
    c / 0x40
  }

  function Low(c: int): (b: Byte)
    ensures Continues(b)
  {
    0x80 + c % 0x40
  }

  function Join(high: int, low: Byte): int {
    high * 0x40 + (low as int - 0x80)
  }

  lemma SplitJoins(c: int)
    ensures Join(High(c), Low(c)) == c
  {
  }

  lemma JoinSplits(high: int, low: Byte)
    requires Continues(low)
    ensures High(Join(high, low)) == high && Low(Join(high, low)) == low
  {
  }

  function EncodeCode(c: Code): (bytes: Bytes)
    ensures 1 <= |bytes| <= 4
  {
    if c < 0x80 then [c]
    else if c < 0x800 then [0xC0 + High(c), Low(c)]
    else if c < 0x10000 then [0xE0 + High(High(c)), Low(High(c)), Low(c)]
    else [0xF0 + High(High(High(c))), Low(High(High(c))), Low(High(c)), Low(c)]
  }

  function Encode(t: Text): Bytes {
    if t == [] then [] else EncodeCode(t[0]) + Encode(t[1..])
  }

  predicate Continues(b: Byte) {
    0x80 <= b < 0xC0
  }

  /** The first code point and the number of bytes it takes; None where strict decoding fails:
      a stray or missing continuation, an overlong form, a surrogate, or beyond U+10FFFF. */
  function DecodeCode(b: Bytes): (r: Option<(Code, nat)>)
    ensures r.Some? ==> 1 <= r.value.1 <= |b|
  {
    if |b| == 0 then None
    else if b[0] < 0x80 then Some((b[0], 1))
    else if 0xC2 <= b[0] < 0xE0 then
      if |b| >= 2 && Continues(b[1]) then Some((Join(b[0] as int - 0xC0, b[1]), 2)) else None
    else if 0xE0 <= b[0] < 0xF0 then
      if |b| >= 3 && Continues(b[1]) && Continues(b[2]) then
        var c := Join(Join(b[0] as int - 0xE0, b[1]), b[2]);
        if c >= 0x800 && !Surrogate(c) then Some((c, 3)) else None
      else None
    else if 0xF0 <= b[0] < 0xF5 then
      if |b| >= 4 && Continues(b[1]) && Continues(b[2]) && Continues(b[3]) then
        var c := Join(Join(Join(b[0] as int - 0xF0, b[1]), b[2]), b[3]);
        if 0x10000 <= c <= 0x10FFFF then Some((c, 4)) else None
      else None
    else None
  }

  function Decode(b: Bytes): Option<Text>
    decreases |b|
  {
    if b == [] then Some([])
    else
      match DecodeCode(b)
      case None => None
      case Some((c, n)) =>
        match Decode(b[n..])
        case None => None
        case Some(t) => Some([c] + t)
  }

  // ---------------------------------------------------------------- the codec is a bijection

  lemma DecodeCodeOfEncode(c: Code, rest: Bytes)
    requires !Surrogate(c)
    ensures DecodeCode(EncodeCode(c) + rest) == Some((c, |EncodeCode(c)|))
  {
    hide Join, Low;
    var bytes := EncodeCode(c);
    SplitJoins(c);
    SplitJoins(High(c));
    SplitJoins(High(High(c)));
    assert forall i | 0 <= i < |bytes| :: (bytes + rest)[i] == bytes[i];
  }

  lemma EncodeCodeOfDecode(b: Bytes)
    requires DecodeCode(b).Some?
    ensures var (c, n) := DecodeCode(b).value;
            !Surrogate(c) && EncodeCode(c) == b[..n]
  {
    var (c, n) := DecodeCode(b).value;
    if n == 2 {
      JoinSplits(b[0] as int - 0xC0, b[1]);
    } else if n == 3 {
      JoinSplits(b[0] as int - 0xE0, b[1]);
      JoinSplits(Join(b[0] as int - 0xE0, b[1]), b[2]);
      Bounds3(b[0] as int - 0xE0, b[1], b[2]);
    } else if n == 4 {
      var first := b[0] as int - 0xF0;
      JoinSplits(first, b[1]);
      JoinSplits(Join(first, b[1]), b[2]);
      JoinSplits(Join(Join(first, b[1]), b[2]), b[3]);
    }
  }

  lemma Bounds3(high: int, b1: Byte, b2: Byte)
    requires 0 <= high < 0x10 && Continues(b1) && Continues(b2)
    ensures 0 <= Join(Join(high, b1), b2) < 0x10000
  {
  }

  /** Decoding undoes encoding on every text that has an encoding. */
  lemma {:induction false} DecodeOfEncode(t: Text)
    requires Scalar(t)
    ensures Decode(Encode(t)) == Some(t)
  {
    hide EncodeCode, DecodeCode;
    if t != [] {
      var first, rest := EncodeCode(t[0]), Encode(t[1..]);
      DecodeCodeOfEncode(t[0], rest);
      DecodeOfEncode(t[1..]);
      assert (first + rest)[|first|..] == rest;
      assert Encode(t) == first + rest;
      assert t == [t[0]] + t[1..];
    }
  }

  /** Only one byte sequence decodes to a text: its encoding. */
  lemma {:induction false} EncodeOfDecode(b: Bytes)
    requires Decode(b).Some?
    ensures Scalar(Decode(b).value) && Encode(Decode(b).value) == b
    decreases |b|
  {
    hide EncodeCode, DecodeCode;
    if b != [] {
      var (c, n) := DecodeCode(b).value;
      EncodeCodeOfDecode(b);
      EncodeOfDecode(b[n..]);
      assert Decode(b).value[1..] == Decode(b[n..]).value;
      assert b == b[..n] + b[n..];
    }
  }

  lemma EncodeInjective(s: Text, t: Text)
    requires Scalar(s) && Scalar(t) && Encode(s) == Encode(t)
    ensures s == t
  {
    DecodeOfEncode(s);
    DecodeOfEncode(t);
  }

  // ---------------------------------------------------------------- the order of encodings

  /** Lexicographic order, as the language compares sequences. */
  predicate Below(a: seq<int>, b: seq<int>) {
    b != [] && (a == [] || a[0] < b[0] || (a[0] == b[0] && Below(a[1..], b[1..])))
  }

  lemma {:induction false} BelowTotal(a: seq<int>, b: seq<int>)
    ensures Below(a, b) || Below(b, a) || a == b
    ensures !(Below(a, b) && Below(b, a))
  {
    if a != [] && b != [] {
      BelowTotal(a[1..], b[1..]);
      assert a == [a[0]] + a[1..] && b == [b[0]] + b[1..];
    }
  }

  lemma {:induction false} BelowTransitive(a: seq<int>, b: seq<int>, c: seq<int>)
    requires Below(a, b) && Below(b, c)
    ensures Below(a, c)
  {
    if a != [] && a[0] == b[0] && b[0] == c[0] {
      BelowTransitive(a[1..], b[1..], c[1..]);
    }
  }

  lemma {:induction false} BelowPrefix(p: seq<int>, a: seq<int>, b: seq<int>)
    ensures Below(p + a, p + b) == Below(a, b)
  {
    if p == [] {
      assert p + a == a && p + b == b;
    } else {
      assert (p + a)[1..] == p[1..] + a && (p + b)[1..] == p[1..] + b;
      BelowPrefix(p[1..], a, b);
    }
  }

  /** Encodings of different code points first differ inside both of them, in the same direction. */
  lemma EncodeCodeOrder(c: Code, d: Code, a: Bytes, b: Bytes)
    requires c < d
    ensures Below(EncodeCode(c) + a, EncodeCode(d) + b)
  {
    var x, y := EncodeCode(c), EncodeCode(d);
    if x[0] < y[0] {
      assert (x + a)[0] < (y + b)[0];
    } else {
      SecondByteOnward(c, d, a, b);
    }
  }

  /** The first byte tells how many follow. */
  lemma FirstByteTellsLength(c: Code, d: Code)
    requires EncodeCode(c)[0] == EncodeCode(d)[0]
    ensures |EncodeCode(c)| == |EncodeCode(d)|
  {
    hide Low;
  }

  lemma SecondByteOnward(c: Code, d: Code, a: Bytes, b: Bytes)
    requires c < d && EncodeCode(c)[0] == EncodeCode(d)[0]
    ensures Below(EncodeCode(c) + a, EncodeCode(d) + b)
  {
    hide High, Low, Below;
    var x, y := EncodeCode(c), EncodeCode(d);
    FirstByteTellsLength(c, d);
    HighOrder(c, d);
    HighOrder(High(c), High(d));
    HighOrder(High(High(c)), High(High(d)));
    var i := if High(c) == High(d) then |x| - 1
             else if High(High(c)) == High(High(d)) then |x| - 2 else |x| - 3;
    DiffersAt(x + a, y + b, i);
  }

  lemma DiffersAt(x: seq<int>, y: seq<int>, i: nat)
    requires i < |x| && i < |y| && x[..i] == y[..i] && x[i] < y[i]
    ensures Below(x, y)
  {
    assert x == x[..i] + x[i..] && y == x[..i] + y[i..];
    BelowPrefix(x[..i], x[i..], y[i..]);
  }

  lemma HighOrder(c: int, d: int)
    ensures c < d ==> High(c) < High(d) || (High(c) == High(d) && Low(c) < Low(d))
  {
  }

  /** Comparing encodings byte by byte is comparing texts code point by code point. */
  lemma {:induction false} ByteOrderIsCodeOrder(s: Text, t: Text)
    ensures Below(Encode(s), Encode(t)) <==> Below(s, t)
    decreases |s|
  {
    if s == [] || t == [] {
    } else if s[0] == t[0] {
      BelowPrefix(EncodeCode(s[0]), Encode(s[1..]), Encode(t[1..]));
      ByteOrderIsCodeOrder(s[1..], t[1..]);
    } else if s[0] < t[0] {
      EncodeCodeOrder(s[0], t[0], Encode(s[1..]), Encode(t[1..]));
    } else {
      EncodeCodeOrder(t[0], s[0], Encode(t[1..]), Encode(s[1..]));
      BelowTotal(Encode(s), Encode(t));
    }
  }
}
