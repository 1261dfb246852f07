/** The two text forms of bytes in an envelope: lower-case hexadecimal, and base64 (sections
    3.5 and 4 of RFC 4648) accepted only in its one canonical spelling. */
module TextCodecs {
  import opened Wrappers
  import opened Utf8
  import opened Json

  // ---------------------------------------------------------------- hexadecimal

  predicate LowerHex(c: Code) {
    0x30 <= c <= 0x39 || 0x61 <= c <= 0x66
  }

  predicate LowerHexText(t: Text) {
    forall i | 0 <= i < |t| :: LowerHex(t[i])
  }

  function Hex(bytes: Bytes): (t: Text)
    ensures |t| == 2 * |bytes| && LowerHexText(t)
  {
    if bytes == [] then [] else [HexDigit(bytes[0] / 16), HexDigit(bytes[0] % 16)] + Hex(bytes[1..])
  }

  function NibbleOf(c: Code): (n: int)
    requires LowerHex(c)
    ensures 0 <= n < 16 && HexDigit(n) == c
  {
    if c <= 0x39 then c - 0x30 else c - 0x57
  }

  /** `bytes.fromhex` on lower-case digits. */
  function FromHex(t: Text): (bytes: Bytes)
    requires LowerHexText(t) && |t| % 2 == 0
    ensures 2 * |bytes| == |t| && Hex(bytes) == t
  {
    if t == [] then []
    else
      var rest := FromHex(t[2..]);
      var b: Byte := NibbleOf(t[0]) * 16 + NibbleOf(t[1]);
      assert ([b] + rest)[1..] == rest;
      assert t == [t[0], t[1]] + t[2..];
      [b] + rest
  }

  lemma {:induction false} FromHexOfHex(bytes: Bytes)
    ensures FromHex(Hex(bytes)) == bytes
  {
    if bytes != [] {
      assert Hex(bytes)[2..] == Hex(bytes[1..]);
      FromHexOfHex(bytes[1..]);
      NibblesBack(bytes[0]);
      assert bytes == [bytes[0]] + bytes[1..];
    }
  }

  lemma NibblesBack(b: Byte)
    ensures NibbleOf(HexDigit(b / 16)) * 16 + NibbleOf(HexDigit(b % 16)) == b
  {
  }

  lemma LowerHexIsAscii(t: Text)
    requires LowerHexText(t)
    ensures Ascii(t)
  {
  }

  // ---------------------------------------------------------------- base64

  const PAD: Code := 0x3D

  function Sextet(n: int): Code
    requires 0 <= n < 64
  {
    if n < 26 then 0x41 + n
    else if n < 52 then 0x47 + n
    else if n < 62 then n - 4
    else if n == 62 then 0x2B
    else 0x2F
  }

  function SextetValue(c: Code): (n: int)
    ensures -1 <= n < 64
    ensures n >= 0 ==> Sextet(n) == c
  {
    if 0x41 <= c <= 0x5A then c - 0x41
    else if 0x61 <= c <= 0x7A then c - 0x47
    else if 0x30 <= c <= 0x39 then c + 4
    else if c == 0x2B then 62
    else if c == 0x2F then 63
    else -1
  }

  lemma SextetBack(n: int)
    requires 0 <= n < 64
    ensures SextetValue(Sextet(n)) == n && Sextet(n) != PAD
  {
  }

  function Base64(b: Bytes): Text {
    if |b| == 0 then []
    else if |b| == 1 then [Sextet(b[0] / 4), Sextet(b[0] % 4 * 16), PAD, PAD]
    else if |b| == 2 then [Sextet(b[0] / 4), Sextet(b[0] % 4 * 16 + b[1] / 16), Sextet(b[1] % 16 * 4), PAD]
    else [Sextet(b[0] / 4), Sextet(b[0] % 4 * 16 + b[1] / 16),
          Sextet(b[1] % 16 * 4 + b[2] / 64), Sextet(b[2] % 64)] + Base64(b[3..])
  }

  /** Validating decode: groups of four from the alphabet, padding only in the last group. Bits
      the padding drops are ignored, as the standard decoder does. */
  function FromBase64(t: Text): Option<Bytes> {
    if t == [] then Some([])
    else if |t| < 4 then None
    else
      var w, x, y, z := SextetValue(t[0]), SextetValue(t[1]), SextetValue(t[2]), SextetValue(t[3]);
      if w < 0 || x < 0 then None
      else if |t| == 4 && t[2] == PAD && t[3] == PAD then Some([w * 4 + x / 16])
      else if y < 0 then None
      else if |t| == 4 && t[3] == PAD then Some([w * 4 + x / 16, x % 16 * 16 + y / 4])
      else if z < 0 then None
      else
        match FromBase64(t[4..])
        case None => None
        case Some(rest) => Some([w * 4 + x / 16, x % 16 * 16 + y / 4, y % 4 * 64 + z] + rest)
  }

  lemma {:induction false} FromBase64OfBase64(b: Bytes)
    ensures FromBase64(Base64(b)) == Some(b)
  {
    if |b| >= 3 {
      FromBase64OfBase64(b[3..]);
      ThreeBytes(b);
    } else if |b| == 2 {
      TwoBytes(b);
    } else if |b| == 1 {
      OneByte(b);
    }
  }

  /** Splitting bytes into six-bit groups and putting them together again. */
  lemma TwoGroups(x: Byte)
    ensures 0 <= x / 4 < 64 && 0 <= x % 4 * 16 < 64
    ensures x / 4 * 4 + x % 4 * 16 / 16 == x
  {
  }

  lemma ThreeGroups(x: Byte, y: Byte)
    ensures 0 <= x / 4 < 64 && 0 <= x % 4 * 16 + y / 16 < 64 && 0 <= y % 16 * 4 < 64
    ensures x / 4 * 4 + (x % 4 * 16 + y / 16) / 16 == x
    ensures (x % 4 * 16 + y / 16) % 16 * 16 + y % 16 * 4 / 4 == y
  {
  }

  lemma FourGroups(x: Byte, y: Byte, z: Byte)
    ensures 0 <= x / 4 < 64 && 0 <= x % 4 * 16 + y / 16 < 64 && 0 <= y % 16 * 4 + z / 64 < 64 && 0 <= z % 64 < 64
    ensures x / 4 * 4 + (x % 4 * 16 + y / 16) / 16 == x
    ensures (x % 4 * 16 + y / 16) % 16 * 16 + (y % 16 * 4 + z / 64) / 4 == y
    ensures (y % 16 * 4 + z / 64) % 4 * 64 + z % 64 == z
  {
  }

  /** One group of four, decoded. */
  lemma OneGroup(w: int, x: int, y: int, z: int, t: Text, rest: Bytes, p: Byte, q: Byte, r: Byte)
    requires 0 <= w < 64 && 0 <= x < 64 && 0 <= y < 64 && 0 <= z < 64 && FromBase64(t) == Some(rest)
    requires w * 4 + x / 16 == p && x % 16 * 16 + y / 4 == q && y % 4 * 64 + z == r
    ensures FromBase64([Sextet(w), Sextet(x), Sextet(y), Sextet(z)] + t) == Some([p, q, r] + rest)
  {
    hide Sextet, SextetValue;
    SextetBack(w);
    SextetBack(x);
    SextetBack(y);
    SextetBack(z);
    assert ([Sextet(w), Sextet(x), Sextet(y), Sextet(z)] + t)[4..] == t;
  }

  /** The last group, with one or two characters of padding. */
  lemma PaddedGroup(w: int, x: int, y: int)
    requires 0 <= w < 64 && 0 <= x < 64 && 0 <= y < 64
    ensures FromBase64([Sextet(w), Sextet(x), PAD, PAD]) == Some([w * 4 + x / 16])
    ensures FromBase64([Sextet(w), Sextet(x), Sextet(y), PAD]) == Some([w * 4 + x / 16, x % 16 * 16 + y / 4])
  {
    hide Sextet, SextetValue;
    SextetBack(w);
    SextetBack(x);
    SextetBack(y);
  }

  lemma OneByte(b: Bytes)
    requires |b| == 1
    ensures FromBase64(Base64(b)) == Some(b)
  {
    hide Sextet, FromBase64;
    TwoGroups(b[0]);
    PaddedGroup(b[0] / 4, b[0] % 4 * 16, 0);
    assert b == [b[0]];
  }

  lemma TwoBytes(b: Bytes)
    requires |b| == 2
    ensures FromBase64(Base64(b)) == Some(b)
  {
    hide Sextet, FromBase64;
    ThreeGroups(b[0], b[1]);
    PaddedGroup(b[0] / 4, b[0] % 4 * 16 + b[1] / 16, b[1] % 16 * 4);
    assert b == [b[0], b[1]];
  }

  lemma ThreeBytes(b: Bytes)
    requires |b| >= 3 && FromBase64(Base64(b[3..])) == Some(b[3..])
    ensures FromBase64(Base64(b)) == Some(b)
  {
    hide Sextet, FromBase64, Base64;
    var w, x, y, z := FourSextets(b);
    assert b == [b[0], b[1], b[2]] + b[3..];
    OneGroup(w, x, y, z, Base64(b[3..]), b[3..], b[0], b[1], b[2]);
  }

  lemma FourSextets(b: Bytes) returns (w: int, x: int, y: int, z: int)
    requires |b| >= 3
    ensures 0 <= w < 64 && 0 <= x < 64 && 0 <= y < 64 && 0 <= z < 64
    ensures w * 4 + x / 16 == b[0] && x % 16 * 16 + y / 4 == b[1] && y % 4 * 64 + z == b[2]
    ensures Base64(b) == [Sextet(w), Sextet(x), Sextet(y), Sextet(z)] + Base64(b[3..])
  {
    hide Sextet;
    FourGroups(b[0], b[1], b[2]);
    w, x, y, z := b[0] / 4, b[0] % 4 * 16 + b[1] / 16, b[1] % 16 * 4 + b[2] / 64, b[2] % 64;
  }

  lemma {:induction false} Base64IsAscii(b: Bytes)
    ensures Ascii(Base64(b))
  {
    hide Sextet;
    if |b| >= 3 {
      var ns := [b[0] / 4, b[0] % 4 * 16 + b[1] / 16, b[1] % 16 * 4 + b[2] / 64, b[2] % 64];
      SextetsAreAscii(ns);
      Base64IsAscii(b[3..]);
      assert Base64(b) == [Sextet(ns[0]), Sextet(ns[1]), Sextet(ns[2]), Sextet(ns[3])] + Base64(b[3..]);
    } else if |b| == 2 {
      var ns := [b[0] / 4, b[0] % 4 * 16 + b[1] / 16, b[1] % 16 * 4];
      SextetsAreAscii(ns);
      assert Base64(b) == [Sextet(ns[0]), Sextet(ns[1]), Sextet(ns[2]), PAD];
    } else if |b| == 1 {
      var ns := [b[0] / 4, b[0] % 4 * 16];
      SextetsAreAscii(ns);
      assert Base64(b) == [Sextet(ns[0]), Sextet(ns[1]), PAD, PAD];
    }
  }

  lemma SextetsAreAscii(ns: seq<int>)
    requires forall i | 0 <= i < |ns| :: 0 <= ns[i] < 64
    ensures forall i | 0 <= i < |ns| :: Sextet(ns[i]) < 0x80
  {
  }

  /** `_signature_bytes`: sixty-four bytes, spelled the one canonical way. */
  function SignatureBytes(t: Text): Option<Bytes> {
    match FromBase64(t)
    case None => None
    case Some(raw) => if |raw| == 64 && Base64(raw) == t then Some(raw) else None
  }

  /** A spelling is accepted exactly when it is the encoding of sixty-four bytes: every
      signature has one accepted spelling, and every accepted spelling one signature. */
  lemma SignatureSpelling(t: Text, raw: Bytes)
    ensures SignatureBytes(t) == Some(raw) <==> |raw| == 64 && t == Base64(raw)
  {
    FromBase64OfBase64(raw);
  }
}
