/** Exactly when signing succeeds: for which headers, payloads and keys a signer returns a wire. */
module PeerEnvelopeSigning {
  import opened Wrappers
  import opened Utf8
  import opened Json
  import opened CanonicalJson
  import opened TextCodecs
  import opened PeerEnvelope
  import opened PeerEnvelopeTheorems

  /** What a caller can check beforehand: a valid header that names the key's own peer, a payload
      mapping that fits one level down, and a correlation id that survives normalisation. */
  predicate Signable(P: Primitives, header: seq<Member>, payload: Value, key: Bytes) {
    && Keys(header) == INPUT_HEADER && ValidFields(header, true)
    && Field(header, SENDER) == Some(Str(PeerId(P, P.publicKey(key))))
    && payload.Dict? && Canonical(P.nfc, payload, MAX_DEPTH - 1).Some?
    && (var id := Field(header, CORRELATION).value.t; Scalar(P.nfc(id)) && P.nfc(id) != [])
  }

  // ---------------------------------------------------------------- header values are plain text and numbers

  predicate PlainValue(v: Value) {
    v.Int? || (v.Str? && Ascii(v.t))
  }

  lemma AsciiJoin(a: Text, b: Text)
    requires Ascii(a) && Ascii(b)
    ensures Ascii(a + b)
  {
  }

  lemma {:induction false} DigitsAreAscii(n: nat)
    ensures Ascii(Digits(n))
  {
    DigitsAreDigits(n);
  }

  lemma DecimalIsAscii(n: int)
    ensures Ascii(Decimal(n))
  {
    hide Digits;
    DigitsAreAscii(if n < 0 then -n else n);
  }

  lemma KindsAreAscii(t: Text)
    requires t in KINDS
    ensures Ascii(t)
  {
    hide Literal, Ascii, AsciiString;
    KindNames();
    LiteralIsAscii("proposal");
    LiteralIsAscii("ballot");
    LiteralIsAscii("membership");
    LiteralIsAscii("decision-certificate");
    LiteralIsAscii("grant");
    LiteralIsAscii("heartbeat");
    LiteralIsAscii("recovery-request");
    LiteralIsAscii("recovery-response");
  }

  lemma KindNames()
    ensures AsciiString("proposal") && AsciiString("ballot") && AsciiString("membership")
    ensures AsciiString("decision-certificate") && AsciiString("grant") && AsciiString("heartbeat")
    ensures AsciiString("recovery-request") && AsciiString("recovery-response")
    ensures AsciiString("agency-known-peer/1") && AsciiString("Ed25519") && AsciiString("peer_")
  {
  }

  lemma PeerTextIsAscii(t: Text)
    requires PeerText(Some(Str(t)))
    ensures Ascii(t)
  {
    hide Literal, AsciiString;
    KindNames();
    LiteralIsAscii("peer_");
    LowerHexIsAscii(t[5..]);
    AsciiJoin(t[..5], t[5..]);
    assert t == t[..5] + t[5..];
  }

  /** Every validated header field but the correlation id is a number or ASCII text. */
  lemma HeaderIsPlain(header: seq<Member>, f: Text)
    requires ValidFields(header, true) && f in INPUT_HEADER && f != CORRELATION
    ensures Field(header, f).Some? && PlainValue(Field(header, f).value)
  {
    hide Field, Literal, KINDS, AsciiString, PeerText, Decimal;
    if f == PROTO {
      KindNames();
      LiteralIsAscii("agency-known-peer/1");
    } else if f == KIND {
      KindsAreAscii(Field(header, KIND).value.t);
    } else if f == ROOT {
      LowerHexIsAscii(Field(header, ROOT).value.t);
    } else if f == SENDER || f == MSG_ID {
      assert Field(header, SENDER).value.Str? by { PeerIsText(Field(header, SENDER)); }
      var sender := Field(header, SENDER).value.t;
      PeerTextIsAscii(sender);
      DecimalIsAscii(Field(header, SEQUENCE).value.n);
      AsciiJoin(sender, [COLON]);
      AsciiJoin(sender + [COLON], Decimal(Field(header, SEQUENCE).value.n));
    }
  }

  lemma PeerIsText(v: Option<Value>)
    ensures PeerText(v) ==> v.Some? && v.value.Str?
  {
  }

  // ---------------------------------------------------------------- mappings under plain names

  lemma PlainIsCanonical(P: Primitives, v: Value, room: nat)
    requires Sound(P) && PlainValue(v)
    ensures Canonical(P.nfc, v, room) == Some(v)
  {
    if v.Str? {
      assert P.nfc(v.t) == v.t;
      AsciiIsScalar(v.t);
    }
  }

  /** A mapping with ASCII names and canonical values is canonical, under the same names. */
  lemma AsciiDict(P: Primitives, ms: seq<Member>, room: nat)
    requires Sound(P) && DistinctKeys(ms)
    requires forall i | 0 <= i < |ms| :: Ascii(ms[i].key) && Canonical(P.nfc, ms[i].value, room).Some?
    ensures Canonical(P.nfc, Dict(ms), room + 1).Some? && Canonical(P.nfc, Dict(ms), room + 1).value.Dict?
    ensures Keys(Canonical(P.nfc, Dict(ms), room + 1).value.members) == Keys(ms)
  {
    hide Canonical, CanonicalMembers, Sort;
    var ns := seq(|ms|, i requires 0 <= i < |ms| => Member(ms[i].key, Canonical(P.nfc, ms[i].value, room).value));
    forall i | 0 <= i < |ms| ensures CanonicalMember(P.nfc, ms[i], room) == Some(ns[i]) {
      assert P.nfc(ms[i].key) == ms[i].key;
      AsciiIsScalar(ms[i].key);
    }
    MembersFrom(P.nfc, ms, room, ns);
    DictFrom(P.nfc, ms, room, ns);
    SortKeeps(ns);
    forall k ensures k in Keys(Sort(ns)) <==> k in Keys(ms) {
      KeysFollow(ms, ns, k);
      if k in Keys(Sort(ns)) {
        var m :| m in Sort(ns) && m.key == k;
        assert m in ns;
      }
      if k in Keys(ns) {
        var m :| m in ns && m.key == k;
        assert m in Sort(ns);
      }
    }
  }

  lemma DictFrom(nfc: Text -> Text, ms: seq<Member>, room: nat, ns: seq<Member>)
    requires CanonicalMembers(nfc, ms, room) == Some(ns) && DistinctKeys(ns)
    ensures Canonical(nfc, Dict(ms), room + 1) == Some(Dict(Sort(ns)))
  {
  }

  lemma KeysFollow(ms: seq<Member>, ns: seq<Member>, k: Text)
    requires |ns| == |ms| && forall i | 0 <= i < |ms| :: ns[i].key == ms[i].key
    ensures k in Keys(ns) <==> k in Keys(ms)
  {
    if k in Keys(ns) {
      var m :| m in ns && m.key == k;
      var i :| 0 <= i < |ns| && ns[i] == m;
      assert ms[i] in ms;
    }
    if k in Keys(ms) {
      var m :| m in ms && m.key == k;
      var i :| 0 <= i < |ms| && ms[i] == m;
      assert ns[i] in ns;
    }
  }

  /** What canonicalisation leaves of each header value: itself, or the normalised correlation id. */
  function Kept(P: Primitives, header: seq<Member>, f: Text): Option<Value> {
    var v := Field(header, f);
    if f == CORRELATION && v.Some? && v.value.Str? then Some(Str(P.nfc(v.value.t))) else v
  }

  lemma HeaderIsCanonical(P: Primitives, header: seq<Member>, payload: Value, key: Bytes, f: Text, room: nat)
    requires Sound(P) && Signable(P, header, payload, key) && f in INPUT_HEADER
    ensures Field(header, f).Some? && Canonical(P.nfc, Field(header, f).value, room) == Kept(P, header, f)
    ensures Ascii(f)
  {
    hide Field, PeerText, DigestText, Keys, PeerId, HEADER;
    InputIsHeader(f);
    NamesAreAscii(f);
    if f != CORRELATION {
      HeaderIsPlain(header, f);
      PlainIsCanonical(P, Field(header, f).value, room);
    }
  }

  lemma InputIsHeader(f: Text)
    requires f in INPUT_HEADER
    ensures f in HEADER && f != PAYLOAD_DIGEST
  {
  }

  // ---------------------------------------------------------------- the three encodings succeed

  lemma MemberIsField(ms: seq<Member>, i: nat)
    requires DistinctKeys(ms) && i < |ms|
    ensures ms[i].key in Keys(ms) && Field(ms, ms[i].key) == Some(ms[i].value)
  {
    InKeys(ms, i);
    LookupAt(ms, i);
  }

  /** The header with its payload digest is canonical. */
  lemma FieldsAreCanonical(P: Primitives, header: seq<Member>, payload: Value, key: Bytes, payloadBytes: Bytes, room: nat)
    requires Sound(P) && DistinctKeys(header) && Signable(P, header, payload, key)
    ensures var fields := SignedFields(P, header, payloadBytes);
            && DistinctKeys(fields)
            && forall i | 0 <= i < |fields| :: Ascii(fields[i].key) && Canonical(P.nfc, fields[i].value, room).Some?
  {
    hide Canonical, Signable, Field, Keys, HEADER, INPUT_HEADER;
    var fields := SignedFields(P, header, payloadBytes);
    assert Keys(header) == INPUT_HEADER by { SignableHeader(P, header, payload, key); }
    AddedNamesAreNew();
    DigestIsHeader();
    NamesAreAscii(PAYLOAD_DIGEST);
    LowerHexIsAscii(Hex(P.sha256(payloadBytes)));
    PlainIsCanonical(P, fields[|header|].value, room);
    forall i | 0 <= i < |header|
      ensures Ascii(header[i].key) && Canonical(P.nfc, header[i].value, room).Some? && header[i].key != PAYLOAD_DIGEST
    {
      MemberIsField(header, i);
      HeaderIsCanonical(P, header, payload, key, header[i].key, room);
      KeptIsSome(P, header, header[i].key);
    }
  }

  lemma SignableHeader(P: Primitives, header: seq<Member>, payload: Value, key: Bytes)
    requires Signable(P, header, payload, key)
    ensures Keys(header) == INPUT_HEADER
  {
  }

  lemma KeptIsSome(P: Primitives, header: seq<Member>, f: Text)
    requires Field(header, f).Some?
    ensures Kept(P, header, f).Some?
  {
  }

  /** The signature object is canonical and, once canonical, valid. */
  lemma SignatureIsValid(P: Primitives, key: Bytes, digest: Bytes)
    requires Sound(P)
    ensures var n := Canonical(P.nfc, SignatureObject(P, key, digest), MAX_DEPTH - 1);
            n.Some? && ValidSignature(n)
  {
    hide Canonical, Field, Keys, Base64, FromBase64, Hex, Literal, SIGNATURE_FIELDS, Ascii;
    var parts := SignatureObject(P, key, digest).members;
    var sig := Base64(P.sign(key, PREFIX + digest));
    PartsAreCanonical(P, key, digest);
    AsciiDict(P, parts, MAX_DEPTH - 2);
    SignatureNames(P, key, digest);
    SignatureText(P, key, digest);
    AlgorithmStays(P, key, digest);
    HexIsDigest(P.publicKey(key));
    SignatureSpelling(sig, P.sign(key, PREFIX + digest));
  }

  lemma AlgorithmStays(P: Primitives, key: Bytes, digest: Bytes)
    requires Sound(P) && Canonical(P.nfc, SignatureObject(P, key, digest), MAX_DEPTH - 1).Some?
    ensures var n := Canonical(P.nfc, SignatureObject(P, key, digest), MAX_DEPTH - 1).value;
            n.Dict? && Field(n.members, ALG) == Some(Str(ED25519))
  {
    hide Canonical, Field, Base64, Hex, Literal;
    var parts := SignatureObject(P, key, digest).members;
    assert parts[0] == Member(ALG, Str(ED25519));
    NamesAreAscii(ALG);
    KindNames();
    LiteralIsAscii("Ed25519");
    AsciiField(P, parts, MAX_DEPTH - 2, ALG, ED25519);
  }

  lemma HexIsDigest(b: Bytes)
    requires |b| == 32
    ensures DigestText(Some(Str(Hex(b))))
  {
  }

  lemma SignatureNames(P: Primitives, key: Bytes, digest: Bytes)
    ensures Keys(SignatureObject(P, key, digest).members) == SIGNATURE_FIELDS
  {
    hide Literal, Hex, Base64, Keys;
    var parts := SignatureObject(P, key, digest).members;
    ThreeKeys(parts[0], parts[1], parts[2]);
    assert parts == [parts[0], parts[1], parts[2]];
  }

  lemma ThreeKeys(a: Member, b: Member, c: Member)
    ensures Keys([a, b, c]) == {a.key, b.key, c.key}
  {
    var parts := [a, b, c];
    assert parts[0] == a && parts[1] == b && parts[2] == c;
    forall k | k in Keys(parts) ensures k in {a.key, b.key, c.key} {
      var m :| m in parts && m.key == k;
      var i :| 0 <= i < |parts| && parts[i] == m;
    }
  }

  lemma PartsAreCanonical(P: Primitives, key: Bytes, digest: Bytes)
    requires Sound(P)
    ensures var parts := SignatureObject(P, key, digest).members;
            && DistinctKeys(parts)
            && forall i | 0 <= i < |parts| :: Ascii(parts[i].key) && Canonical(P.nfc, parts[i].value, MAX_DEPTH - 2).Some?
  {
    hide Canonical, Base64, Hex, Literal, Ascii;
    var parts := SignatureObject(P, key, digest).members;
    NamesAreAscii(ALG);
    NamesAreAscii(KEY_ID);
    NamesAreAscii(SIG);
    KindNames();
    LiteralIsAscii("Ed25519");
    LowerHexIsAscii(Fingerprint(P.publicKey(key)));
    Base64IsAscii(P.sign(key, PREFIX + digest));
    PlainIsCanonical(P, parts[0].value, MAX_DEPTH - 2);
    PlainIsCanonical(P, parts[1].value, MAX_DEPTH - 2);
    PlainIsCanonical(P, parts[2].value, MAX_DEPTH - 2);
    SignatureNamesDiffer();
  }

  lemma SignatureNamesDiffer()
    ensures ALG != KEY_ID && ALG != SIG && KEY_ID != SIG
  {
    assert ALG[0] == 0x61 && KEY_ID[0] == 0x6B && SIG[0] == 0x73;
  }

  // ---------------------------------------------------------------- the envelope the signer builds

  function Whole(P: Primitives, header: seq<Member>, payload: Value, key: Bytes,
                 payloadBytes: Bytes, digest: Bytes): seq<Member>
  {
    EnvelopeObject(P, SignedFields(P, header, payloadBytes), payload, key, digest).members
  }

  lemma WholeNames(P: Primitives, header: seq<Member>, payload: Value, key: Bytes, payloadBytes: Bytes, digest: Bytes)
    requires Keys(header) == INPUT_HEADER
    ensures Keys(Whole(P, header, payload, key, payloadBytes, digest)) == ENVELOPE
  {
    hide Literal, Hex, HEADER, INPUT_HEADER, SignatureObject, SignedFields;
    var fields, whole := SignedFields(P, header, payloadBytes), Whole(P, header, payload, key, payloadBytes, digest);
    FieldsAreHeader(P, header, payloadBytes);
    assert whole[|fields|].key == ENVELOPE_DIGEST && whole[|fields| + 1].key == PAYLOAD && whole[|fields| + 2].key == SIGNATURE;
    forall f ensures f in Keys(whole) <==> f in ENVELOPE {
      if f in Keys(fields) {
        var m :| m in fields && m.key == f;
        assert m in whole;
      }
      if f in Keys(whole) {
        var m :| m in whole && m.key == f;
        var i :| 0 <= i < |whole| && whole[i] == m;
        if i < |fields| {
          assert whole[i] == fields[i] && fields[i] in fields;
        }
      }
      assert whole[|fields|] in whole && whole[|fields| + 1] in whole && whole[|fields| + 2] in whole;
    }
  }

  /** A mapping entry with an ASCII name and a canonical value. */
  predicate Fits(P: Primitives, m: Member, room: int) {
    Ascii(m.key) && Canonical(P.nfc, m.value, room).Some?
  }

  lemma WholeIsCanonical(P: Primitives, header: seq<Member>, payload: Value, key: Bytes, payloadBytes: Bytes, digest: Bytes)
    requires Sound(P) && DistinctKeys(header) && Signable(P, header, payload, key)
    ensures var whole := Whole(P, header, payload, key, payloadBytes, digest);
            && DistinctKeys(whole)
            && forall i | 0 <= i < |whole| :: Ascii(whole[i].key) && Canonical(P.nfc, whole[i].value, MAX_DEPTH - 1).Some?
  {
    hide Canonical, Signable, Keys, HEADER, INPUT_HEADER, Ascii, SignedFields, Fits, EnvelopeObject;
    var fields, whole := SignedFields(P, header, payloadBytes), Whole(P, header, payload, key, payloadBytes, digest);
    SignablePayload(P, header, payload, key);
    FieldsAreCanonical(P, header, payload, key, payloadBytes, MAX_DEPTH - 1);
    FieldsAreHeader(P, header, payloadBytes);
    forall i | 0 <= i < |fields| ensures fields[i].key in HEADER && Fits(P, fields[i], MAX_DEPTH - 1) {
      InKeys(fields, i);
      assert Fits(P, fields[i], MAX_DEPTH - 1) by { FitsAt(P, fields[i], MAX_DEPTH - 1); }
    }
    var a, b, c := AddedMembers(P, header, payload, key, payloadBytes, digest);
    WholeJoins(P, fields, a, b, c, MAX_DEPTH - 1);
    forall i | 0 <= i < |whole| ensures Ascii(whole[i].key) && Canonical(P.nfc, whole[i].value, MAX_DEPTH - 1).Some? {
      FitsAt(P, whole[i], MAX_DEPTH - 1);
    }
  }

  lemma FitsAt(P: Primitives, m: Member, room: int)
    ensures Fits(P, m, room) <==> Ascii(m.key) && Canonical(P.nfc, m.value, room).Some?
  {
  }

  /** The three entries the signer adds last. */
  lemma AddedMembers(P: Primitives, header: seq<Member>, payload: Value, key: Bytes, payloadBytes: Bytes, digest: Bytes)
    returns (a: Member, b: Member, c: Member)
    requires Sound(P) && payload.Dict? && Canonical(P.nfc, payload, MAX_DEPTH - 1).Some?
    ensures Whole(P, header, payload, key, payloadBytes, digest) == SignedFields(P, header, payloadBytes) + [a, b, c]
    ensures a.key == ENVELOPE_DIGEST && b.key == PAYLOAD && c.key == SIGNATURE
    ensures Fits(P, a, MAX_DEPTH - 1) && Fits(P, b, MAX_DEPTH - 1) && Fits(P, c, MAX_DEPTH - 1)
  {
    hide Canonical, Hex, Ascii, SignedFields, SignatureObject, ValidSignature;
    a, b := Member(ENVELOPE_DIGEST, Str(Hex(digest))), Member(PAYLOAD, payload);
    c := Member(SIGNATURE, SignatureObject(P, key, digest));
    NamesAreAscii(ENVELOPE_DIGEST);
    NamesAreAscii(PAYLOAD);
    NamesAreAscii(SIGNATURE);
    LowerHexIsAscii(Hex(digest));
    PlainIsCanonical(P, Str(Hex(digest)), MAX_DEPTH - 1);
    SignatureIsValid(P, key, digest);
  }

  lemma WholeJoins(P: Primitives, fields: seq<Member>, a: Member, b: Member, c: Member, room: int)
    requires DistinctKeys(fields) && forall i | 0 <= i < |fields| :: fields[i].key in HEADER && Fits(P, fields[i], room)
    requires a.key == ENVELOPE_DIGEST && b.key == PAYLOAD && c.key == SIGNATURE
    requires Fits(P, a, room) && Fits(P, b, room) && Fits(P, c, room)
    ensures DistinctKeys(fields + [a, b, c])
    ensures forall i | 0 <= i < |fields + [a, b, c]| :: Fits(P, (fields + [a, b, c])[i], room)
  {
    hide Fits, HEADER;
    AddedNamesAreNew();
  }

  lemma SignablePayload(P: Primitives, header: seq<Member>, payload: Value, key: Bytes)
    requires Signable(P, header, payload, key)
    ensures Keys(header) == INPUT_HEADER
    ensures payload.Dict? && Canonical(P.nfc, payload, MAX_DEPTH - 1).Some?
  {
  }

  lemma InputNames()
    ensures forall f | f in {PROTO, KIND, SENDER, EPOCH, ROOT, MSG_ID, SEQUENCE, ISSUED, EXPIRES} ::
              f in INPUT_HEADER && f != CORRELATION
    ensures CORRELATION in INPUT_HEADER
  {
    assert CORRELATION[0] == 0x63 && PAYLOAD_DIGEST[0] == 0x70 && PROTO[1] == 0x72 && PAYLOAD_DIGEST[1] == 0x61;
    assert PROTO[0] == 0x70 && KIND[0] == 0x6B && SENDER[0] == 0x73 && EPOCH[0] == 0x6D && ROOT[0] == 0x6D
           && MSG_ID[0] == 0x6D && SEQUENCE[0] == 0x6D && ISSUED[0] == 0x69 && EXPIRES[0] == 0x65;
  }

  /** A valid header stays valid through canonicalisation, its payload digest added. */
  lemma ValidAfter(P: Primitives, header: seq<Member>, ms: seq<Member>)
    requires ValidFields(header, true)
    requires var id := Field(header, CORRELATION).value.t; P.nfc(id) != []
    requires forall f | f in INPUT_HEADER :: Field(ms, f) == Kept(P, header, f)
    requires DigestText(Field(ms, PAYLOAD_DIGEST))
    ensures ValidFields(ms, false)
  {
    hide Field, Literal, KINDS, PeerText, DigestText, INPUT_HEADER, Decimal;
    InputNames();
    assert forall f | f in {PROTO, KIND, SENDER, EPOCH, ROOT, MSG_ID, SEQUENCE, ISSUED, EXPIRES} ::
        Field(ms, f) == Field(header, f);
    assert Field(ms, CORRELATION) == Kept(P, header, CORRELATION);
  }

  /** What the signer builds is, once canonical, a valid envelope. */
  lemma WholeIsValid(P: Primitives, header: seq<Member>, payload: Value, key: Bytes, payloadBytes: Bytes, digest: Bytes)
    requires Sound(P) && DistinctKeys(header) && Signable(P, header, payload, key) && |digest| == 32
    ensures var n := Canonical(P.nfc, Dict(Whole(P, header, payload, key, payloadBytes, digest)), MAX_DEPTH);
            n.Some? && ValidEnvelope(n.value)
  {
    hide Canonical, Keys, HEADER, INPUT_HEADER, SignatureObject, Hex, Literal, Ascii, Field, ValidSignature,
         ValidFields, ENVELOPE, PeerId;
    var whole := Whole(P, header, payload, key, payloadBytes, digest);
    WholeIsCanonical(P, header, payload, key, payloadBytes, digest);
    WholeNames(P, header, payload, key, payloadBytes, digest);
    AsciiDict(P, whole, MAX_DEPTH - 1);
    var n := Canonical(P.nfc, Dict(whole), MAX_DEPTH).value.members;
    EnvelopeParts(P, header, payload, key, payloadBytes, digest);
    DigestIsHeader();
    NamesAreAscii(PAYLOAD_DIGEST);
    NamesAreAscii(ENVELOPE_DIGEST);
    NamesAreAscii(PAYLOAD);
    NamesAreAscii(SIGNATURE);
    LowerHexIsAscii(Hex(P.sha256(payloadBytes)));
    LowerHexIsAscii(Hex(digest));
    AsciiField(P, whole, MAX_DEPTH - 1, PAYLOAD_DIGEST, Hex(P.sha256(payloadBytes)));
    AsciiField(P, whole, MAX_DEPTH - 1, ENVELOPE_DIGEST, Hex(digest));
    FieldOfCanonical(P.nfc, whole, MAX_DEPTH - 1, PAYLOAD, payload);
    FieldOfCanonical(P.nfc, whole, MAX_DEPTH - 1, SIGNATURE, SignatureObject(P, key, digest));
    DictStays(P.nfc, payload, MAX_DEPTH - 1);
    SignatureIsValid(P, key, digest);
    HexIsDigest(P.sha256(payloadBytes));
    HexIsDigest(digest);
    forall f | f in INPUT_HEADER ensures Field(n, f) == Kept(P, header, f) {
      HeaderIsCanonical(P, header, payload, key, f, MAX_DEPTH - 1);
      FieldIsMember(header, f);
      assert P.nfc(f) == f;
      FieldOfCanonical(P.nfc, whole, MAX_DEPTH - 1, f, Field(header, f).value);
    }
    ValidAfter(P, header, n);
  }

  lemma DictStays(nfc: Text -> Text, v: Value, room: int)
    requires v.Dict? && Canonical(nfc, v, room).Some?
    ensures Canonical(nfc, v, room).value.Dict?
  {
  }

  // ---------------------------------------------------------------- signing succeeds exactly when it should

  lemma SignsIfSignable(P: Primitives, header: seq<Member>, payload: Value, key: Bytes)
    requires Sound(P) && DistinctKeys(header) && Signable(P, header, payload, key)
    ensures SignedWire(P, header, payload, key).Some?
    ensures Sign(P, Dict(header), payload, key).Some? <==> |SignedWire(P, header, payload, key).value| <= MAX_WIRE_BYTES
  {
    hide Canonical, Keys, HEADER, INPUT_HEADER, Field, ValidFields, ValidEnvelope, Signable, PeerId, EnvelopeObject,
         SignedFields, Read, Print, Encode;
    assert SignGuard(P, header, payload, key) by { SignableGuard(P, header, payload, key); }
    SignablePayload(P, header, payload, key);
    MoreRoom(P.nfc, payload, MAX_DEPTH - 1, MAX_DEPTH);
    var payloadBytes := CanonicalBytes(P.nfc, payload, MAX_DEPTH).value;
    FieldsAreCanonical(P, header, payload, key, payloadBytes, MAX_DEPTH - 1);
    AsciiDict(P, SignedFields(P, header, payloadBytes), MAX_DEPTH - 1);
    var headerBytes := CanonicalBytes(P.nfc, Dict(SignedFields(P, header, payloadBytes)), MAX_DEPTH).value;
    var digest := P.sha256(headerBytes);
    assert |digest| == 32;
    WholeIsValid(P, header, payload, key, payloadBytes, digest);
    WholeIsDict(P, header, payload, key, payloadBytes, digest);
    ReadOfCanonical(P.nfc, Dict(Whole(P, header, payload, key, payloadBytes, digest)), MAX_DEPTH);
    NothingReads();
  }

  predicate SignGuard(P: Primitives, header: seq<Member>, payload: Value, key: Bytes) {
    && Keys(header) == INPUT_HEADER && ValidFields(header, true)
    && Field(header, SENDER) == Some(Str(PeerId(P, P.publicKey(key)))) && payload.Dict?
  }

  lemma SignableGuard(P: Primitives, header: seq<Member>, payload: Value, key: Bytes)
    requires Signable(P, header, payload, key)
    ensures SignGuard(P, header, payload, key)
  {
  }

  lemma WholeIsDict(P: Primitives, header: seq<Member>, payload: Value, key: Bytes, payloadBytes: Bytes, digest: Bytes)
    ensures EnvelopeObject(P, SignedFields(P, header, payloadBytes), payload, key, digest)
            == Dict(Whole(P, header, payload, key, payloadBytes, digest))
  {
  }

  lemma NothingReads()
    ensures Read([]).None?
  {
  }

  lemma SignableIfSigns(P: Primitives, header: seq<Member>, payload: Value, key: Bytes)
    requires Sound(P) && Sign(P, Dict(header), payload, key).Some?
    ensures Signable(P, header, payload, key)
  {
    hide Canonical, Keys, HEADER, INPUT_HEADER, Field, PeerText, DigestText, PeerId, EnvelopeObject, SignedFields,
         Read, SignedWire, ValidSignature;
    var payloadBytes, headerBytes, envelope := SignFacts(P, Dict(header), payload, key);
    SignedText(P, header, payload, key, payloadBytes, headerBytes, envelope);
    var digest := P.sha256(headerBytes);
    var whole := Whole(P, header, payload, key, payloadBytes, digest);
    WholeIsDict(P, header, payload, key, payloadBytes, digest);
    EnvelopeParts(P, header, payload, key, payloadBytes, digest);
    var id := Field(header, CORRELATION).value.t;
    FieldIsMember(header, CORRELATION);
    InputNames();
    InputIsHeader(CORRELATION);
    NamesAreAscii(CORRELATION);
    assert P.nfc(CORRELATION) == CORRELATION;
    FieldOfCanonical(P.nfc, whole, MAX_DEPTH - 1, CORRELATION, Str(id));
    TextStays(P.nfc, id, MAX_DEPTH - 1);
  }

  lemma TextStays(nfc: Text -> Text, t: Text, room: nat)
    ensures Canonical(nfc, Str(t), room) == if Scalar(nfc(t)) then Some(Str(nfc(t))) else None
  {
  }

  /** Signing succeeds exactly for a signable header and payload whose wire fits the size limit:
      the signer's own decoding of what it built never refuses anything else. */
  lemma SignsExactly(P: Primitives, header: seq<Member>, payload: Value, key: Bytes)
    requires Sound(P) && DistinctKeys(header)
    ensures Signable(P, header, payload, key) ==> SignedWire(P, header, payload, key).Some?
    ensures Sign(P, Dict(header), payload, key).Some? <==>
            Signable(P, header, payload, key) && |SignedWire(P, header, payload, key).value| <= MAX_WIRE_BYTES
  {
    hide Signable, Sign, SignedWire;
    if Signable(P, header, payload, key) {
      SignsIfSignable(P, header, payload, key);
    } else if Sign(P, Dict(header), payload, key).Some? {
      SignableIfSigns(P, header, payload, key);
    }
  }
}
