/** What an accepted envelope is: its fields one by one, and what its signature and digests bind. */
module PeerEnvelopeMeaning {
  import opened Wrappers
  import opened Utf8
  import opened Json
  import opened CanonicalJson
  import opened TextCodecs
  import opened PeerEnvelope
  import opened PeerEnvelopeTheorems

  // ---------------------------------------------------------------- the form

  function TextOf(ms: seq<Member>, name: string): Option<Text> {
    if HasKey(ms, Literal(name)) && Lookup(ms, Literal(name)).Str? then Some(Lookup(ms, Literal(name)).t) else None
  }

  function NumberOf(ms: seq<Member>, name: string): Option<int> {
    if HasKey(ms, Literal(name)) && Lookup(ms, Literal(name)).Int? then Some(Lookup(ms, Literal(name)).n) else None
  }

  function MappingOf(ms: seq<Member>, name: string): Option<seq<Member>> {
    if HasKey(ms, Literal(name)) && Lookup(ms, Literal(name)).Dict? then Some(Lookup(ms, Literal(name)).members) else None
  }

  /** That many characters of 0-9 and a-f. */
  predicate HexText(t: Option<Text>, size: nat) {
    t.Some? && |t.value| == size
    && forall i | 0 <= i < size :: '0' as int <= t.value[i] <= '9' as int || 'a' as int <= t.value[i] <= 'f' as int
  }

  predicate InRange(n: Option<int>, low: int, high: int) {
    n.Some? && low <= n.value <= high
  }

  const U64 := 18446744073709551615
  const I64 := 9223372036854775807

  const FIELD_NAMES: set<Text> :=
    {Literal("proto"), Literal("kind"), Literal("sender_peer_id"), Literal("membership_epoch"), Literal("membership_root"),
     Literal("msg_id"), Literal("monotonic_seq"), Literal("issued_at_ms"), Literal("expires_at_ms"),
     Literal("correlation_id"), Literal("payload_digest")}

  const KIND_NAMES: set<Text> :=
    {Literal("proposal"), Literal("ballot"), Literal("membership"), Literal("decision-certificate"),
     Literal("grant"), Literal("heartbeat"), Literal("recovery-request"), Literal("recovery-response")}

  /** The header of a known-peer envelope. */
  predicate HeaderFits(ms: seq<Member>) {
    && TextOf(ms, "proto") == Some(Literal("agency-known-peer/1"))
    && TextOf(ms, "kind").Some? && TextOf(ms, "kind").value in KIND_NAMES
    && (var sender := TextOf(ms, "sender_peer_id");
        && sender.Some? && |sender.value| == 37 && sender.value[..5] == Literal("peer_") && HexText(Some(sender.value[5..]), 32)
        && InRange(NumberOf(ms, "monotonic_seq"), 0, U64)
        && TextOf(ms, "msg_id") == Some(sender.value + Literal(":") + Decimal(NumberOf(ms, "monotonic_seq").value)))
    && InRange(NumberOf(ms, "membership_epoch"), 0, U64)
    && HexText(TextOf(ms, "membership_root"), 64)
    && InRange(NumberOf(ms, "issued_at_ms"), -I64 - 1, I64) && InRange(NumberOf(ms, "expires_at_ms"), -I64 - 1, I64)
    && NumberOf(ms, "issued_at_ms").value < NumberOf(ms, "expires_at_ms").value
    && TextOf(ms, "correlation_id").Some? && |TextOf(ms, "correlation_id").value| > 0
    && HexText(TextOf(ms, "payload_digest"), 64)
  }

  /** Its signature object: one algorithm, a key's fingerprint, sixty-four bytes in base64. */
  ghost predicate SignatureFits(ms: seq<Member>) {
    && Keys(ms) == {Literal("alg"), Literal("key_id"), Literal("sig")}
    && TextOf(ms, "alg") == Some(Literal("Ed25519"))
    && HexText(TextOf(ms, "key_id"), 64)
    && SpellsSignature(TextOf(ms, "sig"))
  }

  ghost predicate SpellsSignature(t: Option<Text>) {
    exists raw: Bytes {:trigger Base64(raw)} :: |raw| == 64 && t == Some(Base64(raw))
  }

  ghost predicate Fits(ms: seq<Member>) {
    && Keys(ms) == FIELD_NAMES + {Literal("envelope_digest"), Literal("payload"), Literal("signature")}
    && HeaderFits(ms)
    && HexText(TextOf(ms, "envelope_digest"), 64)
    && MappingOf(ms, "payload").Some?
    && MappingOf(ms, "signature").Some? && SignatureFits(MappingOf(ms, "signature").value)
  }

  lemma FieldIs(ms: seq<Member>, name: string)
    ensures (var v := Field(ms, Literal(name));
             && TextOf(ms, name) == (if v.Some? && v.value.Str? then Some(v.value.t) else None)
             && NumberOf(ms, name) == (if v.Some? && v.value.Int? then Some(v.value.n) else None)
             && MappingOf(ms, name) == (if v.Some? && v.value.Dict? then Some(v.value.members) else None))
  {
  }

  lemma DigestIs(ms: seq<Member>, name: string)
    ensures DigestText(Field(ms, Literal(name))) <==> HexText(TextOf(ms, name), 64)
  {
    FieldIs(ms, name);
  }

  lemma PeerIs(ms: seq<Member>)
    ensures PeerText(Field(ms, SENDER)) <==>
            var sender := TextOf(ms, "sender_peer_id");
            sender.Some? && |sender.value| == 37 && sender.value[..5] == Literal("peer_") && HexText(Some(sender.value[5..]), 32)
  {
    FieldIs(ms, "sender_peer_id");
  }

  lemma KindsAre()
    ensures KINDS == KIND_NAMES && HEADER == FIELD_NAMES
    ensures ENVELOPE == FIELD_NAMES + {Literal("envelope_digest"), Literal("payload"), Literal("signature")}
    ensures SIGNATURE_FIELDS == {Literal("alg"), Literal("key_id"), Literal("sig")}
    ensures PROTOCOL == Literal("agency-known-peer/1") && ED25519 == Literal("Ed25519")
    ensures Literal(":") == [COLON]
    ensures PREFIX == Encode(Literal("agency-known-peer/1|sig-v1|"))
  {
    hide Encode;
  }

  lemma NumberIs(ms: seq<Member>, name: string, low: int, high: int)
    ensures IntegerIn(Field(ms, Literal(name)), low, high) <==> InRange(NumberOf(ms, name), low, high)
  {
  }

  lemma HeaderMeans(ms: seq<Member>)
    ensures ValidFields(ms, false) <==> HeaderFits(ms)
  {
    hide Literal, HasKey, Lookup, DigestText, LowerHexText, HexText, KIND_NAMES, KINDS, Decimal;
    KindsAre();
    FieldIs(ms, "proto");
    FieldIs(ms, "kind");
    FieldIs(ms, "sender_peer_id");
    FieldIs(ms, "msg_id");
    FieldIs(ms, "monotonic_seq");
    FieldIs(ms, "issued_at_ms");
    FieldIs(ms, "expires_at_ms");
    FieldIs(ms, "correlation_id");
    PeerIs(ms);
    DigestIs(ms, "membership_root");
    DigestIs(ms, "payload_digest");
    NumberIs(ms, "monotonic_seq", 0, U64);
    NumberIs(ms, "membership_epoch", 0, U64);
    NumberIs(ms, "issued_at_ms", -I64 - 1, I64);
    NumberIs(ms, "expires_at_ms", -I64 - 1, I64);
    if PeerText(Field(ms, SENDER)) && IntegerIn(Field(ms, SEQUENCE), 0, MAX_U64) {
      var sender, number := Field(ms, SENDER).value.t, Field(ms, SEQUENCE).value.n;
      assert TextOf(ms, "sender_peer_id") == Some(sender);
      assert NumberOf(ms, "monotonic_seq") == Some(number);
      assert Field(ms, MSG_ID) == Some(Str(sender + [COLON] + Decimal(number))) <==>
             TextOf(ms, "msg_id") == Some(sender + Literal(":") + Decimal(number));
    }
  }

  lemma SignatureMeans(v: Option<Value>)
    ensures ValidSignature(v) <==> v.Some? && v.value.Dict? && SignatureFits(v.value.members)
  {
    hide Literal, HasKey, Lookup, DigestText, HexText, Base64, SignatureBytes, SpellsSignature;
    if v.Some? && v.value.Dict? {
      var ms := v.value.members;
      KindsAre();
      FieldIs(ms, "alg");
      FieldIs(ms, "sig");
      DigestIs(ms, "key_id");
      SpellingMeans(TextOf(ms, "sig"));
    }
  }

  /** A text is accepted as a signature exactly when it spells sixty-four bytes. */
  lemma SpellingMeans(t: Option<Text>)
    ensures t.Some? && SignatureBytes(t.value).Some? <==> SpellsSignature(t)
  {
    hide Base64, SignatureBytes;
    if t.Some? && SignatureBytes(t.value).Some? {
      SignatureSpelling(t.value, SignatureBytes(t.value).value);
    }
    if raw: Bytes {:trigger Base64(raw)} :| |raw| == 64 && t == Some(Base64(raw)) {
      SignatureSpelling(t.value, raw);
    }
  }

  /** An envelope has the right form exactly when it is a mapping of the fourteen fields, each of its
      own type and range. */
  lemma EnvelopeMeans(v: Value)
    ensures ValidEnvelope(v) <==> v.Dict? && Fits(v.members)
  {
    hide Literal, HasKey, Lookup, DigestText, HexText, Keys, ValidFields, HeaderFits, ValidSignature, SignatureFits, ENVELOPE, FIELD_NAMES;
    if v.Dict? {
      KindsAre();
      HeaderMeans(v.members);
      DigestIs(v.members, "envelope_digest");
      FieldIs(v.members, "payload");
      FieldIs(v.members, "signature");
      SignatureMeans(Field(v.members, SIGNATURE));
    }
  }

  // ---------------------------------------------------------------- what acceptance means

  /** The key's name, the digests of what they are digests of, and a signature that the key
      verifies over the prefix and the header's digest. */
  ghost predicate Authentic(P: Primitives, ms: seq<Member>, publicKey: Bytes, header: Bytes, payload: Bytes, raw: Bytes) {
    && MappingOf(ms, "signature").Some?
    && var signature := MappingOf(ms, "signature").value;
    && |P.sha256(publicKey)| == 32
    && TextOf(ms, "sender_peer_id") == Some(Literal("peer_") + Hex(P.sha256(publicKey))[..32])
    && TextOf(signature, "key_id") == Some(Hex(publicKey))
    && TextOf(signature, "sig") == Some(Base64(raw)) && |raw| == 64
    && TextOf(ms, "payload_digest") == Some(Hex(P.sha256(payload)))
    && TextOf(ms, "envelope_digest") == Some(Hex(P.sha256(header)))
    && P.verify(publicKey, Encode(Literal("agency-known-peer/1|sig-v1|")) + P.sha256(header), raw)
  }

  /** The bytes that the two digests are taken of. */
  ghost predicate Digested(P: Primitives, ms: seq<Member>, order: seq<Text>, header: Bytes, payload: Bytes) {
    && HasKey(ms, Literal("payload"))
    && CanonicalBytes(P.nfc, Lookup(ms, Literal("payload")), 32) == Some(payload)
    && (forall i | 0 <= i < |order| :: HasKey(ms, order[i]))
    && CanonicalBytes(P.nfc, Dict(Projection(ms, order)), 32) == Some(header)
  }

  lemma BindsMeans(P: Primitives, ms: seq<Member>, publicKey: Bytes, order: seq<Text>, header: Bytes, payload: Bytes, raw: Bytes)
    requires Sound(P) && ValidEnvelope(Dict(ms)) && Digested(P, ms, order, header, payload)
    requires SignatureBytes(Field(Field(ms, SIGNATURE).value.members, SIG).value.t) == Some(raw)
    ensures Binds(P, ms, publicKey, order) <==> Authentic(P, ms, publicKey, header, payload, raw)
  {
    hide Literal, HasKey, Lookup, HexText, Keys, Encode, Base64, Hex, FromHex, SignatureBytes, CanonicalBytes, Projection,
         ValidFields, ENVELOPE, SIGNATURE_FIELDS, ED25519;
    var signature := Field(ms, SIGNATURE).value.members;
    KindsAre();
    FieldIs(ms, "signature");
    FieldIs(ms, "sender_peer_id");
    FieldIs(ms, "payload_digest");
    FieldIs(ms, "envelope_digest");
    FieldIs(signature, "key_id");
    FieldIs(signature, "sig");
    SignatureSpelling(Field(signature, SIG).value.t, raw);
    KeyName(P, publicKey);
    FromHexOfHex(P.sha256(header));
  }

  lemma KeyName(P: Primitives, publicKey: Bytes)
    requires Sound(P)
    ensures PeerId(P, publicKey) == Literal("peer_") + Hex(P.sha256(publicKey))[..32] && |P.sha256(publicKey)| == 32
  {
  }

  /** Verification returns an envelope exactly when the wire, of at most 65536 bytes, is the canonical
      spelling of it, the envelope has the right form, all four validators accept it and leave it
      unchanged, and it is authentic: the sender and the key id are the public key's, the payload
      digest is the payload's, the envelope digest is the header's, and the public key verifies
      the signature over the prefix and that digest. */
  lemma VerifyMeans(P: Primitives, wire: Bytes, publicKey: Bytes, checks: Validators, order: seq<Text>, v: Value)
    requires Sound(P) && HeaderOrder(order)
    ensures Verify(P, wire, publicKey, checks, order) == Some(v) <==>
            && 1 <= |wire| <= 65536
            && Read(wire) == Some(v) && CanonicalBytes(P.nfc, v, 32) == Some(wire)
            && v.Dict? && Fits(v.members)
            && AllPass(checks, v)
            && exists header, payload, raw ::
                 Digested(P, v.members, order, header, payload) && Authentic(P, v.members, publicKey, header, payload, raw)
  {
    hide Fits, Authentic, Digested, Binds, Passes, Read, CanonicalBytes, HeaderOrder, ValidEnvelope, Sound;
    EnvelopeMeans(v);
    if v.Dict? && ValidEnvelope(v) {
      EnvelopeHasHeader(v.members, order);
      BindsIsAuthentic(P, v.members, publicKey, order);
    }
    VerifyUnfolds(P, wire, publicKey, checks, order, v);
  }

  lemma VerifyUnfolds(P: Primitives, wire: Bytes, publicKey: Bytes, checks: Validators, order: seq<Text>, v: Value)
    requires HeaderOrder(order)
    ensures Verify(P, wire, publicKey, checks, order) == Some(v) <==>
            && 1 <= |wire| <= 65536
            && Read(wire) == Some(v) && CanonicalBytes(P.nfc, v, 32) == Some(wire)
            && v.Dict? && ValidEnvelope(v) && AllPass(checks, v)
            && (forall i | 0 <= i < |order| :: HasKey(v.members, order[i]))
            && Binds(P, v.members, publicKey, order)
  {
    hide Binds, Passes, Read, CanonicalBytes, HeaderOrder, ValidFields, ValidSignature, HasKey, Keys;
    if Read(wire).Some? && ValidEnvelope(Read(wire).value) {
      EnvelopeHasHeader(Read(wire).value.members, order);
    }
  }

  lemma BindsIsAuthentic(P: Primitives, ms: seq<Member>, publicKey: Bytes, order: seq<Text>)
    requires Sound(P) && ValidEnvelope(Dict(ms)) && HeaderOrder(order)
    requires forall i | 0 <= i < |order| :: HasKey(ms, order[i])
    ensures Binds(P, ms, publicKey, order) <==>
            exists header, payload, raw :: Digested(P, ms, order, header, payload) && Authentic(P, ms, publicKey, header, payload, raw)
  {
    hide Authentic, Binds, Sound, CanonicalBytes, Projection, HeaderOrder, ValidFields, SignatureBytes, HasKey, Lookup, Keys;
    var raw := SignatureBytes(Field(Field(ms, SIGNATURE).value.members, SIG).value.t).value;
    if Binds(P, ms, publicKey, order) {
      var header, payload := DigestedBytes(P, ms, publicKey, order);
      BindsMeans(P, ms, publicKey, order, header, payload, raw);
    }
    if header, payload, r :| Digested(P, ms, order, header, payload) && Authentic(P, ms, publicKey, header, payload, r) {
      SameSpelling(P, ms, publicKey, header, payload, r, raw);
      BindsMeans(P, ms, publicKey, order, header, payload, raw);
    }
  }

  lemma DigestedBytes(P: Primitives, ms: seq<Member>, publicKey: Bytes, order: seq<Text>) returns (header: Bytes, payload: Bytes)
    requires ValidEnvelope(Dict(ms)) && (forall i | 0 <= i < |order| :: HasKey(ms, order[i])) && Binds(P, ms, publicKey, order)
    ensures Digested(P, ms, order, header, payload)
  {
    hide CanonicalBytes, Projection, ValidFields, SignatureBytes, Keys, FromHex, Hex;
    header := CanonicalBytes(P.nfc, Dict(Projection(ms, order)), MAX_DEPTH).value;
    payload := CanonicalBytes(P.nfc, Field(ms, PAYLOAD).value, MAX_DEPTH).value;
  }

  lemma SameSpelling(P: Primitives, ms: seq<Member>, publicKey: Bytes, header: Bytes, payload: Bytes, r: Bytes, raw: Bytes)
    requires ValidEnvelope(Dict(ms)) && Authentic(P, ms, publicKey, header, payload, r)
    requires SignatureBytes(Field(Field(ms, SIGNATURE).value.members, SIG).value.t) == Some(raw)
    ensures r == raw
  {
    hide Base64, SignatureBytes, HasKey, Lookup, Literal, ValidFields, Keys, Hex, Encode;
    var signature := Field(ms, SIGNATURE).value.members;
    FieldIs(ms, "signature");
    FieldIs(signature, "sig");
    SignatureSpelling(Field(signature, SIG).value.t, raw);
    SignatureSpelling(Field(signature, SIG).value.t, r);
  }

  // ---------------------------------------------------------------- what is signed

  /** What a signer returns carries the caller's header and payload, in normal form, under the
      signer's own name, and the key's signature over the prefix and the header's digest. */
  lemma SignedCarries(P: Primitives, header: Value, payload: Value, key: Bytes)
    returns (v: Value, headerBytes: Bytes, payloadBytes: Bytes)
    requires Sound(P) && Sign(P, header, payload, key).Some?
    ensures header.Dict? && v.Dict? && Read(Sign(P, header, payload, key).value) == Some(v) && Fits(v.members)
    ensures Authentic(P, v.members, P.publicKey(key), headerBytes, payloadBytes, P.sign(key, PREFIX + P.sha256(headerBytes)))
    ensures CanonicalBytes(P.nfc, payload, 32) == Some(payloadBytes)
    ensures CanonicalBytes(P.nfc, Dict(header.members + [Member(Literal("payload_digest"), Str(Hex(P.sha256(payloadBytes))))]), 32)
            == Some(headerBytes)
    ensures HasKey(v.members, Literal("payload"))
    ensures Canonical(P.nfc, payload, 31) == Some(Lookup(v.members, Literal("payload")))
  {
    hide Sign, Signed, Sound, Authentic, Fits, Canonical, Literal, HasKey, Lookup, ValidEnvelope, SignedFields, CanonicalBytes, Read,
         SignatureObject, EnvelopeObject, PeerId, DecodeEnvelope;
    payloadBytes, headerBytes, v := SignFacts(P, header, payload, key);
    SignedParts(P, header.members, payload, key, payloadBytes, headerBytes, v);
  }

  lemma SignedParts(P: Primitives, header: seq<Member>, payload: Value, key: Bytes,
                    payloadBytes: Bytes, headerBytes: Bytes, v: Value)
    requires Sound(P) && Signed(P, header, payload, key, payloadBytes, headerBytes, v)
    ensures v.Dict? && Fits(v.members)
    ensures Authentic(P, v.members, P.publicKey(key), headerBytes, payloadBytes, P.sign(key, PREFIX + P.sha256(headerBytes)))
    ensures CanonicalBytes(P.nfc, payload, 32) == Some(payloadBytes)
    ensures CanonicalBytes(P.nfc, Dict(header + [Member(Literal("payload_digest"), Str(Hex(P.sha256(payloadBytes))))]), 32)
            == Some(headerBytes)
    ensures HasKey(v.members, Literal("payload"))
    ensures Canonical(P.nfc, payload, 31) == Some(Lookup(v.members, Literal("payload")))
  {
    hide Canonical, Literal, HasKey, Lookup, ValidEnvelope, SignatureObject, EnvelopeObject, PeerId, Encode, Hex, Base64, Fits, CanonicalBytes;
    var digest := P.sha256(headerBytes);
    EnvelopeMeans(v);
    KindsAre();
    KeyName(P, P.publicKey(key));
    SignedText(P, header, payload, key, payloadBytes, headerBytes, v);
    SignatureText(P, key, digest);
    FieldIs(v.members, "signature");
    FieldIs(v.members, "sender_peer_id");
    FieldIs(v.members, "payload_digest");
    FieldIs(v.members, "envelope_digest");
    var signature := Field(v.members, SIGNATURE).value.members;
    FieldIs(signature, "key_id");
    FieldIs(signature, "sig");
  }

  // ---------------------------------------------------------------- what the codecs write

  /** Section 3 of RFC 3629: one to four bytes, by the size of the code point. */
  lemma EncodeCodeMeans(c: Code)
    ensures EncodeCode(c) ==
            if c < 0x80 then [c]
            else if c < 0x800 then [0xC0 + c / 64, 0x80 + c % 64]
            else if c < 0x1_0000 then [0xE0 + c / 4096, 0x80 + c / 64 % 64, 0x80 + c % 64]
            else [0xF0 + c / 262144, 0x80 + c / 4096 % 64, 0x80 + c / 64 % 64, 0x80 + c % 64]
  {
    assert c / 64 / 64 == c / 4096 && c / 64 / 64 / 64 == c / 262144;
  }

  /** Overlong, surrogate and oversized forms are not read. */
  lemma BadFormsAreRefused(x: Byte, y: Byte, z: Byte, rest: Bytes)
    ensures Decode([0xC0, x] + rest) == None && Decode([0xC1, x] + rest) == None
    ensures x < 0xA0 ==> Decode([0xE0, x, y] + rest) == None
    ensures x >= 0xA0 ==> Decode([0xED, x, y] + rest) == None
    ensures x < 0x90 ==> Decode([0xF0, x, y, z] + rest) == None
    ensures x >= 0x90 ==> Decode([0xF4, x, y, z] + rest) == None
  {
    var a, b, c, d := [0xE0, x, y] + rest, [0xED, x, y] + rest, [0xF0, x, y, z] + rest, [0xF4, x, y, z] + rest;
    assert ([0xC0, x] + rest)[0] == 0xC0 && ([0xC1, x] + rest)[0] == 0xC1;
    assert a[0] == 0xE0 && a[1] == x && a[2] == y;
    assert b[0] == 0xED && b[1] == x && b[2] == y;
    assert c[0] == 0xF0 && c[1] == x && c[2] == y && c[3] == z;
    assert d[0] == 0xF4 && d[1] == x && d[2] == y && d[3] == z;
  }

  lemma Base64Joins(group: Bytes, rest: Bytes)
    requires |group| == 3
    ensures Base64(group + rest) == Base64(group) + Base64(rest)
  {
    assert (group + rest)[3..] == rest;
    assert group[3..] == [];
  }

  lemma ShortVectors()
    ensures Base64([0x66]) == Literal("Zg==") && Base64([0x66, 0x6F]) == Literal("Zm8=")
    ensures Base64([0x62]) == Literal("Yg==") && Base64([0x62, 0x61]) == Literal("YmE=")
  {
  }

  lemma LongVectors()
    ensures Base64([0x66, 0x6F, 0x6F]) == Literal("Zm9v")
    ensures Base64([0x62, 0x61, 0x72]) == Literal("YmFy")
    ensures Base64([0xFB, 0xEF, 0xFF]) == Literal("++//")
  {
  }

  /** The test vectors of section 10 of RFC 4648: the six prefixes of "foobar". */
  lemma Base64Vectors()
    ensures Base64([0x66]) == Literal("Zg==") && Base64([0x66, 0x6F]) == Literal("Zm8=")
    ensures Base64([0x66, 0x6F, 0x6F]) == Literal("Zm9v")
    ensures Base64([0x66, 0x6F, 0x6F, 0x62]) == Literal("Zm9v") + Literal("Yg==")
    ensures Base64([0x66, 0x6F, 0x6F, 0x62, 0x61]) == Literal("Zm9v") + Literal("YmE=")
    ensures Base64([0x66, 0x6F, 0x6F, 0x62, 0x61, 0x72]) == Literal("Zm9v") + Literal("YmFy")
    ensures Base64([0xFB, 0xEF, 0xFF]) == Literal("++//")
  {
    hide Base64, Literal;
    var foo: Bytes := [0x66, 0x6F, 0x6F];
    ShortVectors();
    LongVectors();
    Base64Joins(foo, [0x62]);
    Base64Joins(foo, [0x62, 0x61]);
    Base64Joins(foo, [0x62, 0x61, 0x72]);
    assert foo + [0x62] == [0x66, 0x6F, 0x6F, 0x62] && foo + [0x62, 0x61] == [0x66, 0x6F, 0x6F, 0x62, 0x61];
    assert foo + [0x62, 0x61, 0x72] == [0x66, 0x6F, 0x6F, 0x62, 0x61, 0x72];
  }

  lemma {:induction false} HexJoins(a: Bytes, b: Bytes)
    ensures Hex(a + b) == Hex(a) + Hex(b)
  {
    if a == [] {
      assert a + b == b;
    } else {
      assert (a + b)[1..] == a[1..] + b;
      HexJoins(a[1..], b);
    }
  }

  /** Two digits a byte, high half first, in order. */
  lemma HexMeans(a: Bytes, x: Byte, b: Bytes)
    ensures Hex(a + [x] + b) == Hex(a) + Hex([x]) + Hex(b)
    ensures |Hex([x])| == 2 && HexValue(Hex([x])[0]) * 16 + HexValue(Hex([x])[1]) == x as int
  {
    HexJoins(a + [x], b);
    HexJoins(a, [x]);
    assert [x][1..] == [];
  }

  function HexValue(c: Code): int {
    if '0' as int <= c <= '9' as int then c - '0' as int
    else if 'a' as int <= c <= 'f' as int then c - 'a' as int + 10
    else -1
  }

  lemma {:induction false} EscapeJoins(a: Text, b: Text)
    ensures Escape(a + b) == Escape(a) + Escape(b)
  {
    if a == [] {
      assert a + b == b;
    } else {
      assert (a + b)[1..] == a[1..] + b;
      EscapeJoins(a[1..], b);
    }
  }

  /** A text is printed between quotes, character by character: the quote, the backslash and the
      controls escaped, everything else as it is. */
  lemma EscapeMeans(a: Text, c: Code, b: Text)
    ensures Escape(a + [c] + b) == Escape(a) + EscapeCode(c) + Escape(b)
    ensures c >= 0x20 && c != '"' as int && c != 92 ==> EscapeCode(c) == [c]
    ensures EscapeCode('"' as int) == [92, '"' as int] && EscapeCode(92) == [92, 92]
    ensures EscapeCode(10) == [92, 'n' as int] && EscapeCode(13) == [92, 'r' as int] && EscapeCode(9) == [92, 't' as int]
    ensures EscapeCode(12) == [92, 'f' as int] && EscapeCode(8) == [92, 'b' as int]
    ensures EscapeCode(0x1F) == [92] + Literal("u001f") && EscapeCode(0) == [92] + Literal("u0000")
  {
    hide EscapeCode;
    EscapeJoins(a + [c], b);
    EscapeJoins(a, [c]);
    assert Escape([c]) == EscapeCode(c) + Escape([]);
    EscapesAre(c);
  }

  lemma EscapesAre(c: Code)
    ensures c >= 0x20 && c != '"' as int && c != 92 ==> EscapeCode(c) == [c]
    ensures EscapeCode('"' as int) == [92, '"' as int] && EscapeCode(92) == [92, 92]
    ensures EscapeCode(10) == [92, 'n' as int] && EscapeCode(13) == [92, 'r' as int] && EscapeCode(9) == [92, 't' as int]
    ensures EscapeCode(12) == [92, 'f' as int] && EscapeCode(8) == [92, 'b' as int]
    ensures EscapeCode(0x1F) == [92] + Literal("u001f") && EscapeCode(0) == [92] + Literal("u0000")
  {
  }

  lemma ScalarsPrint()
    ensures Print(Int(-10)) == Literal("-10") && Print(Null) == Literal("null")
    ensures Print(Bool(true)) == Literal("true") && Print(Bool(false)) == Literal("false")
  {
    assert Digits(10) == [0x31, 0x30];
  }

  /** A list is printed compactly: its items in order, with commas and nothing else between them. */
  lemma PrintsCompactly(a: Value, b: Value)
    requires Plain(a) && Plain(b)
    ensures Print(List([a, b])) == Literal("[") + Print(a) + Literal(",") + Print(b) + Literal("]")
    ensures Print(Int(-10)) == Literal("-10") && Print(Null) == Literal("null")
    ensures Print(Bool(true)) == Literal("true") && Print(Bool(false)) == Literal("false")
  {
    ScalarsPrint();
    PrintsTwo(a, b);
  }

  lemma PrintsTwo(a: Value, b: Value)
    requires Plain(a) && Plain(b)
    ensures Print(List([a, b])) == Literal("[") + Print(a) + Literal(",") + Print(b) + Literal("]")
  {
    hide Digits, Quoted, PrintMembers;
    assert [a, b][1..] == [b];
    assert PrintItems([b]) == Print(b);
    assert PrintItems([a, b]) == Print(a) + [COMMA] + Print(b);
  }

  /** Decoding returns an envelope exactly when the wire, of at most as many bytes as asked for and never
      more than 65536, is its canonical spelling within the depth, and its fields fit. */
  lemma DecodeMeans(P: Primitives, wire: Bytes, maxWire: int, maxDepth: int, v: Value)
    ensures DecodeEnvelope(P, wire, maxWire, maxDepth) == Some(v) <==>
            && 1 <= |wire| <= maxWire <= 65536
            && Read(wire) == Some(v) && CanonicalBytes(P.nfc, v, maxDepth) == Some(wire)
            && v.Dict? && Fits(v.members)
  {
    hide Fits, ValidEnvelope, Read, CanonicalBytes;
    EnvelopeMeans(v);
    if Read(wire).Some? {
      EnvelopeMeans(Read(wire).value);
    }
  }
}
