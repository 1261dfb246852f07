/** What signing and verification promise together. */
module PeerEnvelopeTheorems {
  import opened Wrappers
  import opened Utf8
  import opened Json
  import opened CanonicalJson
  import opened TextCodecs
  import opened PeerEnvelope

  // ---------------------------------------------------------------- fields of a canonical mapping

  /** Canonicalisation keeps every field under its name and canonicalises its value. */
  lemma FieldOfCanonical(nfc: Text -> Text, ms: seq<Member>, room: int, key: Text, v: Value)
    requires Canonical(nfc, Dict(ms), room + 1).Some? && Member(key, v) in ms && nfc(key) == key
    ensures var n := Canonical(nfc, Dict(ms), room + 1).value;
            n.Dict? && Canonical(nfc, v, room).Some? && Field(n.members, key) == Canonical(nfc, v, room)
  {
    hide CanonicalMembers, Sort, Lookup;
    var ns := CanonicalMembers(nfc, ms, room).value;
    MembersAt(nfc, ms, room);
    var i :| 0 <= i < |ms| && ms[i] == Member(key, v);
    assert CanonicalMember(nfc, ms[i], room) == Some(ns[i]);
    SortKeeps(ns);
    assert ns[i] in Sort(ns);
    var j :| 0 <= j < |Sort(ns)| && Sort(ns)[j] == ns[i];
    SortKeepsDistinct(ns);
    LookupAt(Sort(ns), j);
  }

  lemma CanonicalKeysDistinct(nfc: Text -> Text, ms: seq<Member>, room: int)
    requires Canonical(nfc, Dict(ms), room + 1).Some?
    ensures DistinctKeys(ms)
  {
    hide Canonical;
    assert CanonicalMembers(nfc, ms, room).Some? && DistinctKeys(CanonicalMembers(nfc, ms, room).value) by {
      CanonicalDict(nfc, ms, room);
    }
    var ns := CanonicalMembers(nfc, ms, room).value;
    MembersAt(nfc, ms, room);
    forall i, j | 0 <= i < j < |ms| ensures ms[i].key != ms[j].key {
      assert CanonicalMember(nfc, ms[i], room) == Some(ns[i]) && CanonicalMember(nfc, ms[j], room) == Some(ns[j]);
    }
  }

  lemma CanonicalDict(nfc: Text -> Text, ms: seq<Member>, room: int)
    requires Canonical(nfc, Dict(ms), room + 1).Some?
    ensures CanonicalMembers(nfc, ms, room).Some? && DistinctKeys(CanonicalMembers(nfc, ms, room).value)
    ensures Canonical(nfc, Dict(ms), room + 1) == Some(Dict(Sort(CanonicalMembers(nfc, ms, room).value)))
  {
  }

  predicate AsciiString(s: string) {
    forall i | 0 <= i < |s| :: s[i] < 128 as char
  }

  lemma LiteralIsAscii(s: string)
    requires AsciiString(s)
    ensures Ascii(Literal(s))
  {
  }

  lemma HeaderNames()
    ensures AsciiString("proto")
    ensures AsciiString("kind")
    ensures AsciiString("sender_peer_id")
    ensures AsciiString("membership_epoch")
    ensures AsciiString("membership_root")
    ensures AsciiString("msg_id")
    ensures AsciiString("monotonic_seq")
    ensures AsciiString("issued_at_ms")
    ensures AsciiString("expires_at_ms")
    ensures AsciiString("correlation_id")
    ensures AsciiString("payload_digest")
  {
  }

  lemma OtherNames()
    ensures AsciiString("envelope_digest")
    ensures AsciiString("payload")
    ensures AsciiString("signature")
    ensures AsciiString("alg")
    ensures AsciiString("key_id")
    ensures AsciiString("sig")
  {
  }

  /** Every field name is plain ASCII, so no normalisation moves it. */
  lemma NamesAreAscii(f: Text)
    requires f in HEADER || f == ENVELOPE_DIGEST || f == PAYLOAD || f == SIGNATURE || f in SIGNATURE_FIELDS
    ensures Ascii(f)
  {
    hide Literal, Ascii, AsciiString;
    HeaderNames();
    OtherNames();
    LiteralIsAscii("proto");
    LiteralIsAscii("kind");
    LiteralIsAscii("sender_peer_id");
    LiteralIsAscii("membership_epoch");
    LiteralIsAscii("membership_root");
    LiteralIsAscii("msg_id");
    LiteralIsAscii("monotonic_seq");
    LiteralIsAscii("issued_at_ms");
    LiteralIsAscii("expires_at_ms");
    LiteralIsAscii("correlation_id");
    LiteralIsAscii("payload_digest");
    LiteralIsAscii("envelope_digest");
    LiteralIsAscii("payload");
    LiteralIsAscii("signature");
    LiteralIsAscii("alg");
    LiteralIsAscii("key_id");
    LiteralIsAscii("sig");
  }

  /** A field holding ASCII text comes through canonicalisation as it is. */
  lemma AsciiField(P: Primitives, ms: seq<Member>, room: nat, key: Text, t: Text)
    requires Sound(P) && Canonical(P.nfc, Dict(ms), room + 1).Some? && Member(key, Str(t)) in ms
    requires Ascii(key) && Ascii(t)
    ensures var n := Canonical(P.nfc, Dict(ms), room + 1).value;
            n.Dict? && Field(n.members, key) == Some(Str(t))
  {
    hide Field;
    FieldOfCanonical(P.nfc, ms, room, key, Str(t));
    assert P.nfc(t) == t;
    AsciiIsScalar(t);
    StrIsCanonical(P.nfc, t, room);
  }

  lemma StrIsCanonical(nfc: Text -> Text, t: Text, room: nat)
    requires nfc(t) == t && Scalar(t)
    ensures Canonical(nfc, Str(t), room) == Some(Str(t))
  {
  }

  lemma AsciiIsScalar(t: Text)
    requires Ascii(t)
    ensures Scalar(t)
  {
  }

  lemma FieldIsMember(ms: seq<Member>, key: Text)
    requires Field(ms, key).Some?
    ensures Member(key, Field(ms, key).value) in ms
  {
  }

  // ---------------------------------------------------------------- the header, signed and projected

  lemma FieldsAreHeader(P: Primitives, header: seq<Member>, payload: Bytes)
    requires Keys(header) == INPUT_HEADER
    ensures Keys(SignedFields(P, header, payload)) == HEADER
  {
    hide HEADER;
    var last := Member(PAYLOAD_DIGEST, Str(Hex(P.sha256(payload))));
    forall f ensures f in Keys(header + [last]) <==> f in HEADER {
      assert f in Keys(header + [last]) <==> f in Keys(header) || f == PAYLOAD_DIGEST by {
        if f in Keys(header) {
          var m :| m in header && m.key == f;
          assert m in header + [last];
        }
        assert last in header + [last];
      }
      DigestIsHeader();
    }
  }

  /** The names the signer adds are new to the mapping it adds them to, so adding never replaces. */
  lemma AddedNamesAreNew()
    ensures PAYLOAD_DIGEST !in INPUT_HEADER
    ensures ENVELOPE_DIGEST !in HEADER && PAYLOAD !in HEADER && SIGNATURE !in HEADER
    ensures ENVELOPE_DIGEST != PAYLOAD && ENVELOPE_DIGEST != SIGNATURE && PAYLOAD != SIGNATURE
  {
    assert ENVELOPE_DIGEST[0] == 0x65 && ROOT[0] == 0x6D;
  }

  lemma DigestIsHeader()
    ensures PAYLOAD_DIGEST in HEADER
  {
  }

  lemma OrderIsHeader(order: seq<Text>, f: Text)
    requires HeaderOrder(order)
    ensures f in order <==> f in HEADER
  {
    hide HEADER;
  }

  /** Walking the header set in any order, over canonical values, gives the signed header. */
  lemma ProjectionAgrees(nfc: Text -> Text, fields: seq<Member>, ms: seq<Member>, order: seq<Text>, room: int)
    requires Normalizer(nfc) && HeaderOrder(order)
    requires DistinctKeys(fields) && Keys(fields) == HEADER
    requires forall i | 0 <= i < |order| :: HasKey(ms, order[i])
    requires forall m | m in fields :: HasKey(ms, m.key) && Canonical(nfc, m.value, room) == Some(Lookup(ms, m.key))
    ensures Canonical(nfc, Dict(Projection(ms, order)), room + 1) == Canonical(nfc, Dict(fields), room + 1)
  {
    hide Canonical, Lookup, HEADER, Keys, HasKey;
    var proj := Projection(ms, order);
    forall j | 0 <= j < |proj| ensures HasPartner(nfc, fields, proj[j], room) {
      OrderIsHeader(order, order[j]);
      KeysAreKeys(fields, order[j]);
      var i := IndexOf(fields, order[j]);
      assert fields[i] in fields;
      CanonicalIdempotent(nfc, fields[i].value, room);
    }
    forall i | 0 <= i < |fields| ensures HasPartner(nfc, proj, fields[i], room) {
      assert fields[i] in fields;
      InKeys(fields, i);
      OrderIsHeader(order, fields[i].key);
      var j :| 0 <= j < |order| && order[j] == fields[i].key;
      CanonicalIdempotent(nfc, fields[i].value, room);
      assert proj[j] == Member(fields[i].key, Lookup(ms, fields[i].key));
    }
    PartnersAgree(nfc, fields, proj, room);
  }

  lemma InKeys(ms: seq<Member>, i: nat)
    requires i < |ms|
    ensures ms[i].key in Keys(ms)
  {
    assert ms[i] in ms;
  }

  lemma IndexOf(ms: seq<Member>, key: Text) returns (i: nat)
    requires HasKey(ms, key)
    ensures i < |ms| && ms[i].key == key
  {
    i :| 0 <= i < |ms| && ms[i].key == key;
  }

  /** The verifier's canonical projection of a canonical envelope is the signer's header. */
  lemma ProjectedHeader(P: Primitives, fields: seq<Member>, rest: seq<Member>, order: seq<Text>)
    requires Sound(P) && HeaderOrder(order) && Keys(fields) == HEADER
    requires Canonical(P.nfc, Dict(fields + rest), MAX_DEPTH).Some?
    requires Canonical(P.nfc, Dict(fields), MAX_DEPTH).Some?
    requires var n := Canonical(P.nfc, Dict(fields + rest), MAX_DEPTH).value;
             n.Dict? && forall i | 0 <= i < |order| :: HasKey(n.members, order[i])
    ensures Canonical(P.nfc, Dict(Projection(Canonical(P.nfc, Dict(fields + rest), MAX_DEPTH).value.members, order)), MAX_DEPTH)
            == Canonical(P.nfc, Dict(fields), MAX_DEPTH)
  {
    hide Canonical, HEADER, Keys, HeaderOrder, Lookup;
    var ms := Canonical(P.nfc, Dict(fields + rest), MAX_DEPTH).value.members;
    CanonicalKeysDistinct(P.nfc, fields, MAX_DEPTH - 1);
    forall m | m in fields
      ensures HasKey(ms, m.key) && Canonical(P.nfc, m.value, MAX_DEPTH - 1) == Some(Lookup(ms, m.key))
    {
      var i :| 0 <= i < |fields| && fields[i] == m;
      InKeys(fields, i);
      NamesAreAscii(m.key);
      assert m == Member(m.key, m.value) && m in fields + rest;
      FieldOfCanonical(P.nfc, fields + rest, MAX_DEPTH - 1, m.key, m.value);
    }
    ProjectionAgrees(P.nfc, fields, ms, order, MAX_DEPTH - 1);
  }

  // ---------------------------------------------------------------- sign then verify

  /** What a signer computed on the way to a wire. */
  ghost predicate Signed(P: Primitives, header: seq<Member>, payload: Value, key: Bytes,
                         payloadBytes: Bytes, headerBytes: Bytes, envelope: Value)
  {
    && Keys(header) == INPUT_HEADER
    && Field(header, SENDER) == Some(Str(PeerId(P, P.publicKey(key))))
    && CanonicalBytes(P.nfc, payload, MAX_DEPTH) == Some(payloadBytes)
    && var fields := SignedFields(P, header, payloadBytes);
    && CanonicalBytes(P.nfc, Dict(fields), MAX_DEPTH) == Some(headerBytes)
    && Canonical(P.nfc, EnvelopeObject(P, fields, payload, key, P.sha256(headerBytes)), MAX_DEPTH) == Some(envelope)
    && ValidEnvelope(envelope)
  }

  lemma SignFacts(P: Primitives, header: Value, payload: Value, key: Bytes)
    returns (payloadBytes: Bytes, headerBytes: Bytes, envelope: Value)
    requires Sound(P) && Sign(P, header, payload, key).Some?
    ensures header.Dict? && Signed(P, header.members, payload, key, payloadBytes, headerBytes, envelope)
    ensures DecodeEnvelope(P, Sign(P, header, payload, key).value, MAX_WIRE_BYTES, MAX_DEPTH) == Some(envelope)
    ensures Read(Sign(P, header, payload, key).value) == Some(envelope)
  {
    hide Canonical, ValidEnvelope, ValidFields, EnvelopeObject, SignedFields, Read, Field, Keys;
    payloadBytes := CanonicalBytes(P.nfc, payload, MAX_DEPTH).value;
    var fields := SignedFields(P, header.members, payloadBytes);
    headerBytes := CanonicalBytes(P.nfc, Dict(fields), MAX_DEPTH).value;
    var whole := EnvelopeObject(P, fields, payload, key, P.sha256(headerBytes));
    ReadOfCanonical(P.nfc, whole, MAX_DEPTH);
    envelope := Canonical(P.nfc, whole, MAX_DEPTH).value;
  }

  /** The parts of the envelope object, as members. */
  lemma EnvelopeParts(P: Primitives, header: seq<Member>, payload: Value, key: Bytes, payloadBytes: Bytes, digest: Bytes)
    ensures var fields := SignedFields(P, header, payloadBytes);
            var parts := EnvelopeObject(P, fields, payload, key, digest).members;
            && (forall m | m in fields :: m in parts)
            && Member(PAYLOAD_DIGEST, Str(Hex(P.sha256(payloadBytes)))) in parts
            && Member(ENVELOPE_DIGEST, Str(Hex(digest))) in parts
            && Member(PAYLOAD, payload) in parts
            && Member(SIGNATURE, SignatureObject(P, key, digest)) in parts
            && (forall m | m in header :: m in parts)
  {
    var fields := SignedFields(P, header, payloadBytes);
    var parts := EnvelopeObject(P, fields, payload, key, digest).members;
    var d, e := |header|, |fields|;
    assert parts[d] == Member(PAYLOAD_DIGEST, Str(Hex(P.sha256(payloadBytes))));
    assert parts[e] == Member(ENVELOPE_DIGEST, Str(Hex(digest)));
    assert parts[e + 1] == Member(PAYLOAD, payload);
    assert parts[e + 2] == Member(SIGNATURE, SignatureObject(P, key, digest));
  }

  lemma PeerIdIsAscii(P: Primitives, publicKey: Bytes)
    ensures Ascii(PeerId(P, publicKey))
  {
    LiteralIsAscii("peer_");
  }

  /** Sender, digests and the signature object come through as they were signed. */
  lemma SignedText(P: Primitives, header: seq<Member>, payload: Value, key: Bytes,
                   payloadBytes: Bytes, headerBytes: Bytes, envelope: Value)
    requires Sound(P) && Signed(P, header, payload, key, payloadBytes, headerBytes, envelope)
    ensures Field(envelope.members, SENDER) == Some(Str(PeerId(P, P.publicKey(key))))
    ensures Field(envelope.members, PAYLOAD_DIGEST) == Some(Str(Hex(P.sha256(payloadBytes))))
    ensures Field(envelope.members, ENVELOPE_DIGEST) == Some(Str(Hex(P.sha256(headerBytes))))
    ensures Canonical(P.nfc, payload, MAX_DEPTH - 1).Some?
    ensures Field(envelope.members, PAYLOAD) == Canonical(P.nfc, payload, MAX_DEPTH - 1)
    ensures Canonical(P.nfc, SignatureObject(P, key, P.sha256(headerBytes)), MAX_DEPTH - 1).Some?
    ensures Field(envelope.members, SIGNATURE) ==
            Canonical(P.nfc, SignatureObject(P, key, P.sha256(headerBytes)), MAX_DEPTH - 1)
  {
    hide Canonical, ValidEnvelope, Field, Keys, HEADER, SignatureObject, PeerId;
    var digest := P.sha256(headerBytes);
    var whole := EnvelopeObject(P, SignedFields(P, header, payloadBytes), payload, key, digest);
    EnvelopeParts(P, header, payload, key, payloadBytes, digest);
    FieldIsMember(header, SENDER);
    SenderIsHeader();
    DigestIsHeader();
    NamesAreAscii(SENDER);
    NamesAreAscii(PAYLOAD_DIGEST);
    NamesAreAscii(ENVELOPE_DIGEST);
    NamesAreAscii(PAYLOAD);
    NamesAreAscii(SIGNATURE);
    PeerIdIsAscii(P, P.publicKey(key));
    LowerHexIsAscii(Hex(P.sha256(payloadBytes)));
    LowerHexIsAscii(Hex(digest));
    AsciiField(P, whole.members, MAX_DEPTH - 1, SENDER, PeerId(P, P.publicKey(key)));
    AsciiField(P, whole.members, MAX_DEPTH - 1, PAYLOAD_DIGEST, Hex(P.sha256(payloadBytes)));
    AsciiField(P, whole.members, MAX_DEPTH - 1, ENVELOPE_DIGEST, Hex(digest));
    FieldOfCanonical(P.nfc, whole.members, MAX_DEPTH - 1, PAYLOAD, payload);
    FieldOfCanonical(P.nfc, whole.members, MAX_DEPTH - 1, SIGNATURE, SignatureObject(P, key, digest));
  }

  lemma SenderIsHeader()
    ensures SENDER in HEADER
  {
  }

  /** The signature object is canonical text field by field. */
  lemma SignatureText(P: Primitives, key: Bytes, digest: Bytes)
    requires Sound(P) && Canonical(P.nfc, SignatureObject(P, key, digest), MAX_DEPTH - 1).Some?
    ensures var n := Canonical(P.nfc, SignatureObject(P, key, digest), MAX_DEPTH - 1).value;
            && n.Dict?
            && Field(n.members, KEY_ID) == Some(Str(Fingerprint(P.publicKey(key))))
            && Field(n.members, SIG) == Some(Str(Base64(P.sign(key, PREFIX + digest))))
  {
    hide Canonical, Field;
    var parts := SignatureObject(P, key, digest).members;
    assert parts[1] == Member(KEY_ID, Str(Fingerprint(P.publicKey(key))));
    assert parts[2] == Member(SIG, Str(Base64(P.sign(key, PREFIX + digest))));
    NamesAreAscii(KEY_ID);
    NamesAreAscii(SIG);
    LowerHexIsAscii(Fingerprint(P.publicKey(key)));
    Base64IsAscii(P.sign(key, PREFIX + digest));
    AsciiField(P, parts, MAX_DEPTH - 2, KEY_ID, Fingerprint(P.publicKey(key)));
    AsciiField(P, parts, MAX_DEPTH - 2, SIG, Base64(P.sign(key, PREFIX + digest)));
  }

  /** The payload, canonicalised inside the envelope, has the bytes it had on its own. */
  lemma PayloadBytesAgree(nfc: Text -> Text, payload: Value)
    requires Normalizer(nfc) && Canonical(nfc, payload, MAX_DEPTH - 1).Some?
    ensures CanonicalBytes(nfc, Canonical(nfc, payload, MAX_DEPTH - 1).value, MAX_DEPTH)
            == CanonicalBytes(nfc, payload, MAX_DEPTH)
  {
    hide Canonical;
    var inner := Canonical(nfc, payload, MAX_DEPTH - 1).value;
    MoreRoom(nfc, payload, MAX_DEPTH - 1, MAX_DEPTH);
    CanonicalIdempotent(nfc, payload, MAX_DEPTH - 1);
    MoreRoom(nfc, inner, MAX_DEPTH - 1, MAX_DEPTH);
  }

  lemma SignedBinds(P: Primitives, header: seq<Member>, payload: Value, key: Bytes,
                    payloadBytes: Bytes, headerBytes: Bytes, envelope: Value, order: seq<Text>)
    requires Sound(P) && HeaderOrder(order)
    requires Signed(P, header, payload, key, payloadBytes, headerBytes, envelope)
    ensures forall i | 0 <= i < |order| :: HasKey(envelope.members, order[i])
    ensures Binds(P, envelope.members, P.publicKey(key), order)
  {
    hide Canonical, ValidFields, ValidSignature, Field, Keys, HEADER, HeaderOrder, SignatureObject, PeerId, HasKey,
         Projection, Base64;
    var digest, fields := P.sha256(headerBytes), SignedFields(P, header, payloadBytes);
    var whole := EnvelopeObject(P, fields, payload, key, digest);
    EnvelopeHasHeader(envelope.members, order);
    SignedText(P, header, payload, key, payloadBytes, headerBytes, envelope);
    SignatureText(P, key, digest);
    PayloadBytesAgree(P.nfc, payload);
    FieldsAreHeader(P, header, payloadBytes);
    ProjectedHeader(P, fields, whole.members[|fields|..], order);
    assert fields + whole.members[|fields|..] == whole.members;
    FromHexOfHex(digest);
    SignatureSpelling(Base64(P.sign(key, PREFIX + digest)), P.sign(key, PREFIX + digest));
    assert P.verify(P.publicKey(key), PREFIX + digest, P.sign(key, PREFIX + digest));
  }

  predicate AllPass(checks: Validators, envelope: Value) {
    && Passes(checks.transport, envelope) && Passes(checks.membership, envelope)
    && Passes(checks.replay, envelope) && Passes(checks.expiry, envelope)
  }

  /** Sign, then verify: whatever the signer is given, if it returns a wire then the matching
      key verifies that wire, under any validators that accept it without changing it and in
      whatever order the header set is walked; the result is the decoded wire. */
  lemma SignThenVerify(P: Primitives, header: Value, payload: Value, key: Bytes, checks: Validators, order: seq<Text>)
    requires Sound(P) && HeaderOrder(order) && Sign(P, header, payload, key).Some?
    requires Read(Sign(P, header, payload, key).value).Some?
             && AllPass(checks, Read(Sign(P, header, payload, key).value).value)
    ensures Verify(P, Sign(P, header, payload, key).value, P.publicKey(key), checks, order)
            == Read(Sign(P, header, payload, key).value)
  {
    hide Sign, Signed, DecodeEnvelope, Read, Passes, Binds, HeaderOrder, Sound;
    var payloadBytes, headerBytes, envelope := SignFacts(P, header, payload, key);
    SignedBinds(P, header.members, payload, key, payloadBytes, headerBytes, envelope, order);
  }

  // ---------------------------------------------------------------- what a verified envelope is worth

  lemma VerifiedFacts(P: Primitives, wire: Bytes, publicKey: Bytes, checks: Validators, order: seq<Text>)
    requires Normalizer(P.nfc) && HeaderOrder(order) && Verify(P, wire, publicKey, checks, order).Some?
    ensures var v := Verify(P, wire, publicKey, checks, order).value;
            && Read(wire) == Some(v) && Accepts(P.nfc, wire, MAX_DEPTH) && ValidEnvelope(v)
            && (forall i | 0 <= i < |order| :: HasKey(v.members, order[i]))
            && Binds(P, v.members, publicKey, order)
  {
    hide ValidFields, ValidSignature, Binds, Accepts, Read, HeaderOrder, HEADER, Keys, HasKey;
    EnvelopeHasHeader(Read(wire).value.members, order);
  }

  lemma NormalDict(nfc: Text -> Text, ms: seq<Member>, room: int)
    requires Normal(nfc, Dict(ms), room)
    ensures DistinctKeys(ms) && forall m | m in ms :: Normal(nfc, m.value, room - 1) && nfc(m.key) == m.key
  {
    SortedIsDistinct(ms);
  }

  /** The projection of a decoded envelope, canonicalised, holds the header fields as decoded. */
  lemma ProjectionHolds(P: Primitives, ms: seq<Member>, order: seq<Text>, f: Text)
    requires Sound(P) && HeaderOrder(order) && f in HEADER && Normal(P.nfc, Dict(ms), MAX_DEPTH)
    requires forall i | 0 <= i < |order| :: HasKey(ms, order[i])
    requires Canonical(P.nfc, Dict(Projection(ms, order)), MAX_DEPTH).Some?
    ensures var n := Canonical(P.nfc, Dict(Projection(ms, order)), MAX_DEPTH).value;
            n.Dict? && Field(n.members, f) == Field(ms, f) && Field(ms, f).Some?
  {
    hide Canonical, Normal, HEADER, Lookup, HeaderOrder, HasKey;
    OrderIsHeader(order, f);
    var j :| 0 <= j < |order| && order[j] == f;
    var v := Lookup(ms, f);
    assert Projection(ms, order)[j] == Member(f, v);
    NamesAreAscii(f);
    FieldOfCanonical(P.nfc, Projection(ms, order), MAX_DEPTH - 1, f, v);
    NormalDict(P.nfc, ms, MAX_DEPTH);
    assert Member(f, v) in ms;
    NormalIsFixed(P.nfc, v, MAX_DEPTH - 1);
  }

  function PayloadBytes(P: Primitives, ms: seq<Member>): Option<Bytes> {
    if Field(ms, PAYLOAD).Some? then CanonicalBytes(P.nfc, Field(ms, PAYLOAD).value, MAX_DEPTH) else None
  }

  function HeaderBytes(P: Primitives, ms: seq<Member>, order: seq<Text>): Option<Bytes>
    requires forall i | 0 <= i < |order| :: HasKey(ms, order[i])
  {
    CanonicalBytes(P.nfc, Dict(Projection(ms, order)), MAX_DEPTH)
  }

  /** The digest tells these two byte strings apart. */
  predicate NoCollision(P: Primitives, x: Option<Bytes>, y: Option<Bytes>) {
    x.Some? && y.Some? && P.sha256(x.value) == P.sha256(y.value) ==> x == y
  }

  lemma HexInjective(a: Bytes, b: Bytes)
    requires Hex(a) == Hex(b)
    ensures a == b
  {
    FromHexOfHex(a);
    FromHexOfHex(b);
  }

  lemma SamePayload(P: Primitives, a: seq<Member>, b: seq<Member>)
    requires Sound(P) && NoCollision(P, PayloadBytes(P, a), PayloadBytes(P, b))
    requires Normal(P.nfc, Dict(a), MAX_DEPTH) && Normal(P.nfc, Dict(b), MAX_DEPTH)
    requires Field(a, PAYLOAD).Some? && Field(b, PAYLOAD).Some?
    requires var x, y := PayloadBytes(P, a), PayloadBytes(P, b);
             x.Some? && y.Some? && Hex(P.sha256(x.value)) == Hex(P.sha256(y.value))
    ensures Field(a, PAYLOAD) == Field(b, PAYLOAD)
  {
    hide Canonical, Normal, Hex, Lookup;
    var v, w := Field(a, PAYLOAD).value, Field(b, PAYLOAD).value;
    var x, y := CanonicalBytes(P.nfc, v, MAX_DEPTH).value, CanonicalBytes(P.nfc, w, MAX_DEPTH).value;
    HexInjective(P.sha256(x), P.sha256(y));
    CanonicalBytesInjective(P.nfc, v, w, MAX_DEPTH);
    NormalDict(P.nfc, a, MAX_DEPTH);
    NormalDict(P.nfc, b, MAX_DEPTH);
    FieldIsMember(a, PAYLOAD);
    FieldIsMember(b, PAYLOAD);
    NormalIsFixed(P.nfc, v, MAX_DEPTH - 1);
    NormalIsFixed(P.nfc, w, MAX_DEPTH - 1);
    MoreRoom(P.nfc, v, MAX_DEPTH - 1, MAX_DEPTH);
    MoreRoom(P.nfc, w, MAX_DEPTH - 1, MAX_DEPTH);
  }

  /** One digest, one message: two wires that verify, under any keys, validators and walks of
      the header set, and carry the same envelope digest, agree on every header field and on
      the payload, unless their own header bytes or payload bytes collide under the digest;
      only the signature object can differ. */
  lemma OneDigestOneMessage(P: Primitives, w1: Bytes, k1: Bytes, c1: Validators, o1: seq<Text>,
                            w2: Bytes, k2: Bytes, c2: Validators, o2: seq<Text>, f: Text)
    requires Sound(P) && HeaderOrder(o1) && HeaderOrder(o2)
    requires Verify(P, w1, k1, c1, o1).Some? && Verify(P, w2, k2, c2, o2).Some?
    requires var a, b := Verify(P, w1, k1, c1, o1).value, Verify(P, w2, k2, c2, o2).value;
             && a.Dict? && b.Dict? && Field(a.members, ENVELOPE_DIGEST) == Field(b.members, ENVELOPE_DIGEST)
             && (forall i | 0 <= i < |o1| :: HasKey(a.members, o1[i]))
             && (forall i | 0 <= i < |o2| :: HasKey(b.members, o2[i]))
             && NoCollision(P, HeaderBytes(P, a.members, o1), HeaderBytes(P, b.members, o2))
             && NoCollision(P, PayloadBytes(P, a.members), PayloadBytes(P, b.members))
    requires f in HEADER || f == PAYLOAD
    ensures var a, b := Verify(P, w1, k1, c1, o1).value, Verify(P, w2, k2, c2, o2).value;
            Field(a.members, f) == Field(b.members, f)
  {
    hide Canonical, Normal, HEADER, Keys, Field, HasKey, Lookup, Verify, Read, Accepts, HeaderOrder, Hex,
         ValidFields, ValidSignature,
         Projection, Sound, NoCollision, PeerId;
    var a, b := Verify(P, w1, k1, c1, o1).value.members, Verify(P, w2, k2, c2, o2).value.members;
    assert Normalizer(P.nfc) by { SoundNormalizes(P); }
    VerifiedFacts(P, w1, k1, c1, o1);
    VerifiedFacts(P, w2, k2, c2, o2);
    AcceptedIsNormal(P.nfc, w1, MAX_DEPTH);
    AcceptedIsNormal(P.nfc, w2, MAX_DEPTH);
    SameHeader(P, a, o1, b, o2);
    if f == PAYLOAD {
      DigestIsHeader();
      FieldsAgree(P, a, o1, b, o2, PAYLOAD_DIGEST);
      SamePayload(P, a, b);
    } else {
      FieldsAgree(P, a, o1, b, o2, f);
    }
  }

  lemma SoundNormalizes(P: Primitives)
    requires Sound(P)
    ensures Normalizer(P.nfc)
  {
  }

  lemma SameHeader(P: Primitives, a: seq<Member>, o1: seq<Text>, b: seq<Member>, o2: seq<Text>)
    requires Normalizer(P.nfc)
    requires forall i | 0 <= i < |o1| :: HasKey(a, o1[i])
    requires forall i | 0 <= i < |o2| :: HasKey(b, o2[i])
    requires NoCollision(P, HeaderBytes(P, a, o1), HeaderBytes(P, b, o2))
    requires var x, y := HeaderBytes(P, a, o1), HeaderBytes(P, b, o2);
             x.Some? && y.Some? && Hex(P.sha256(x.value)) == Hex(P.sha256(y.value))
    ensures Canonical(P.nfc, Dict(Projection(a, o1)), MAX_DEPTH).Some?
    ensures Canonical(P.nfc, Dict(Projection(a, o1)), MAX_DEPTH) == Canonical(P.nfc, Dict(Projection(b, o2)), MAX_DEPTH)
  {
    hide Canonical, HasKey, Projection, Hex;
    var x := CanonicalBytes(P.nfc, Dict(Projection(a, o1)), MAX_DEPTH).value;
    var y := CanonicalBytes(P.nfc, Dict(Projection(b, o2)), MAX_DEPTH).value;
    HexInjective(P.sha256(x), P.sha256(y));
    CanonicalBytesInjective(P.nfc, Dict(Projection(a, o1)), Dict(Projection(b, o2)), MAX_DEPTH);
  }

  lemma FieldsAgree(P: Primitives, a: seq<Member>, o1: seq<Text>, b: seq<Member>, o2: seq<Text>, f: Text)
    requires Sound(P) && HeaderOrder(o1) && HeaderOrder(o2) && f in HEADER
    requires Normal(P.nfc, Dict(a), MAX_DEPTH) && Normal(P.nfc, Dict(b), MAX_DEPTH)
    requires forall i | 0 <= i < |o1| :: HasKey(a, o1[i])
    requires forall i | 0 <= i < |o2| :: HasKey(b, o2[i])
    requires Canonical(P.nfc, Dict(Projection(a, o1)), MAX_DEPTH).Some?
    requires Canonical(P.nfc, Dict(Projection(a, o1)), MAX_DEPTH) == Canonical(P.nfc, Dict(Projection(b, o2)), MAX_DEPTH)
    ensures Field(a, f) == Field(b, f)
  {
    hide Canonical, Normal, HEADER, HasKey, Projection, HeaderOrder, Field;
    ProjectionHolds(P, a, o1, f);
    ProjectionHolds(P, b, o2, f);
  }

  /** Verification does not depend on the order in which the header set is walked. */
  lemma VerifyIgnoresHeaderOrder(P: Primitives, wire: Bytes, publicKey: Bytes, checks: Validators,
                                 o1: seq<Text>, o2: seq<Text>)
    requires Normalizer(P.nfc) && HeaderOrder(o1) && HeaderOrder(o2)
    ensures Verify(P, wire, publicKey, checks, o1) == Verify(P, wire, publicKey, checks, o2)
  {
    hide Canonical, Normal, HEADER, HeaderOrder, ValidFields, ValidSignature, PeerId, Accepts, Passes, Projection,
         Keys, HasKey,
         Read, Field, SameDecoded, Hex, SignatureBytes, DigestText;
    if DecodeEnvelope(P, wire, MAX_WIRE_BYTES, MAX_DEPTH).Some? {
      var ms := Read(wire).value.members;
      EnvelopeHasHeader(ms, o1);
      EnvelopeHasHeader(ms, o2);
      ProjectionsAgree(P.nfc, ms, o1, o2);
    }
  }

  lemma ProjectionsAgree(nfc: Text -> Text, ms: seq<Member>, o1: seq<Text>, o2: seq<Text>)
    requires HeaderOrder(o1) && HeaderOrder(o2)
    requires forall i | 0 <= i < |o1| :: HasKey(ms, o1[i])
    requires forall i | 0 <= i < |o2| :: HasKey(ms, o2[i])
    ensures Canonical(nfc, Dict(Projection(ms, o1)), MAX_DEPTH) == Canonical(nfc, Dict(Projection(ms, o2)), MAX_DEPTH)
  {
    hide Canonical, HEADER, HasKey, Lookup;
    var a, b := Projection(ms, o1), Projection(ms, o2);
    forall j | 0 <= j < |b| ensures HasPartner(nfc, a, b[j], MAX_DEPTH - 1) {
      OrderIsHeader(o1, o2[j]);
      OrderIsHeader(o2, o2[j]);
      var i :| 0 <= i < |o1| && o1[i] == o2[j];
      assert a[i].key == b[j].key;
    }
    forall i | 0 <= i < |a| ensures HasPartner(nfc, b, a[i], MAX_DEPTH - 1) {
      OrderIsHeader(o1, o1[i]);
      OrderIsHeader(o2, o1[i]);
      var j :| 0 <= j < |o2| && o2[j] == o1[i];
      assert b[j].key == a[i].key;
    }
    PartnersAgree(nfc, a, b, MAX_DEPTH - 1);
  }
}
