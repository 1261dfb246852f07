/** Signing, strict decoding and verification of a known-peer envelope. NFC, SHA-256 and
    Ed25519 (RFC 8032) are parameters, with the few properties the results need. */
module PeerEnvelope {
  import opened Wrappers
  import opened Utf8
  import opened Json
  import opened CanonicalJson
  import opened TextCodecs

  datatype Primitives = Primitives(
    nfc: Text -> Text,
    sha256: Bytes -> Bytes,
    publicKey: Bytes -> Bytes,
    sign: (Bytes, Bytes) -> Bytes,
    verify: (Bytes, Bytes, Bytes) -> bool)

  /** NFC is idempotent and leaves ASCII alone; digests and keys have 32 bytes, signatures 64,
      and a key verifies what it signed. */
  ghost predicate Sound(P: Primitives) {
    && Normalizer(P.nfc)
    && (forall t {:trigger P.nfc(t)} :: Ascii(t) ==> P.nfc(t) == t)
    && (forall b {:trigger P.sha256(b)} :: |P.sha256(b)| == 32)
    && (forall k {:trigger P.publicKey(k)} :: |P.publicKey(k)| == 32)
    && (forall k, m {:trigger P.sign(k, m)} :: |P.sign(k, m)| == 64 && P.verify(P.publicKey(k), m, P.sign(k, m)))
  }

  // ---------------------------------------------------------------- field names and limits

  const PROTO := Literal("proto")
  const KIND := Literal("kind")
  const SENDER := Literal("sender_peer_id")
  const EPOCH := Literal("membership_epoch")
  const ROOT := Literal("membership_root")
  const MSG_ID := Literal("msg_id")
  const SEQUENCE := Literal("monotonic_seq")
  const ISSUED := Literal("issued_at_ms")
  const EXPIRES := Literal("expires_at_ms")
  const CORRELATION := Literal("correlation_id")
  const PAYLOAD_DIGEST := Literal("payload_digest")
  const ENVELOPE_DIGEST := Literal("envelope_digest")
  const PAYLOAD := Literal("payload")
  const SIGNATURE := Literal("signature")
  const ALG := Literal("alg")
  const KEY_ID := Literal("key_id")
  const SIG := Literal("sig")

  const HEADER: set<Text> :=
    {PROTO, KIND, SENDER, EPOCH, ROOT, MSG_ID, SEQUENCE, ISSUED, EXPIRES, CORRELATION, PAYLOAD_DIGEST}
  const INPUT_HEADER: set<Text> := HEADER - {PAYLOAD_DIGEST}
  const ENVELOPE: set<Text> := HEADER + {ENVELOPE_DIGEST, PAYLOAD, SIGNATURE}
  const SIGNATURE_FIELDS: set<Text> := {ALG, KEY_ID, SIG}
  const KINDS: set<Text> :=
    {Literal("proposal"), Literal("ballot"), Literal("membership"), Literal("decision-certificate"),
     Literal("grant"), Literal("heartbeat"), Literal("recovery-request"), Literal("recovery-response")}

  const PROTOCOL := Literal("agency-known-peer/1")
  const PREFIX: Bytes := Encode(Literal("agency-known-peer/1|sig-v1|"))
  const ED25519 := Literal("Ed25519")
  const MAX_U64 := 0xFFFF_FFFF_FFFF_FFFF
  const MIN_I64 := -0x8000_0000_0000_0000
  const MAX_I64 := 0x7FFF_FFFF_FFFF_FFFF
  const MAX_WIRE_BYTES := 65536

  // ---------------------------------------------------------------- validation

  function Keys(ms: seq<Member>): set<Text> {
    set m | m in ms :: m.key
  }

  lemma KeysAreKeys(ms: seq<Member>, key: Text)
    ensures HasKey(ms, key) <==> key in Keys(ms)
  {
    if HasKey(ms, key) {
      var i :| 0 <= i < |ms| && ms[i].key == key;
      assert ms[i] in ms;
    }
  }

  /** The value of a field, or nothing. */
  function Field(ms: seq<Member>, key: Text): Option<Value> {
    if HasKey(ms, key) then Some(Lookup(ms, key)) else None
  }

  predicate IntegerIn(v: Option<Value>, low: int, high: int) {
    v.Some? && v.value.Int? && low <= v.value.n <= high
  }

  predicate DigestText(v: Option<Value>) {
    v.Some? && v.value.Str? && |v.value.t| == 64 && LowerHexText(v.value.t)
  }

  predicate PeerText(v: Option<Value>) {
    && v.Some? && v.value.Str? && |v.value.t| == 37
    && v.value.t[..5] == Literal("peer_") && LowerHexText(v.value.t[5..])
  }

  /** `_validate_header`, once the key set is known to be the right one. */
  predicate ValidFields(ms: seq<Member>, signing: bool) {
    && Field(ms, PROTO) == Some(Str(PROTOCOL))
    && (var kind := Field(ms, KIND); kind.Some? && kind.value.Str? && kind.value.t in KINDS)
    && PeerText(Field(ms, SENDER))
    && IntegerIn(Field(ms, EPOCH), 0, MAX_U64)
    && DigestText(Field(ms, ROOT))
    && IntegerIn(Field(ms, SEQUENCE), 0, MAX_U64)
    && Field(ms, MSG_ID) == Some(Str(Field(ms, SENDER).value.t + [COLON] + Decimal(Field(ms, SEQUENCE).value.n)))
    && IntegerIn(Field(ms, ISSUED), MIN_I64, MAX_I64)
    && IntegerIn(Field(ms, EXPIRES), MIN_I64, MAX_I64)
    && Field(ms, EXPIRES).value.n > Field(ms, ISSUED).value.n
    && (var id := Field(ms, CORRELATION); id.Some? && id.value.Str? && id.value.t != [])
    && (!signing ==> DigestText(Field(ms, PAYLOAD_DIGEST)))
  }

  predicate ValidSignature(v: Option<Value>) {
    && v.Some? && v.value.Dict? && Keys(v.value.members) == SIGNATURE_FIELDS
    && Field(v.value.members, ALG) == Some(Str(ED25519))
    && DigestText(Field(v.value.members, KEY_ID))
    && (var sig := Field(v.value.members, SIG); sig.Some? && sig.value.Str? && SignatureBytes(sig.value.t).Some?)
  }

  predicate ValidEnvelope(v: Value) {
    && v.Dict? && Keys(v.members) == ENVELOPE
    && ValidFields(v.members, false)
    && DigestText(Field(v.members, ENVELOPE_DIGEST))
    && (var payload := Field(v.members, PAYLOAD); payload.Some? && payload.value.Dict?)
    && ValidSignature(Field(v.members, SIGNATURE))
  }

  function Fingerprint(publicKey: Bytes): Text {
    Hex(publicKey)
  }

  function PeerId(P: Primitives, publicKey: Bytes): Text {
    var hex := Hex(P.sha256(publicKey));
    Literal("peer_") + if |hex| >= 32 then hex[..32] else hex
  }

  // ---------------------------------------------------------------- decoding

  function DecodeEnvelope(P: Primitives, wire: Bytes, maxWire: int, maxDepth: int): Option<Value> {
    if !(0 < maxWire <= MAX_WIRE_BYTES) || wire == [] || |wire| > maxWire then None
    else if !Accepts(P.nfc, wire, maxDepth) then None
    else if ValidEnvelope(Read(wire).value) then Read(wire)
    else None
  }

  // ---------------------------------------------------------------- signing

  function SignedFields(P: Primitives, header: seq<Member>, payload: Bytes): seq<Member> {
    header + [Member(PAYLOAD_DIGEST, Str(Hex(P.sha256(payload))))]
  }

  function SignatureObject(P: Primitives, key: Bytes, digest: Bytes): Value {
    Dict([Member(ALG, Str(ED25519)),
          Member(KEY_ID, Str(Fingerprint(P.publicKey(key)))),
          Member(SIG, Str(Base64(P.sign(key, PREFIX + digest))))])
  }

  function EnvelopeObject(P: Primitives, fields: seq<Member>, payload: Value, key: Bytes, digest: Bytes): Value {
    Dict(fields + [Member(ENVELOPE_DIGEST, Str(Hex(digest))),
                   Member(PAYLOAD, payload),
                   Member(SIGNATURE, SignatureObject(P, key, digest))])
  }

  /** The signed envelope's bytes, before the signer decodes them once itself. */
  function SignedWire(P: Primitives, header: seq<Member>, payload: Value, key: Bytes): Option<Bytes> {
    match CanonicalBytes(P.nfc, payload, MAX_DEPTH)
    case None => None
    case Some(payloadBytes) =>
      var fields := SignedFields(P, header, payloadBytes);
      match CanonicalBytes(P.nfc, Dict(fields), MAX_DEPTH)
      case None => None
      case Some(headerBytes) =>
        CanonicalBytes(P.nfc, EnvelopeObject(P, fields, payload, key, P.sha256(headerBytes)), MAX_DEPTH)
  }

  function Sign(P: Primitives, header: Value, payload: Value, key: Bytes): Option<Bytes> {
    if !header.Dict? || Keys(header.members) != INPUT_HEADER || !ValidFields(header.members, true) then None
    else if Field(header.members, SENDER) != Some(Str(PeerId(P, P.publicKey(key)))) || !payload.Dict? then None
    else
      match SignedWire(P, header.members, payload, key)
      case None => None
      case Some(wire) =>
        if DecodeEnvelope(P, wire, MAX_WIRE_BYTES, MAX_DEPTH).Some? then Some(wire) else None
  }

  // ---------------------------------------------------------------- verification

  /** What a validator does to the private copy it is given: its answer, and the copy afterwards. */
  datatype Check = Check(accepted: bool, after: Value)

  type Validator = Value -> Check

  datatype Validators = Validators(transport: Validator, membership: Validator, replay: Validator, expiry: Validator)

  predicate Passes(check: Validator, envelope: Value) {
    check(envelope).accepted && SameDecoded(envelope, check(envelope).after)
  }

  /** An order in which the header set may be walked. */
  predicate HeaderOrder(order: seq<Text>) {
    && (forall i, j | 0 <= i < j < |order| :: order[i] != order[j])
    && (forall f | f in order :: f in HEADER) && (forall f | f in HEADER :: f in order)
  }

  /** The header fields of an envelope, as a mapping of their own, in the given order. */
  function Projection(ms: seq<Member>, order: seq<Text>): seq<Member>
    requires forall i | 0 <= i < |order| :: HasKey(ms, order[i])
  {
    seq(|order|, i requires 0 <= i < |order| => Member(order[i], Lookup(ms, order[i])))
  }

  predicate Binds(P: Primitives, ms: seq<Member>, publicKey: Bytes, order: seq<Text>)
    requires ValidEnvelope(Dict(ms)) && forall i | 0 <= i < |order| :: HasKey(ms, order[i])
  {
    var signature := Field(ms, SIGNATURE).value.members;
    && Field(ms, SENDER) == Some(Str(PeerId(P, publicKey)))
    && Field(signature, KEY_ID) == Some(Str(Fingerprint(publicKey)))
    && P.verify(publicKey, PREFIX + FromHex(Field(ms, ENVELOPE_DIGEST).value.t),
                SignatureBytes(Field(signature, SIG).value.t).value)
    && (var payload := CanonicalBytes(P.nfc, Field(ms, PAYLOAD).value, MAX_DEPTH);
        payload.Some? && Field(ms, PAYLOAD_DIGEST) == Some(Str(Hex(P.sha256(payload.value)))))
    && (var header := CanonicalBytes(P.nfc, Dict(Projection(ms, order)), MAX_DEPTH);
        header.Some? && Field(ms, ENVELOPE_DIGEST) == Some(Str(Hex(P.sha256(header.value)))))
  }

  lemma EnvelopeHasHeader(ms: seq<Member>, order: seq<Text>)
    requires ValidEnvelope(Dict(ms)) && HeaderOrder(order)
    ensures forall i | 0 <= i < |order| :: HasKey(ms, order[i])
  {
    hide ValidFields, ValidSignature, HasKey, DigestText, Field, HEADER;
    forall i | 0 <= i < |order| ensures HasKey(ms, order[i]) {
      assert order[i] in order;
      KeysAreKeys(ms, order[i]);
    }
  }

  function Verify(P: Primitives, wire: Bytes, publicKey: Bytes, checks: Validators, order: seq<Text>): Option<Value>
    requires HeaderOrder(order)
  {
    match DecodeEnvelope(P, wire, MAX_WIRE_BYTES, MAX_DEPTH)
    case None => None
    case Some(envelope) =>
      EnvelopeHasHeader(envelope.members, order);
      if !Passes(checks.transport, envelope) || !Passes(checks.membership, envelope) then None
      else if !Binds(P, envelope.members, publicKey, order) then None
      else if !Passes(checks.replay, envelope) || !Passes(checks.expiry, envelope) then None
      else Some(envelope)
  }
}
