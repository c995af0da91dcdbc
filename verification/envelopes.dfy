/**
 DSSE envelopes of evaluation attestations: creation, and the verifier that must accept exactly
 the canonical encodings of signed, valid statements. JSON encoding, signing and hashing are
 functions of which only the stated laws are used.
 */
module Envelopes {
  import opened Basics
  import opened Ordering
  import opened Base64
  import opened Documents
  import opened Statements
  import Dsse

  type Bytes = seq<Byte>

  const MAX_ENVELOPE: nat := 8 * 1024 * 1024

  /** Canonical JSON (RFC 8785), which may refuse a document, and the JSON parser. */
  datatype Codec = Codec(dumps: Doc -> Attempt<Bytes>, loads: Bytes -> Attempt<Doc>)

  /** Parsing inverts encoding, and no encoding is empty. */
  ghost predicate Lawful(codec: Codec) {
    forall d {:trigger codec.dumps(d)} :: codec.dumps(d).Returned? ==>
      codec.loads(codec.dumps(d).value) == Returned(d) && codec.dumps(d).value != []
  }

  /** One verifier's key, `verify(signature, message)`, and the payload type, which may be any text. */
  datatype Scheme = Scheme(codec: Codec, verify: (Bytes, Bytes) -> bool, sha256: Bytes -> string, payloadType: string)

  /** UTF-8 of an ASCII text. */
  function Ascii(s: string): (bytes: Bytes)
    ensures |bytes| == |s|
  {
    seq(|s|, i requires 0 <= i < |s| => if s[i] as int < 256 then s[i] as int else 63)
  }

  /** The bytes that are signed for a statement. */
  function Signed(scheme: Scheme, statement: Bytes): Bytes {
    Dsse.PreAuthEncoding(Ascii(scheme.payloadType), statement)
  }

  function Envelope(payloadType: string, keyId: string, statement: Bytes, signature: Bytes): Doc {
    EnvelopeObj(Str(payloadType), Str(Encode(statement)), Arr([SignatureObj(Str(keyId), Str(Encode(signature)))]))
  }

  predicate IsObject(d: Doc) { !d.Null? && !d.Bool? && !d.Number? && !d.Str? && !d.Arr? }

  /** An envelope taken apart. */
  datatype Opened = Opened(document: Doc, canonical: Bytes, payload: Bytes, statement: Doc)

  /** The shape of a decoded envelope for one key. */
  predicate Shaped(d: Doc, payloadType: string, keyId: string) {
    && d.EnvelopeObj? && d.payloadType == Str(payloadType)
    && d.signatures.Arr? && |d.signatures.items| == 1 && d.signatures.items[0].SignatureObj?
    && d.signatures.items[0].keyId == Str(keyId) && d.signatures.items[0].signature.Str?
    && d.payload.Str?
  }

  function Open(scheme: Scheme, envelope: Bytes, keyId: string): (r: Attempt<Opened>)
    ensures r.Returned? ==> Shaped(r.value.document, scheme.payloadType, keyId)
  {
    if envelope == [] || |envelope| > MAX_ENVELOPE then Raised
    else
      var decoded := scheme.codec.loads(envelope);
      if decoded.Raised? || !Shaped(decoded.value, scheme.payloadType, keyId) then Raised
      else
        var payload := Decode(decoded.value.payload.text);
        if payload.None? then Raised
        else
          var statement := scheme.codec.loads(payload.value);
          var canonical := scheme.codec.dumps(decoded.value);
          if statement.Raised? || !IsObject(statement.value)
             || scheme.codec.dumps(statement.value) != Returned(payload.value) || canonical.Raised?
          then Raised
          else Returned(Opened(decoded.value, canonical.value, payload.value, statement.value))
  }

  /** The verified result. */
  datatype Attestation = Attestation(
    adapterId: string, verifierId: string, keyId: string, id: string, statement: Bytes, envelope: Bytes,
    evidenceSha256: string, issuedAt: real, expiresAt: real, passed: bool, checks: seq<Check>)

  /** The envelope is the one encoding of this statement and signature under the key id. */
  ghost predicate Encodes(scheme: Scheme, envelope: Bytes, keyId: string, statement: Bytes, signature: Bytes) {
    && |envelope| <= MAX_ENVELOPE
    && scheme.codec.dumps(Envelope(scheme.payloadType, keyId, statement, signature)) == Returned(envelope)
  }

  /** What acceptance means: the canonical envelope of a signed canonical statement with
      acceptable terms. */
  ghost predicate Authentic(scheme: Scheme, v: Profile, envelope: Bytes, binding: Binding, r: Requirement,
                            now: Option<real>, payload: Bytes, signature: Bytes, statement: Doc, t: Terms)
  {
    && Encodes(scheme, envelope, r.keyId, payload, signature)
    && scheme.codec.dumps(statement) == Returned(payload)
    && scheme.verify(signature, Signed(scheme, payload))
    && Accepts(v, statement, binding, r, now, t)
  }

  /** Opening an authentic envelope gives back its parts. */
  lemma {:induction false} OpenAuthentic(
      scheme: Scheme, envelope: Bytes, keyId: string, payload: Bytes, signature: Bytes, statement: Doc)
    requires Lawful(scheme.codec) && Encodes(scheme, envelope, keyId, payload, signature)
    requires scheme.codec.dumps(statement) == Returned(payload) && IsObject(statement)
    ensures Open(scheme, envelope, keyId)
         == Returned(Opened(Envelope(scheme.payloadType, keyId, payload, signature), envelope, payload, statement))
  {
    DecodeEncode(payload);
  }

  /** What the byte comparisons after opening leave as possibilities. */
  lemma {:induction false} OpenedCanonical(scheme: Scheme, envelope: Bytes, keyId: string, signature: Bytes)
    requires Lawful(scheme.codec)
    requires var o := Open(scheme, envelope, keyId);
      && o.Returned? && o.value.canonical == envelope
      && o.value.document.payload.text == Encode(o.value.payload)
      && o.value.document.signatures.items[0].signature.text == Encode(signature)
    ensures var o := Open(scheme, envelope, keyId).value;
      && o.document == Envelope(scheme.payloadType, keyId, o.payload, signature)
      && Encodes(scheme, envelope, keyId, o.payload, signature)
      && scheme.codec.dumps(o.statement) == Returned(o.payload)
  {
    var o := Open(scheme, envelope, keyId).value;
    assert o.document.signatures.items == [SignatureObj(Str(keyId), Str(Encode(signature)))];
  }

  /** Verify a version 2 evaluation, live (`now`) or for history (no time). */
  method VerifyEvaluation(
      scheme: Scheme, v: Profile, envelope: Bytes, binding: Binding, r: Requirement, now: Option<real>)
    returns (
      res: Attempt<Attestation>, ghost payload: Bytes, ghost signature: Bytes, ghost statement: Doc, ghost t: Terms)
    requires Lawful(scheme.codec) && !v.authority
    ensures res.Returned? ==>
      && Authentic(scheme, v, envelope, binding, r, now, payload, signature, statement, t)
      && res.value == Attestation(r.adapterId, r.verifierId, r.keyId, t.id, payload, envelope, scheme.sha256(envelope),
                                  t.issuedAt, t.expiresAt, AllPassed(t.checks), t.checks)
    ensures res.Raised? ==>
      forall p, s, d, x :: !Authentic(scheme, v, envelope, binding, r, now, p, s, d, x)
  {
    payload, signature, statement, t := [], [], Null, Terms("", 0.0, 0.0, []);
    forall p, s, d, x | Authentic(scheme, v, envelope, binding, r, now, p, s, d, x)
      ensures Open(scheme, envelope, r.keyId)
           == Returned(Opened(Envelope(scheme.payloadType, r.keyId, p, s), envelope, p, d))
             && Decode(Encode(s)) == Some(s)
    {
      OpenAuthentic(scheme, envelope, r.keyId, p, s, d);
      DecodeEncode(s);
    }
    var attempt := Open(scheme, envelope, r.keyId);
    if attempt.Raised? || attempt.value.canonical != envelope { return Raised, payload, signature, statement, t; }
    var o := attempt.value;
    var text := o.document.signatures.items[0].signature.text;
    var decoded := Decode(text);
    if decoded.None? || o.document.payload.text != Encode(o.payload) || text != Encode(decoded.value)
       || !scheme.verify(decoded.value, Signed(scheme, o.payload)) {
      return Raised, payload, signature, statement, t;
    }
    OpenedCanonical(scheme, envelope, r.keyId, decoded.value);
    var terms := Validate(v, o.statement, binding, r, now);
    if terms.Raised? { return Raised, payload, signature, statement, t; }
    payload, signature, statement, t := o.payload, decoded.value, o.statement, terms.value;
    res := Returned(Attestation(r.adapterId, r.verifierId, r.keyId, terms.value.id, o.payload, envelope,
                                scheme.sha256(envelope), terms.value.issuedAt, terms.value.expiresAt,
                                AllPassed(terms.value.checks), terms.value.checks));
  }

  /** An accepted envelope has one reading: statement bytes, signature, statement and terms. */
  lemma {:induction false} AuthenticIsDetermined(
      scheme: Scheme, v: Profile, envelope: Bytes, binding: Binding, r: Requirement, now: Option<real>,
      now': Option<real>, p: Bytes, p': Bytes, s: Bytes, s': Bytes, d: Doc, d': Doc, t: Terms, t': Terms)
    requires Lawful(scheme.codec)
    requires Authentic(scheme, v, envelope, binding, r, now, p, s, d, t)
    requires Authentic(scheme, v, envelope, binding, r, now', p', s', d', t')
    ensures p == p' && s == s' && d == d' && t == t'
  {
    OpenAuthentic(scheme, envelope, r.keyId, p, s, d);
    OpenAuthentic(scheme, envelope, r.keyId, p', s', d');
    var e, e' := Envelope(scheme.payloadType, r.keyId, p, s), Envelope(scheme.payloadType, r.keyId, p', s');
    assert e.signatures.items[0].signature.text == e'.signatures.items[0].signature.text;
    EncodeInjective(s, s');
    TermsAreDetermined(v, d, binding, r, now, now', t, t');
  }

  /** Live verification at a time is historical verification inside the lifetime. */
  lemma {:induction false} LiveIsHistoricalEnvelope(
      scheme: Scheme, v: Profile, envelope: Bytes, binding: Binding, r: Requirement, now: real, p: Bytes, s: Bytes,
      d: Doc, t: Terms)
    ensures Authentic(scheme, v, envelope, binding, r, Some(now), p, s, d, t) <==>
      Authentic(scheme, v, envelope, binding, r, None, p, s, d, t) && t.issuedAt <= now <= t.expiresAt
  {
    LiveIsHistoricalInTime(v, d, binding, r, now, t);
  }

  /** A signature covers one statement only. */
  lemma {:induction false} SignedBytesAreDistinct(scheme: Scheme, p: Bytes, p': Bytes)
    requires Signed(scheme, p) == Signed(scheme, p')
    ensures p == p'
  {
    Dsse.PreAuthInjective(Ascii(scheme.payloadType), p, Ascii(scheme.payloadType), p');
  }

  /** The checks of the result record all hold for what verification returns. */
  ghost predicate RecordAccepts(a: Attestation, scheme: Scheme, v: Profile) {
    && SafeId(a.adapterId) && SafeId(a.verifierId) && SafeId(a.keyId) && SafeId(a.id)
    && a.evidenceSha256 == scheme.sha256(a.envelope) && Sha256Text(a.evidenceSha256)
    && 0.0 <= a.issuedAt < a.expiresAt
    && a.checks != [] && Canonical(a.checks, ID) && a.passed == AllPassed(a.checks)
    && var statement := scheme.codec.loads(a.statement);
      && statement.Returned? && scheme.codec.dumps(statement.value) == Returned(a.statement)
      && statement.value.StatementObj? && statement.value.predicateType == Str(v.predicateType)
      && statement.value.claim.PredicateObj?
      && Same(statement.value.claim.outcome, OutcomeObj(Bool(a.passed), Arr(CheckDocs(a.checks))))
      && var m := statement.value.claim.attestation;
        && m.MetadataObj? && m.adapter == Str(a.adapterId) && m.verifier == Str(a.verifierId) && m.key == Str(a.keyId)
        && m.attestationId == Str(a.id) && m.issuedAt == Number(a.issuedAt) && m.expiresAt == Number(a.expiresAt)
  }

  lemma {:induction false} RecordNeverRefuses(
      scheme: Scheme, v: Profile, envelope: Bytes, binding: Binding, r: Requirement, now: Option<real>, p: Bytes,
      s: Bytes, d: Doc, t: Terms)
    requires Lawful(scheme.codec) && SafeId(r.adapterId) && SafeId(r.verifierId) && SafeId(r.keyId)
    requires Sha256Text(scheme.sha256(envelope)) && Authentic(scheme, v, envelope, binding, r, now, p, s, d, t)
    ensures RecordAccepts(Attestation(r.adapterId, r.verifierId, r.keyId, t.id, p, envelope, scheme.sha256(envelope),
                                      t.issuedAt, t.expiresAt, AllPassed(t.checks), t.checks), scheme, v)
  {
    SameReflexive(Outcome(t));
  }

  // ----- creation

  /** The encoding of the statement built from given terms. */
  function StatementBytes(scheme: Scheme, v: Profile, binding: Binding, r: Requirement, t: Terms): Attempt<Bytes> {
    scheme.codec.dumps(Statement(v, binding, r, t.(checks := Sort(t.checks, ID))))
  }

  /** The encoding of the envelope around a statement and its signature. */
  function EnvelopeBytes(scheme: Scheme, keyId: string, statement: Bytes, signature: Bytes): Attempt<Bytes> {
    scheme.codec.dumps(Envelope(scheme.payloadType, keyId, statement, signature))
  }

  /** Terms a statement can be built from. */
  ghost predicate Buildable(binding: Binding, t: Terms) {
    SafeId(t.id) && LifetimeInside(binding, t.issuedAt, t.expiresAt) && t.checks != [] && DistinctKeys(t.checks, ID)
  }

  /** Build, encode, sign and wrap a statement: the key must be the required one, and the result is
      the canonical envelope over the sorted statement and the signature of its pre-authentication encoding. */
  method CreateEnvelope(scheme: Scheme, v: Profile, sign: Bytes -> Bytes, publicKeySha256: string, binding: Binding,
                        r: Requirement, t: Terms)
    returns (res: Attempt<Bytes>)
    ensures res.Returned? ==> publicKeySha256 == r.publicKeySha256 && Buildable(binding, t)
    ensures publicKeySha256 == r.publicKeySha256 && Buildable(binding, t) ==>
      var payload := StatementBytes(scheme, v, binding, r, t);
      res == if payload.Raised? then Raised
             else EnvelopeBytes(scheme, r.keyId, payload.value, sign(Signed(scheme, payload.value)))
  {
    if publicKeySha256 != r.publicKeySha256 { return Raised; }
    var statement := Build(v, binding, r, t);
    if statement.Raised? { return Raised; }
    var payload := scheme.codec.dumps(statement.value);
    if payload.Raised? { return Raised; }
    var signature := sign(Signed(scheme, payload.value));
    res := scheme.codec.dumps(Envelope(scheme.payloadType, r.keyId, payload.value, signature));
  }

  lemma {:induction false} SortedTermsAdmissible(
      v: Profile, binding: Binding, r: Requirement, now: Option<real>, t: Terms)
    requires Buildable(binding, t)
    requires (forall c | c in t.checks :: c.Valid()) && !v.authority
    ensures Admissible(v, binding, r, now, t.(checks := Sort(t.checks, ID))) <==>
      WithinLifetime(now, t) && RequirementOf(binding.policy, r.verifierId) == Some(r)
  {
    SortCanonical(t.checks, ID);
    var sorted := Sort(t.checks, ID);
    forall i | 0 <= i < |sorted| ensures sorted[i].Valid() { assert sorted[i] in sorted; }
  }

  /** What the creator returns is accepted exactly when it is within the size limit, the time is
      within the lifetime, and the binding's policy names this verifier. */
  lemma {:induction false} CreatedIsAccepted(
      scheme: Scheme, v: Profile, sign: Bytes -> Bytes, binding: Binding, r: Requirement, now: Option<real>, t: Terms,
      payload: Bytes, envelope: Bytes)
    requires Lawful(scheme.codec) && !v.authority && (forall m :: scheme.verify(sign(m), m))
    requires Buildable(binding, t) && forall c | c in t.checks :: c.Valid()
    requires StatementBytes(scheme, v, binding, r, t) == Returned(payload)
    requires EnvelopeBytes(scheme, r.keyId, payload, sign(Signed(scheme, payload))) == Returned(envelope)
    ensures (exists p, s, d, x :: Authentic(scheme, v, envelope, binding, r, now, p, s, d, x)) <==>
      |envelope| <= MAX_ENVELOPE && WithinLifetime(now, t) && RequirementOf(binding.policy, r.verifierId) == Some(r)
  {
    var sorted := t.(checks := Sort(t.checks, ID));
    var statement, signature := Statement(v, binding, r, sorted), sign(Signed(scheme, payload));
    SortedTermsAdmissible(v, binding, r, now, t);
    if |envelope| <= MAX_ENVELOPE && WithinLifetime(now, t) && RequirementOf(binding.policy, r.verifierId) == Some(r) {
      BuiltIsAccepted(v, binding, r, now, sorted);
      assert Authentic(scheme, v, envelope, binding, r, now, payload, signature, statement, sorted);
    }
    if p, s, d, x :| Authentic(scheme, v, envelope, binding, r, now, p, s, d, x) {
      OpenAuthentic(scheme, envelope, r.keyId, p, s, d);
      OpenAuthentic(scheme, envelope, r.keyId, payload, signature, statement);
      CreatedTerms(v, binding, r, now, sorted, x);
    }
  }

  /** Both kinds of refusal do occur for what the creator returned: it is refused a second after it
      expired, and at any time when it is longer than the limit. */
  lemma {:induction false} CreatedIsRefused(
      scheme: Scheme, v: Profile, sign: Bytes -> Bytes, binding: Binding, r: Requirement, now: Option<real>, t: Terms,
      payload: Bytes, envelope: Bytes)
    requires Lawful(scheme.codec) && !v.authority && (forall m :: scheme.verify(sign(m), m))
    requires Buildable(binding, t) && forall c | c in t.checks :: c.Valid()
    requires StatementBytes(scheme, v, binding, r, t) == Returned(payload)
    requires EnvelopeBytes(scheme, r.keyId, payload, sign(Signed(scheme, payload))) == Returned(envelope)
    requires now == Some(t.expiresAt + 1.0) || |envelope| == MAX_ENVELOPE + 1
    ensures !exists p, s, d, x :: Authentic(scheme, v, envelope, binding, r, now, p, s, d, x)
  {
    CreatedIsAccepted(scheme, v, sign, binding, r, now, t, payload, envelope);
  }

  /** The terms of the created statement are the ones it was created from. */
  lemma {:induction false} CreatedTerms(
      v: Profile, binding: Binding, r: Requirement, now: Option<real>, t: Terms, x: Terms)
    requires Accepts(v, Statement(v, binding, r, t), binding, r, now, x)
    ensures x == t
  {
    assert CheckDocs(t.checks) == CheckDocs(x.checks);
    forall i | 0 <= i < |t.checks| ensures t.checks[i] == x.checks[i] {
      assert CheckDoc(t.checks[i]) == CheckDocs(t.checks)[i] == CheckDoc(x.checks[i]);
    }
  }
}
