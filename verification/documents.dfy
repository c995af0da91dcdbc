/**
 Decoded JSON documents as the attestation code sees them. An object with one of the exact key
 sets the code tests for is a record of its own; `Obj` stands for every other key set.
 */
module Documents {
  import opened Basics

  datatype Doc =
    | Null
    | Bool(flag: bool)
    | Number(number: real)
    | Str(text: string)
    | Arr(items: seq<Doc>)
    | Obj(fields: map<string, Doc>)
    | StatementObj(statementType: Doc, subject: Doc, predicateType: Doc, claim: Doc)
    | SubjectObj(name: Doc, digest: Doc)
    | DigestObj(sha256: Doc)
    | PredicateObj(schemaVersion: Doc, binding: Doc, bindingSha256: Doc, attestation: Doc, outcome: Doc)
    | MetadataObj(
        attestationId: Doc, verifier: Doc, adapter: Doc, key: Doc, publicKey: Doc, spec: Doc, trustPolicy: Doc,
        issuedAt: Doc, expiresAt: Doc)
    | OutcomeObj(passed: Doc, checks: Doc)
    | CheckObj(checkId: Doc, checkPassed: Doc, evidence: Doc)
    | EnvelopeObj(payloadType: Doc, payload: Doc, signatures: Doc)
    | SignatureObj(keyId: Doc, signature: Doc)

  /** The number a value counts as in a comparison: booleans are 0 and 1. */
  function AsNumber(d: Doc): Option<real> {
    match d
    case Bool(flag) => Some(if flag then 1.0 else 0.0)
    case Number(n) => Some(n)
    case _ => None
  }

  /** Python's `==`: structural, except that booleans equal the numbers 0 and 1. */
  predicate Same(a: Doc, b: Doc)
    decreases b
  {
    if AsNumber(b).Some? then AsNumber(a) == AsNumber(b)
    else
      match b
      case Arr(items) => a.Arr? && |a.items| == |items| && forall i | 0 <= i < |items| :: Same(a.items[i], items[i])
      case Obj(fields) => a.Obj? && a.fields.Keys == fields.Keys
        && forall k | k in fields :: Same(a.fields[k], fields[k])
      case StatementObj(t, s, pt, p) =>
        a.StatementObj? && Same(a.statementType, t) && Same(a.subject, s) && Same(a.predicateType, pt)
          && Same(a.claim, p)
      case SubjectObj(n, d) => a.SubjectObj? && Same(a.name, n) && Same(a.digest, d)
      case DigestObj(h) => a.DigestObj? && Same(a.sha256, h)
      case PredicateObj(v, bd, bs, at, o) =>
        a.PredicateObj? && Same(a.schemaVersion, v) && Same(a.binding, bd) && Same(a.bindingSha256, bs)
        && Same(a.attestation, at) && Same(a.outcome, o)
      case MetadataObj(i, v, ad, k, pk, sp, tp, ia, ea) =>
        a.MetadataObj? && Same(a.attestationId, i) && Same(a.verifier, v) && Same(a.adapter, ad) && Same(a.key, k)
        && Same(a.publicKey, pk) && Same(a.spec, sp) && Same(a.trustPolicy, tp) && Same(a.issuedAt, ia)
        && Same(a.expiresAt, ea)
      case OutcomeObj(p, c) => a.OutcomeObj? && Same(a.passed, p) && Same(a.checks, c)
      case CheckObj(i, p, e) => a.CheckObj? && Same(a.checkId, i) && Same(a.checkPassed, p) && Same(a.evidence, e)
      case EnvelopeObj(t, p, s) => a.EnvelopeObj? && Same(a.payloadType, t) && Same(a.payload, p)
        && Same(a.signatures, s)
      case SignatureObj(k, s) => a.SignatureObj? && Same(a.keyId, k) && Same(a.signature, s)
      case _ => a == b
  }

  /** Free of the values that compare equal to something else. */
  predicate Unambiguous(d: Doc)
    decreases d
  {
    match d
    case Null => true
    case Bool(_) => false
    case Number(n) => n != 0.0 && n != 1.0
    case Str(_) => true
    case Arr(items) => forall i | 0 <= i < |items| :: Unambiguous(items[i])
    case Obj(fields) => forall k | k in fields :: Unambiguous(fields[k])
    case _ => false
  }

  lemma {:induction false} SameReflexive(d: Doc)
    ensures Same(d, d)
    decreases d
  {
    match d
    case Arr(items) => forall i | 0 <= i < |items| ensures Same(items[i], items[i]) { SameReflexive(items[i]); }
    case Obj(fields) => forall k | k in fields ensures Same(fields[k], fields[k]) { SameReflexive(fields[k]); }
    case StatementObj(t, s, pt, p) => SameReflexive(t); SameReflexive(s); SameReflexive(pt); SameReflexive(p);
    case SubjectObj(n, g) => SameReflexive(n); SameReflexive(g);
    case DigestObj(h) => SameReflexive(h);
    case PredicateObj(v, bd, bs, at, o) =>
      SameReflexive(v); SameReflexive(bd); SameReflexive(bs); SameReflexive(at); SameReflexive(o);
    case MetadataObj(i, v, ad, k, pk, sp, tp, ia, ea) =>
      SameReflexive(i); SameReflexive(v); SameReflexive(ad); SameReflexive(k); SameReflexive(pk);
      SameReflexive(sp); SameReflexive(tp); SameReflexive(ia); SameReflexive(ea);
    case OutcomeObj(p, c) => SameReflexive(p); SameReflexive(c);
    case CheckObj(i, p, e) => SameReflexive(i); SameReflexive(p); SameReflexive(e);
    case EnvelopeObj(t, p, s) => SameReflexive(t); SameReflexive(p); SameReflexive(s);
    case SignatureObj(k, s) => SameReflexive(k); SameReflexive(s);
    case _ =>
  }

  /** What equals an unambiguous document is that document. */
  lemma {:induction false} SameIsEqual(a: Doc, b: Doc)
    requires Same(a, b) && Unambiguous(b)
    ensures a == b
    decreases b
  {
    match b
    case Arr(items) =>
      forall i | 0 <= i < |items| ensures a.items[i] == items[i] { SameIsEqual(a.items[i], items[i]); }
    case Obj(fields) =>
      forall k | k in fields ensures a.fields[k] == fields[k] { SameIsEqual(a.fields[k], fields[k]); }
    case _ =>
  }

  /** The same document with booleans and the numbers 0 and 1 exchanged. */
  function Twin(d: Doc): Doc
    decreases d
  {
    match d
    case Bool(flag) => Number(if flag then 1.0 else 0.0)
    case Number(n) => if n == 0.0 then Bool(false) else if n == 1.0 then Bool(true) else d
    case Arr(items) => Arr(seq(|items|, i requires 0 <= i < |items| => Twin(items[i])))
    case Obj(fields) => Obj(map k | k in fields :: Twin(fields[k]))
    case _ => d
  }

  lemma {:induction false} TwinIsSame(d: Doc)
    ensures Same(Twin(d), d)
    decreases d
  {
    match d
    case Bool(_) =>
    case Number(_) =>
    case Arr(items) => forall i | 0 <= i < |items| ensures Same(Twin(items[i]), items[i]) { TwinIsSame(items[i]); }
    case Obj(fields) => forall k | k in fields ensures Same(Twin(fields[k]), fields[k]) { TwinIsSame(fields[k]); }
    case _ => SameReflexive(d);
  }

  /** A plain JSON tree without the special records. */
  predicate Tree(d: Doc)
    decreases d
  {
    match d
    case Arr(items) => forall i | 0 <= i < |items| :: Tree(items[i])
    case Obj(fields) => forall k | k in fields :: Tree(fields[k])
    case _ => d.Null? || d.Bool? || d.Number? || d.Str?
  }

  /** An ambiguous tree has a different twin. */
  lemma {:induction false} TwinDiffers(d: Doc)
    requires Tree(d) && !Unambiguous(d)
    ensures Twin(d) != d
    decreases d
  {
    match d
    case Arr(items) =>
      var i :| 0 <= i < |items| && !Unambiguous(items[i]);
      TwinDiffers(items[i]);
      assert Twin(d).items[i] != items[i];
    case Obj(fields) =>
      var k :| k in fields && !Unambiguous(fields[k]);
      TwinDiffers(fields[k]);
      assert Twin(d).fields[k] != fields[k];
    case _ =>
  }
}
