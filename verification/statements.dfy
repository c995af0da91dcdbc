/**
 Attestation statements: how they are built, and the validators that must accept exactly what is
 built. Version 1 grants authority and demands passing checks; version 2 reports pass or fail.
 */
module Statements {
  import opened Basics
  import opened Ordering
  import opened Documents

  /** The two kinds of statement and the fixed texts each carries. */
  datatype Profile = Profile(
    authority: bool, statementType: string, predicateType: string, schemaVersion: string, subjectPrefix: string)

  datatype Requirement = Requirement(
    verifierId: string, adapterId: string, keyId: string, publicKeySha256: string, specSha256: string)

  /** The workflow a statement is bound to; `payload` and the digests are those of its fields. */
  datatype Binding = Binding(
    workflowId: string, fingerprint: string, payload: Doc, bindingSha256: string, policy: seq<Requirement>,
    policySha256: string, createdAt: real, expiresAt: real)
  {
    ghost predicate Valid() { 0.0 <= createdAt < expiresAt && Tree(payload) }
  }

  datatype Check = Check(id: string, passed: bool, evidence: string)
  {
    predicate Valid() { SafeId(id) && Sha256Text(evidence) }
  }

  /** What a statement says beyond its binding and verifier. */
  datatype Terms = Terms(id: string, issuedAt: real, expiresAt: real, checks: seq<Check>)

  predicate LetterOrDigit(c: char) { 'A' <= c <= 'Z' || 'a' <= c <= 'z' || '0' <= c <= '9' }

  predicate SafeId(s: string) {
    1 <= |s| <= 128 && LetterOrDigit(s[0])
    && forall i | 1 <= i < |s| :: LetterOrDigit(s[i]) || s[i] == '.' || s[i] == '_' || s[i] == '-'
  }

  predicate Sha256Text(s: string) { |s| == 64 && forall i | 0 <= i < |s| :: '0' <= s[i] <= '9' || 'a' <= s[i] <= 'f' }

  function AttestationV1(): Profile {
    Profile(true, "https://in-toto.io/Statement/v1",
            "https://github.com/aantenore/myMoE/tree/main/docs/spec/independent-candidate-attestation/v1",
            "1.0", "urn:mymoe:candidate:")
  }

  function EvaluationV2(): Profile {
    Profile(false, "https://in-toto.io/Statement/v1",
            "https://github.com/aantenore/myMoE/tree/main/docs/spec/independent-candidate-evaluation/v2",
            "1.0", "urn:mymoe:candidate:")
  }

  const ID: Check -> string := (c: Check) => c.id

  function AllPassed(checks: seq<Check>): bool { forall i | 0 <= i < |checks| :: checks[i].passed }

  function CheckDoc(c: Check): Doc { CheckObj(Str(c.id), Bool(c.passed), Str(c.evidence)) }

  function CheckDocs(checks: seq<Check>): (docs: seq<Doc>)
    ensures |docs| == |checks| && forall i | 0 <= i < |docs| :: docs[i] == CheckDoc(checks[i])
  {
    seq(|checks|, i requires 0 <= i < |checks| => CheckDoc(checks[i]))
  }

  function Subject(v: Profile, binding: Binding): Doc {
    Arr([SubjectObj(Str(v.subjectPrefix + binding.workflowId), DigestObj(Str(binding.fingerprint)))])
  }

  function Metadata(binding: Binding, r: Requirement, t: Terms): Doc {
    MetadataObj(Str(t.id), Str(r.verifierId), Str(r.adapterId), Str(r.keyId), Str(r.publicKeySha256),
                Str(r.specSha256), Str(binding.policySha256), Number(t.issuedAt), Number(t.expiresAt))
  }

  /** The statement of some terms, around a given document in the place of the binding. */
  function StatementWith(v: Profile, payload: Doc, binding: Binding, r: Requirement, t: Terms): Doc {
    StatementObj(
      Str(v.statementType), Subject(v, binding), Str(v.predicateType),
      PredicateObj(Str(v.schemaVersion), payload, Str(binding.bindingSha256), Metadata(binding, r, t), Outcome(t)))
  }

  function Statement(v: Profile, binding: Binding, r: Requirement, t: Terms): Doc {
    StatementWith(v, binding.payload, binding, r, t)
  }

  predicate LifetimeInside(binding: Binding, issuedAt: real, expiresAt: real) {
    0.0 <= issuedAt < expiresAt && binding.createdAt <= issuedAt && expiresAt <= binding.expiresAt
  }

  /** `len(set(ids)) != len(ids)`. */
  predicate Repeats(checks: seq<Check>)
    ensures Repeats(checks) <==> !DistinctKeys(checks, ID)
  {
    exists i, j | 0 <= i < j < |checks| :: checks[i].id == checks[j].id
  }

  /** The two builders: checks in any order, sorted by id. */
  method Build(v: Profile, binding: Binding, r: Requirement, t: Terms) returns (doc: Attempt<Doc>)
    ensures doc.Returned? <==>
      SafeId(t.id) && LifetimeInside(binding, t.issuedAt, t.expiresAt) && t.checks != [] && DistinctKeys(t.checks, ID)
    ensures doc.Returned? ==> doc.value == Statement(v, binding, r, t.(checks := Sort(t.checks, ID)))
  {
    if !SafeId(t.id) || !LifetimeInside(binding, t.issuedAt, t.expiresAt) { return Raised; }
    if t.checks == [] || Repeats(t.checks) { return Raised; }
    return Returned(Statement(v, binding, r, t.(checks := Sort(t.checks, ID))));
  }

  // ----- what the validators accept

  function RequirementOf(policy: seq<Requirement>, verifierId: string): Option<Requirement> {
    if policy == [] then None
    else if policy[0].verifierId == verifierId then Some(policy[0])
    else RequirementOf(policy[1..], verifierId)
  }

  predicate WithinLifetime(now: Option<real>, t: Terms) { now.Some? ==> t.issuedAt <= now.value <= t.expiresAt }

  /** The terms a validator lets through, at a time or (for version 2) at no particular time. */
  ghost predicate Admissible(v: Profile, binding: Binding, r: Requirement, now: Option<real>, t: Terms) {
    && SafeId(t.id) && LifetimeInside(binding, t.issuedAt, t.expiresAt) && WithinLifetime(now, t)
    && t.checks != [] && (forall i | 0 <= i < |t.checks| :: t.checks[i].Valid()) && Canonical(t.checks, ID)
    && (v.authority ==> AllPassed(t.checks))
    && (!v.authority ==> RequirementOf(binding.policy, r.verifierId) == Some(r))
  }

  /** The statement states these terms; only its binding is compared by Python equality. */
  ghost predicate States(v: Profile, statement: Doc, binding: Binding, r: Requirement, t: Terms) {
    && statement.StatementObj? && statement.claim.PredicateObj? && Same(statement.claim.binding, binding.payload)
    && statement == StatementWith(v, statement.claim.binding, binding, r, t)
  }

  ghost predicate Accepts(v: Profile, statement: Doc, binding: Binding, r: Requirement, now: Option<real>, t: Terms) {
    Admissible(v, binding, r, now, t) && States(v, statement, binding, r, t)
  }

  // ----- the validators

  function ReadCheck(v: Profile, raw: Doc): (c: Option<Check>)
    ensures c.Some? <==>
      raw.CheckObj? && raw.checkId.Str? && SafeId(raw.checkId.text) && raw.evidence.Str?
        && Sha256Text(raw.evidence.text)
      && raw.checkPassed.Bool? && (v.authority ==> raw.checkPassed.flag)
    ensures c.Some? ==> raw == CheckDoc(c.value) && c.value.Valid() && (v.authority ==> c.value.passed)
  {
    if raw.CheckObj? && raw.checkId.Str? && SafeId(raw.checkId.text) && raw.evidence.Str?
      && Sha256Text(raw.evidence.text)
       && raw.checkPassed.Bool? && (v.authority ==> raw.checkPassed.flag)
    then Some(Check(raw.checkId.text, raw.checkPassed.flag, raw.evidence.text))
    else None
  }

  lemma {:induction false} ReadCheckDoc(v: Profile, c: Check)
    requires c.Valid() && (v.authority ==> c.passed)
    ensures ReadCheck(v, CheckDoc(c)) == Some(c)
  {
  }

  /** The loop over the raw checks. */
  method CollectChecks(v: Profile, raws: seq<Doc>) returns (r: Attempt<seq<Check>>)
    ensures r.Returned? <==> forall i | 0 <= i < |raws| :: ReadCheck(v, raws[i]).Some?
    ensures r.Returned? ==> raws == CheckDocs(r.value)
    ensures r.Returned? ==> forall i | 0 <= i < |r.value| :: r.value[i].Valid() && (v.authority ==> r.value[i].passed)
  {
    var checks: seq<Check> := [];
    for i := 0 to |raws|
      invariant |checks| == i
      invariant forall k | 0 <= k < i :: ReadCheck(v, raws[k]) == Some(checks[k])
    {
      var c := ReadCheck(v, raws[i]);
      if c.None? { return Raised; }
      checks := checks + [c.value];
    }
    assert forall k | 0 <= k < |raws| :: raws[k] == CheckDoc(checks[k]);
    return Returned(checks);
  }

  function ReadTime(d: Doc): Option<real> { if d.Number? && d.number >= 0.0 then Some(d.number) else None }

  /** `ids == sorted(ids)` without repeats. */
  predicate Sorted(checks: seq<Check>)
    ensures Sorted(checks) <==> Canonical(checks, ID)
  {
    SortedIffCanonical(checks);
    Sort(checks, ID) == checks && !Repeats(checks)
  }

  lemma {:induction false} SortedIffCanonical(checks: seq<Check>)
    ensures Sort(checks, ID) == checks && DistinctKeys(checks, ID) <==> Canonical(checks, ID)
  {
    if DistinctKeys(checks, ID) { SortCanonical(checks, ID); }
    if Canonical(checks, ID) {
      forall i, j | 0 <= i < j < |checks| ensures ID(checks[i]) != ID(checks[j]) { LessIrreflexive(checks[i].id); }
      SortCanonical(checks, ID);
      CanonicalUnique(Sort(checks, ID), checks, ID);
    }
  }

  lemma {:induction false} SubjectIsExact(v: Profile, d: Doc, binding: Binding)
    ensures Same(d, Subject(v, binding)) <==> d == Subject(v, binding)
  {
    SameReflexive(Subject(v, binding));
    if Same(d, Subject(v, binding)) {
      var item, wanted := d.items[0], Subject(v, binding).items[0];
      assert Same(item, wanted);
      assert Same(item.name, wanted.name) && Same(item.digest.sha256, wanted.digest.sha256);
    }
  }

  /** Shape, subject, binding and verifier identity, in the order of the source. */
  predicate Addressed(v: Profile, statement: Doc, binding: Binding, r: Requirement) {
    && statement.StatementObj?
    && statement.statementType == Str(v.statementType) && statement.predicateType == Str(v.predicateType)
    && Same(statement.subject, Subject(v, binding))
    && statement.claim.PredicateObj?
    && statement.claim.schemaVersion == Str(v.schemaVersion)
    && Same(statement.claim.binding, binding.payload)
    && statement.claim.bindingSha256 == Str(binding.bindingSha256)
    && (!v.authority ==> RequirementOf(binding.policy, r.verifierId) == Some(r))
    && Identified(statement.claim.attestation, binding, r)
  }

  predicate Identified(m: Doc, binding: Binding, r: Requirement) {
    && m.MetadataObj?
    && m.verifier == Str(r.verifierId) && m.adapter == Str(r.adapterId) && m.key == Str(r.keyId)
    && m.publicKey == Str(r.publicKeySha256) && m.spec == Str(r.specSha256)
    && m.trustPolicy == Str(binding.policySha256)
  }

  /** The id and the lifetime of an identified statement. */
  function ReadMetadata(m: Doc, binding: Binding, now: Option<real>): Option<Terms>
    requires m.MetadataObj?
  {
    var issued, expires := ReadTime(m.issuedAt), ReadTime(m.expiresAt);
    if !m.attestationId.Str? || !SafeId(m.attestationId.text) || issued.None? || expires.None? then None
    else
      var t := Terms(m.attestationId.text, issued.value, expires.value, []);
      if !LifetimeInside(binding, t.issuedAt, t.expiresAt) || !WithinLifetime(now, t) then None else Some(t)
  }

  lemma {:induction false} MetadataRead(m: Doc, binding: Binding, r: Requirement, now: Option<real>, t: Terms)
    requires Identified(m, binding, r)
    ensures ReadMetadata(m, binding, now) == Some(t.(checks := [])) <==>
      m == Metadata(binding, r, t) && SafeId(t.id) && LifetimeInside(binding, t.issuedAt, t.expiresAt)
      && WithinLifetime(now, t)
  {
  }

  /** The outcome: a flag that agrees with the checks, which are non-empty, sorted and unique. */
  method ReadOutcome(v: Profile, outcome: Doc) returns (r: Attempt<seq<Check>>)
    ensures r.Returned? ==> OutcomeOf(v, outcome, r.value)
    ensures r.Raised? ==> forall checks :: !OutcomeOf(v, outcome, checks)
  {
    if !outcome.OutcomeObj? || !outcome.passed.Bool? || !outcome.checks.Arr? || outcome.checks.items == []
       || (v.authority && !outcome.passed.flag) {
      return Raised;
    }
    forall checks | OutcomeOf(v, outcome, checks)
      ensures forall i | 0 <= i < |outcome.checks.items| :: ReadCheck(v, outcome.checks.items[i]) == Some(checks[i])
    {
      forall i | 0 <= i < |checks| ensures ReadCheck(v, outcome.checks.items[i]) == Some(checks[i]) {
        ReadCheckDoc(v, checks[i]);
      }
    }
    var checks := CollectChecks(v, outcome.checks.items);
    if checks.Raised? || !Sorted(checks.value) || outcome.passed.flag != AllPassed(checks.value) { return Raised; }
    return checks;
  }

  ghost predicate OutcomeOf(v: Profile, outcome: Doc, checks: seq<Check>) {
    && checks != [] && outcome == OutcomeObj(Bool(AllPassed(checks)), Arr(CheckDocs(checks)))
    && (forall i | 0 <= i < |checks| :: checks[i].Valid()) && Canonical(checks, ID)
    && (v.authority ==> AllPassed(checks))
  }

  function Outcome(t: Terms): Doc { OutcomeObj(Bool(AllPassed(t.checks)), Arr(CheckDocs(t.checks))) }

  lemma {:induction false} SamePredicate(
      version: Doc, payload: Doc, payload': Doc, sha: Doc, metadata: Doc, outcome: Doc)
    requires Same(payload, payload')
    ensures Same(PredicateObj(version, payload, sha, metadata, outcome),
                 PredicateObj(version, payload', sha, metadata, outcome))
  {
    SameReflexive(version);
    SameReflexive(sha);
    SameReflexive(metadata);
    SameReflexive(outcome);
  }

  lemma {:induction false} SameStatement(a: Doc, b: Doc, c: Doc, d: Doc, d': Doc)
    requires Same(d, d')
    ensures Same(StatementObj(a, b, c, d), StatementObj(a, b, c, d'))
  {
    SameReflexive(a);
    SameReflexive(b);
    SameReflexive(c);
  }

  /** The final comparison with a freshly built statement never fails. */
  lemma {:induction false} SameAround(v: Profile, payload: Doc, binding: Binding, r: Requirement, t: Terms)
    requires Same(payload, binding.payload)
    ensures Same(StatementWith(v, payload, binding, r, t), Statement(v, binding, r, t))
  {
    var a, b := StatementWith(v, payload, binding, r, t), Statement(v, binding, r, t);
    SamePredicate(Str(v.schemaVersion), payload, binding.payload, Str(binding.bindingSha256),
      Metadata(binding, r, t), Outcome(t));
    SameStatement(Str(v.statementType), Subject(v, binding), Str(v.predicateType), a.claim, b.claim);
  }

  /** The checks, taken one by one, are together the predicate `Accepts`. */
  lemma {:induction false} AcceptsByParts(
      v: Profile, statement: Doc, binding: Binding, r: Requirement, now: Option<real>, t: Terms)
    ensures Accepts(v, statement, binding, r, now, t) <==>
      && Addressed(v, statement, binding, r)
      && ReadMetadata(statement.claim.attestation, binding, now) == Some(t.(checks := []))
      && OutcomeOf(v, statement.claim.outcome, t.checks)
  {
    if statement.StatementObj? && statement.claim.PredicateObj? {
      SubjectIsExact(v, statement.subject, binding);
      var m := statement.claim.attestation;
      assert m == Metadata(binding, r, t) ==> Identified(m, binding, r);
      if Identified(m, binding, r) { MetadataRead(m, binding, r, now, t); }
    }
  }

  /** Validation returns exactly the accepted terms, and raises exactly when there are none. */
  method Validate(v: Profile, statement: Doc, binding: Binding, r: Requirement, now: Option<real>)
    returns (res: Attempt<Terms>)
    requires v.authority ==> now.Some?
    ensures res.Returned? ==> Accepts(v, statement, binding, r, now, res.value)
    ensures res.Raised? ==> forall t :: !Accepts(v, statement, binding, r, now, t)
  {
    forall t ensures Accepts(v, statement, binding, r, now, t) <==>
      && Addressed(v, statement, binding, r)
      && ReadMetadata(statement.claim.attestation, binding, now) == Some(t.(checks := []))
      && OutcomeOf(v, statement.claim.outcome, t.checks)
    {
      AcceptsByParts(v, statement, binding, r, now, t);
    }
    if !Addressed(v, statement, binding, r) { return Raised; }
    var dated := ReadMetadata(statement.claim.attestation, binding, now);
    if dated.None? { return Raised; }
    var checks := ReadOutcome(v, statement.claim.outcome);
    if checks.Raised? { return Raised; }
    var t := dated.value.(checks := checks.value);
    assert t.(checks := []) == dated.value && Accepts(v, statement, binding, r, now, t);
    SameAround(v, statement.claim.binding, binding, r, t);
    res := if Same(statement, Statement(v, binding, r, t)) then Returned(t) else Raised;
  }

  // ----- validation against building

  /** What is built from admissible terms is accepted, with the checks in sorted order. */
  lemma {:induction false} BuiltIsAccepted(v: Profile, binding: Binding, r: Requirement, now: Option<real>, t: Terms)
    requires Admissible(v, binding, r, now, t)
    ensures Accepts(v, Statement(v, binding, r, t), binding, r, now, t)
  {
    SameReflexive(binding.payload);
  }

  /** A statement is accepted with one set of terms at most. */
  lemma {:induction false} TermsAreDetermined(
      v: Profile, statement: Doc, binding: Binding, r: Requirement, now: Option<real>, now': Option<real>, t: Terms,
      t': Terms)
    requires Accepts(v, statement, binding, r, now, t) && Accepts(v, statement, binding, r, now', t')
    ensures t == t'
  {
    assert CheckDocs(t.checks) == CheckDocs(t'.checks);
    forall i | 0 <= i < |t.checks| ensures t.checks[i] == t'.checks[i] {
      assert CheckDoc(t.checks[i]) == CheckDocs(t.checks)[i] == CheckDoc(t'.checks[i]);
    }
  }

  /** Live acceptance is historical acceptance inside the lifetime, with the same terms. */
  lemma {:induction false} LiveIsHistoricalInTime(
      v: Profile, statement: Doc, binding: Binding, r: Requirement, now: real, t: Terms)
    ensures Accepts(v, statement, binding, r, Some(now), t) <==>
      Accepts(v, statement, binding, r, None, t) && t.issuedAt <= now <= t.expiresAt
  {
  }

  /** Every accepted statement is the built one, byte for byte, exactly when the binding's document
      holds no boolean and no number 0 or 1. */
  lemma {:induction false} AcceptedIsBuiltIffUnambiguous(
      v: Profile, binding: Binding, r: Requirement, now: Option<real>, some: Terms)
    requires binding.Valid() && Admissible(v, binding, r, now, some)
    ensures
      (forall statement, t | Accepts(v, statement, binding, r, now, t) :: statement == Statement(v, binding, r, t))
      <==> Unambiguous(binding.payload)
  {
    if Unambiguous(binding.payload) {
      forall statement, t | Accepts(v, statement, binding, r, now, t) ensures statement == Statement(v, binding, r, t) {
        SameIsEqual(statement.claim.binding, binding.payload);
      }
    } else {
      var twin := StatementWith(v, Twin(binding.payload), binding, r, some);
      TwinIsSame(binding.payload);
      TwinDiffers(binding.payload);
      assert Accepts(v, twin, binding, r, now, some) && twin != Statement(v, binding, r, some);
    }
  }

  /** A concrete case: under a quorum of 1, a statement that says `true` in its place is accepted. */
  lemma {:induction false} BooleanQuorumIsAccepted(
      v: Profile, binding: Binding, r: Requirement, now: Option<real>, t: Terms, fields: map<string, Doc>,
      policy: map<string, Doc>)
    requires Admissible(v, binding, r, now, t) && binding.payload == Obj(fields)
    requires "verificationPolicy" in fields && fields["verificationPolicy"] == Obj(policy)
    requires "quorum" in policy && policy["quorum"] == Number(1.0)
    ensures var altered := Obj(fields["verificationPolicy" := Obj(policy["quorum" := Bool(true)])]);
      && Accepts(v, StatementWith(v, altered, binding, r, t), binding, r, now, t)
      && StatementWith(v, altered, binding, r, t) != Statement(v, binding, r, t)
  {
    var policy' := policy["quorum" := Bool(true)];
    var fields' := fields["verificationPolicy" := Obj(policy')];
    forall k | k in policy ensures Same(policy'[k], policy[k]) { SameReflexive(policy[k]); }
    assert Same(Obj(policy'), Obj(policy));
    forall k | k in fields ensures Same(fields'[k], fields[k]) { SameReflexive(fields[k]); }
    assert Same(Obj(fields'), Obj(fields));
    assert fields'["verificationPolicy"] != fields["verificationPolicy"] by {
      assert policy'["quorum"] != policy["quorum"];
    }
  }

  lemma {:induction false} PredicateTypesDiffer()
    ensures AttestationV1().predicateType != EvaluationV2().predicateType
  {
    assert |AttestationV1().predicateType| != |EvaluationV2().predicateType|;
  }

  /** Evaluation evidence is never accepted as authority, nor the other way round. */
  lemma {:induction false} VersionsDoNotMix(
      statement: Doc, binding: Binding, binding': Binding, r: Requirement, r': Requirement, now: Option<real>,
      now': Option<real>, t: Terms, t': Terms)
    requires Accepts(AttestationV1(), statement, binding, r, now, t)
    ensures !Accepts(EvaluationV2(), statement, binding', r', now', t')
  {
    PredicateTypesDiffer();
    MixedProfiles(AttestationV1(), EvaluationV2(), statement, binding, binding', r, r', now, now', t, t');
  }

  lemma {:induction false} MixedProfiles(
      v: Profile, v': Profile, statement: Doc, binding: Binding, binding': Binding, r: Requirement, r': Requirement,
      now: Option<real>, now': Option<real>, t: Terms, t': Terms)
    requires v.predicateType != v'.predicateType && Accepts(v, statement, binding, r, now, t)
    ensures !Accepts(v', statement, binding', r', now', t')
  {
  }

  lemma {:induction false} RequirementMeans(policy: seq<Requirement>, verifierId: string)
    ensures var r := RequirementOf(policy, verifierId);
      && (r.Some? ==> r.value in policy && r.value.verifierId == verifierId)
      && (r.None? ==> forall q | q in policy :: q.verifierId != verifierId)
  {
    if policy != [] && policy[0].verifierId != verifierId {
      RequirementMeans(policy[1..], verifierId);
      assert policy == [policy[0]] + policy[1..];
    }
  }

  /** What an accepted statement says, field by field. */
  lemma {:induction false} AcceptedSays(
      v: Profile, statement: Doc, binding: Binding, r: Requirement, now: Option<real>, t: Terms)
    requires Accepts(v, statement, binding, r, now, t)
    ensures statement.StatementObj? && statement.claim.PredicateObj? && statement.claim.attestation.MetadataObj?
    ensures statement.statementType == Str(v.statementType) && statement.predicateType == Str(v.predicateType)
    ensures statement.subject ==
      Arr([SubjectObj(Str(v.subjectPrefix + binding.workflowId), DigestObj(Str(binding.fingerprint)))])
    ensures statement.claim.schemaVersion == Str(v.schemaVersion)
    ensures statement.claim.bindingSha256 == Str(binding.bindingSha256)
    ensures var m := statement.claim.attestation;
      && m.attestationId == Str(t.id) && m.issuedAt == Number(t.issuedAt) && m.expiresAt == Number(t.expiresAt)
      && m.verifier == Str(r.verifierId) && m.adapter == Str(r.adapterId) && m.key == Str(r.keyId)
      && m.publicKey == Str(r.publicKeySha256) && m.spec == Str(r.specSha256)
      && m.trustPolicy == Str(binding.policySha256)
    ensures binding.createdAt <= t.issuedAt < t.expiresAt <= binding.expiresAt
    ensures now.Some? ==> t.issuedAt <= now.value <= t.expiresAt
    ensures v.authority ==> forall c | c in t.checks :: c.passed
    ensures !v.authority ==> r in binding.policy
  {
    RequirementMeans(binding.policy, r.verifierId);
  }

  /** Its outcome lists the checks in order of their ids, and passes exactly when all of them do. */
  lemma {:induction false} AcceptedOutcome(
      v: Profile, statement: Doc, binding: Binding, r: Requirement, now: Option<real>, t: Terms)
    requires Accepts(v, statement, binding, r, now, t)
    ensures var outcome := statement.claim.outcome;
      && outcome.OutcomeObj? && outcome.checks.Arr? && |outcome.checks.items| == |t.checks| > 0
      && outcome.passed == Bool(forall c | c in t.checks :: c.passed)
      && (forall i | 0 <= i < |t.checks| ::
            outcome.checks.items[i]
            == CheckObj(Str(t.checks[i].id), Bool(t.checks[i].passed), Str(t.checks[i].evidence)))
    ensures forall i, j | 0 <= i < j < |t.checks| :: LexicallyBefore(t.checks[i].id, t.checks[j].id)
  {
    assert (forall c | c in t.checks :: c.passed) <==> AllPassed(t.checks);
    forall i, j | 0 <= i < j < |t.checks| ensures LexicallyBefore(t.checks[i].id, t.checks[j].id) {
      assert Less(ID(t.checks[i]), ID(t.checks[j]));
      LessIffLexical(t.checks[i].id, t.checks[j].id);
    }
  }
}
