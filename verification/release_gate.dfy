/**
 The release decision: the gate profile, the quality benchmark with its record coverage and
 recomputed evidence, and the summary. Other checks are arbitrary results.
 */
module ReleaseGate {
  import opened Basics
  import JsonSchema

  type Json = JsonSchema.Json

  /** A check's outcome; `eligible` is the optional `release_eligible`, absent meaning true. */
  datatype CheckResult = CheckResult(passed: bool, eligible: Option<bool>)
  {
    predicate AllowsRelease() { eligible.None? || eligible.value }
  }

  datatype Report = Report(profile: string, passed: bool, checksPassed: bool, releaseReady: bool)

  /** The configured benchmark mode: absent, a string, or another value and its text. */
  datatype ModeValue = Absent | Text(text: string) | Other(rendered: string)

  datatype Key = Key(variant: string, caseId: string, repetition: int)

  /** A stored record; `key` is None where it is no object or its repetition is no integer. */
  datatype Record = Record(key: Option<Key>, content: Json)

  /** The manifest; `settingsValid` covers expert, decision, evaluator and threshold. */
  datatype Manifest = Manifest(
    schemaVersion: Json, caseIds: seq<string>, variants: seq<string>, repetitions: int, storeOutputs: bool,
    settingsValid: bool)

  datatype Evidence = Evidence(metrics: Json, comparisons: Json, gate: Json)

  /** What the stored provenance must agree on with the files at hand. */
  datatype ProvenanceItem =
    | ManifestPath | ManifestContent | SourceConfigPath | SourceConfigContent | DatasetPath | DatasetContent
    | CaseIds | CaseCount | Variants | Repetitions | GenerationOverrides
    | BenchmarkImplementation | EvaluatorImplementation

  /** Claimed and actual values, and the outcomes of the git and runtime environment checks. */
  datatype Provenance = Provenance(
    claimed: ProvenanceItem -> Json, actual: ProvenanceItem -> Json, git: bool, runtime: bool)

  /** A stored result, section by section. */
  datatype Artifact = Artifact(
    schemaVersion: Json, validation: Json, readiness: Json, execution: Json, plannedRecords: int,
    records: seq<Record>, evidence: Evidence, provenance: Provenance)

  datatype ResultFile =
    | NoFile
    | Unreadable
    | Stored(status: string, blockedValid: bool, inputs: Attempt<Manifest>, artifact: Artifact)

  datatype Benchmark = NotAnObject | Section(mode: ModeValue, file: ResultFile)

  /** Python's `==` on documents, and the recomputation from records. */
  datatype Tools = Tools(
    same: (Json, Json) -> bool, judged: seq<Record> -> bool, recompute: seq<Record> -> Attempt<Evidence>)

  // ----- record coverage

  predicate Unique(names: seq<string>) { forall i, j | 0 <= i < j < |names| :: names[i] != names[j] }

  predicate Coherent(m: Manifest) {
    && m.caseIds != [] && (forall i | 0 <= i < |m.caseIds| :: m.caseIds[i] != "") && Unique(m.caseIds)
    && m.variants != [] && Unique(m.variants) && m.repetitions > 0 && m.settingsValid
  }

  /** One cell of the grid of variants, cases and repetitions. */
  predicate InGrid(k: Key, m: Manifest) {
    k.variant in m.variants && k.caseId in m.caseIds && 1 <= k.repetition <= m.repetitions
  }

  function KeysOf(records: seq<Record>): (keys: seq<Option<Key>>)
    ensures |keys| == |records| && forall i | 0 <= i < |keys| :: keys[i] == records[i].key
  {
    seq(|records|, i requires 0 <= i < |records| => records[i].key)
  }

  /** The counter over the stored records. */
  method CountObserved(records: seq<Record>) returns (counter: multiset<Option<Key>>)
    ensures counter == multiset(KeysOf(records))
  {
    counter := multiset{};
    for i := 0 to |records|
      invariant counter == multiset(KeysOf(records[..i]))
    {
      assert KeysOf(records[..i + 1]) == KeysOf(records[..i]) + [records[i].key];
      counter := counter + multiset{records[i].key};
    }
    assert records[..|records|] == records;
  }

  function One(b: bool): nat { if b then 1 else 0 }

  method CountVariants(base: multiset<Option<Key>>, variants: seq<string>, caseId: string, repetition: int)
    returns (counter: multiset<Option<Key>>)
    requires Unique(variants)
    ensures forall k: Key ::
      counter[Some(k)] == base[Some(k)] + One(k.variant in variants && k.caseId == caseId && k.repetition == repetition)
    ensures counter[None] == base[None]
  {
    counter := base;
    for i := 0 to |variants|
      invariant forall k: Key ::
        counter[Some(k)] == base[Some(k)]
          + One(k.variant in variants[..i] && k.caseId == caseId && k.repetition == repetition)
      invariant counter[None] == base[None]
    {
      assert variants[..i + 1] == variants[..i] + [variants[i]];
      counter := counter + multiset{Some(Key(variants[i], caseId, repetition))};
    }
    assert variants[..|variants|] == variants;
  }

  method CountCases(base: multiset<Option<Key>>, m: Manifest, repetition: int) returns (counter: multiset<Option<Key>>)
    requires Unique(m.variants) && Unique(m.caseIds)
    ensures forall k: Key ::
      counter[Some(k)] == base[Some(k)]
        + One(k.variant in m.variants && k.caseId in m.caseIds && k.repetition == repetition)
    ensures counter[None] == base[None]
  {
    counter := base;
    for i := 0 to |m.caseIds|
      invariant forall k: Key ::
        counter[Some(k)] == base[Some(k)]
          + One(k.variant in m.variants && k.caseId in m.caseIds[..i] && k.repetition == repetition)
      invariant counter[None] == base[None]
    {
      assert m.caseIds[..i + 1] == m.caseIds[..i] + [m.caseIds[i]];
      counter := CountVariants(counter, m.variants, m.caseIds[i], repetition);
    }
    assert m.caseIds[..|m.caseIds|] == m.caseIds;
  }

  /** The expected counter: every cell of the grid once, and nothing else. */
  method CountExpected(m: Manifest) returns (counter: multiset<Option<Key>>)
    requires Unique(m.variants) && Unique(m.caseIds)
    ensures forall k: Key :: counter[Some(k)] == One(InGrid(k, m))
    ensures counter[None] == 0
  {
    counter := multiset{};
    var repetition := 1;
    while repetition <= m.repetitions
      invariant 1 <= repetition && (m.repetitions > 0 ==> repetition <= m.repetitions + 1)
      invariant forall k: Key :: counter[Some(k)] == One(InGrid(k, m) && k.repetition < repetition)
      invariant counter[None] == 0
    {
      counter := CountCases(counter, m, repetition);
      repetition := repetition + 1;
    }
  }

  /** Exactly one position of the list holds the value. */
  ghost predicate Once<T(!new)>(s: seq<T>, x: T) {
    exists i :: 0 <= i < |s| && s[i] == x && forall j | 0 <= j < |s| && s[j] == x :: j == i
  }

  lemma {:induction false} CountedOnce<T(!new)>(s: seq<T>, x: T)
    ensures multiset(s)[x] == 0 <==> x !in s
    ensures multiset(s)[x] == 1 <==> Once(s, x)
  {
    if i :| 0 <= i < |s| && s[i] == x {
      var before, after := s[..i], s[i + 1..];
      assert s == before + [x] + after;
      assert multiset(s)[x] == multiset(before)[x] + 1 + multiset(after)[x];
      assert forall j | 0 <= j < i :: before[j] == s[j];
      assert forall j | i < j < |s| :: after[j - i - 1] == s[j];
      if x in before {
        var j :| 0 <= j < |before| && before[j] == x;
        assert s[j] == x && j != i;
      }
      if x in after {
        var j :| 0 <= j < |after| && after[j] == x;
        assert s[j + i + 1] == x;
      }
    }
  }

  /** Every cell of the grid has exactly one record, and every record is a cell of the grid. */
  ghost predicate Covers(records: seq<Record>, m: Manifest) {
    && (forall k: Key | InGrid(k, m) :: Once(KeysOf(records), Some(k)))
    && (forall i | 0 <= i < |records| :: records[i].key.Some? && InGrid(records[i].key.value, m))
  }

  lemma {:induction false} CountersEqualIffCovers(records: seq<Record>, m: Manifest, expected: multiset<Option<Key>>)
    requires (forall k: Key :: expected[Some(k)] == One(InGrid(k, m))) && expected[None] == 0
    ensures multiset(KeysOf(records)) == expected <==> Covers(records, m)
  {
    var keys := KeysOf(records);
    forall k: Key ensures multiset(keys)[Some(k)] == 1 <==> Once(keys, Some(k)) { CountedOnce(keys, Some(k)); }
    forall x ensures multiset(keys)[x] == 0 <==> x !in keys { CountedOnce(keys, x); }
    if multiset(keys) == expected {
      forall i | 0 <= i < |records| ensures records[i].key.Some? && InGrid(records[i].key.value, m) {
        assert keys[i] in keys;
        assert multiset(keys)[keys[i]] > 0;
      }
    }
    if Covers(records, m) {
      forall x ensures multiset(keys)[x] == expected[x] {
        if x in keys {
          var i :| 0 <= i < |keys| && keys[i] == x;
          assert records[i].key == x;
        } else if x.Some? && InGrid(x.value, m) {
          assert Once(keys, x);
        }
      }
    }
  }

  // ----- the benchmark check

  const REQUIRED: string := "required"
  const OFFLINE: string := "offline_optional"
  const COMPLETE: string := "complete"
  const BLOCKED: string := "blocked"
  const RELEASE: string := "release"
  const CI_OFFLINE: string := "ci_offline"

  function ModeText(mode: ModeValue): string {
    match mode
    case Absent => REQUIRED
    case Text(text) => text
    case Other(rendered) => rendered
  }

  const FAILED: CheckResult := CheckResult(false, Some(false))

  /** A skipped benchmark passes its check but never counts for a release. */
  const SKIPPED: CheckResult := CheckResult(true, Some(false))

  /** `isinstance(d, dict) and d.get(key) == value`, for a string or `True`. */
  predicate Has(d: Json, key: string, value: Json) {
    d.Obj? && JsonSchema.HasKey(d.fields, key) && JsonSchema.ValueAt(d.fields, key) == value
  }

  /** The metrics name exactly the variants, each with the planned number of records. */
  predicate PlannedMetrics(metrics: Json, m: Manifest, tools: Tools) {
    && metrics.Obj?
    && (forall i | 0 <= i < |metrics.fields| :: metrics.fields[i].key in m.variants)
    && (forall i | 0 <= i < |m.variants| ::
          JsonSchema.HasKey(metrics.fields, m.variants[i])
          && PlannedVariant(JsonSchema.ValueAt(metrics.fields, m.variants[i]), |m.caseIds| * m.repetitions, tools))
  }

  predicate PlannedVariant(d: Json, n: int, tools: Tools) {
    d.Obj? && JsonSchema.HasKey(d.fields, "planned")
    && tools.same(JsonSchema.ValueAt(d.fields, "planned"), JsonSchema.Int(n))
  }

  predicate ProvenanceMatches(p: Provenance, tools: Tools) {
    p.git && p.runtime && forall item: ProvenanceItem :: tools.same(p.claimed(item), p.actual(item))
  }

  /** The checks on the artifact that do not look at its records. */
  predicate Sound(m: Manifest, a: Artifact, tools: Tools) {
    && tools.same(a.schemaVersion, m.schemaVersion)
    && Has(a.validation, "status", JsonSchema.Str("passed")) && Has(a.readiness, "status", JsonSchema.Str("ready"))
    && Has(a.execution, "status", JsonSchema.Str("complete"))
    && PlannedMetrics(a.evidence.metrics, m, tools)
    && Has(a.evidence.comparisons, "status", JsonSchema.Str("complete"))
    && Has(a.evidence.gate, "status", JsonSchema.Str("passed")) && Has(a.evidence.gate, "passed", JsonSchema.Bool(true))
    && ProvenanceMatches(a.provenance, tools)
  }

  /** The stored records are complete and the stored evidence is what they recompute to. */
  ghost predicate Reproduced(m: Manifest, a: Artifact, tools: Tools) {
    var count := |m.caseIds| * |m.variants| * m.repetitions;
    && Coherent(m) && a.plannedRecords == count == |a.records| && Covers(a.records, m)
    && tools.judged(a.records)
    && var e := tools.recompute(a.records);
      e.Returned? && tools.same(a.evidence.metrics, e.value.metrics)
      && tools.same(a.evidence.comparisons, e.value.comparisons) && tools.same(a.evidence.gate, e.value.gate)
  }

  method CheckCoverage(m: Manifest, records: seq<Record>) returns (matches: bool)
    ensures matches <==> Coherent(m) && Covers(records, m)
  {
    if !Coherent(m) { return false; }
    var expected := CountExpected(m);
    var observed := CountObserved(records);
    CountersEqualIffCovers(records, m, expected);
    return observed == expected;
  }

  /** Recompute the evidence and compare it with what is stored. */
  method CheckEvidence(m: Manifest, a: Artifact, tools: Tools) returns (matches: bool)
    ensures matches <==> Reproduced(m, a, tools)
  {
    var count := |m.caseIds| * |m.variants| * m.repetitions;
    var covered := CheckCoverage(m, a.records);
    if a.plannedRecords != count || |a.records| != count || !covered || !tools.judged(a.records) { return false; }
    var e := tools.recompute(a.records);
    if e.Raised? { return false; }
    return tools.same(a.evidence.metrics, e.value.metrics) && tools.same(a.evidence.comparisons, e.value.comparisons)
           && tools.same(a.evidence.gate, e.value.gate);
  }

  /** A complete, readable and sound benchmark whose evidence is reproduced from its records. */
  ghost predicate Demonstrated(b: Benchmark, tools: Tools) {
    && b.Section? && b.file.Stored? && b.file.status == COMPLETE && b.file.inputs.Returned?
    && Sound(b.file.inputs.value, b.file.artifact, tools)
    && Reproduced(b.file.inputs.value, b.file.artifact, tools)
  }

  /** Without a result, or with a validly blocked one, an offline benchmark is skipped. */
  predicate Skippable(b: Benchmark) {
    && b.Section? && ModeText(b.mode) == OFFLINE
    && (b.file.NoFile? || (b.file.Stored? && b.file.status == BLOCKED && b.file.blockedValid))
  }

  /** What the benchmark check makes of a benchmark; a required one must store its outputs. */
  ghost function BenchmarkVerdict(b: Benchmark, tools: Tools): CheckResult {
    if Skippable(b) then SKIPPED
    else if !Demonstrated(b, tools) then FAILED
    else if ModeText(b.mode) == OFFLINE then CheckResult(true, Some(false))
    else if ModeText(b.mode) == REQUIRED && b.file.inputs.value.storeOutputs then CheckResult(true, Some(true))
    else FAILED
  }

  method CheckBenchmark(b: Benchmark, tools: Tools) returns (r: CheckResult)
    ensures r == BenchmarkVerdict(b, tools)
    ensures r.passed && r.AllowsRelease() <==>
      Demonstrated(b, tools) && ModeText(b.mode) == REQUIRED && b.file.inputs.value.storeOutputs
    ensures r.passed ==> b.Section? && (Demonstrated(b, tools) || ModeText(b.mode) == OFFLINE)
  {
    if b.NotAnObject? { return FAILED; }
    var mode := ModeText(b.mode);
    if mode != REQUIRED && mode != OFFLINE { return FAILED; }
    match b.file {
      case NoFile => return if mode == OFFLINE then SKIPPED else FAILED;
      case Unreadable => return FAILED;
      case Stored(status, blockedValid, inputs, artifact) =>
        if status == BLOCKED && mode == OFFLINE { return if blockedValid then SKIPPED else FAILED; }
        if status != COMPLETE || inputs.Raised? { return FAILED; }
        var reproduced := CheckEvidence(inputs.value, artifact, tools);
        var passed := Sound(inputs.value, artifact, tools) && reproduced
                      && (mode != REQUIRED || inputs.value.storeOutputs);
        return CheckResult(passed, Some(mode == REQUIRED && passed));
    }
  }

  // ----- the decision

  /** The mode each supported profile demands. */
  const EXPECTED_MODES: map<string, string> := map[RELEASE := REQUIRED, CI_OFFLINE := OFFLINE]

  /** A supported profile passes with its own mode, and only if the mode is written out. */
  function CheckProfile(profile: string, b: Benchmark): (r: CheckResult)
    ensures r.AllowsRelease()
    ensures r.passed <==>
      b.Section? && b.mode.Text? && (profile, b.mode.text) in {(RELEASE, REQUIRED), (CI_OFFLINE, OFFLINE)}
  {
    var mode := if b.Section? && b.mode.Text? then Some(b.mode.text) else None;
    var expected := if profile in EXPECTED_MODES then Some(EXPECTED_MODES[profile]) else None;
    CheckResult(profile in EXPECTED_MODES && mode == expected, None)
  }

  /** A profile that passes leaves the benchmark no choice of path. Under the release profile it passes
      exactly when it was demonstrated with stored outputs, and is not skipped; under the offline one,
      whatever it reports does not count for a release. */
  lemma {:induction false} ProfileFixesPath(profile: string, b: Benchmark, tools: Tools)
    requires CheckProfile(profile, b).passed
    ensures b.Section? && profile in {RELEASE, CI_OFFLINE}
    ensures profile == RELEASE <==> ModeText(b.mode) == REQUIRED
    ensures profile == CI_OFFLINE <==> ModeText(b.mode) == OFFLINE
    ensures profile == RELEASE ==>
      && !Skippable(b)
      && (BenchmarkVerdict(b, tools).passed <==> Demonstrated(b, tools) && b.file.inputs.value.storeOutputs)
    ensures profile == CI_OFFLINE ==>
      && !BenchmarkVerdict(b, tools).AllowsRelease()
      && (BenchmarkVerdict(b, tools).passed <==> Skippable(b) || Demonstrated(b, tools))
  {
    assert |RELEASE| == 7 && |CI_OFFLINE| == 10 && |REQUIRED| == 8 && |OFFLINE| == 16;
  }

  function Summarize(profile: string, checks: seq<CheckResult>): Report {
    var checksPassed := forall i | 0 <= i < |checks| :: checks[i].passed;
    var ready := checksPassed && profile == RELEASE && forall i | 0 <= i < |checks| :: checks[i].AllowsRelease();
    Report(profile, if profile == RELEASE then ready else profile == CI_OFFLINE && checksPassed, checksPassed, ready)
  }

  /** Exactly what a release needs. */
  ghost predicate Releasable(profile: string, b: Benchmark, others: seq<CheckResult>, tools: Tools) {
    && profile == RELEASE && Demonstrated(b, tools) && b.mode == Text(REQUIRED) && b.file.inputs.value.storeOutputs
    && forall i | 0 <= i < |others| :: others[i].passed && others[i].AllowsRelease()
  }

  /** The whole gate: ready for release exactly when the benchmark was required, ran, and its
      records reproduce its evidence; no skipped or offline path leads there. */
  method DecideRelease(profile: string, b: Benchmark, files: CheckResult, eval: CheckResult, holdout: CheckResult,
                       listeners: CheckResult, tools: Tools)
    returns (report: Report)
    ensures report.releaseReady <==> Releasable(profile, b, [files, eval, holdout, listeners], tools)
    ensures report.passed ==> report.checksPassed && profile in {RELEASE, CI_OFFLINE}
    ensures profile == RELEASE ==> (report.passed <==> report.releaseReady)
  {
    var gate := CheckProfile(profile, b);
    var benchmark := CheckBenchmark(b, tools);
    var checks := [gate, files, eval, holdout, benchmark, listeners];
    var others := [files, eval, holdout, listeners];
    report := Summarize(profile, checks);
    assert checks[0] == gate && checks[1] == files && checks[2] == eval && checks[3] == holdout
        && checks[4] == benchmark && checks[5] == listeners;
    assert others[0] == files && others[1] == eval && others[2] == holdout && others[3] == listeners;
    assert (forall i | 0 <= i < |checks| :: checks[i].passed && checks[i].AllowsRelease()) <==>
      gate.passed && benchmark.passed && benchmark.AllowsRelease()
      && forall i | 0 <= i < |others| :: others[i].passed && others[i].AllowsRelease();
  }
}
