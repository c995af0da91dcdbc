/** What a passed benchmark rests on: every section of the artifact counts on its own. */
module ReleaseMeaning {
  import opened Basics
  import opened ReleaseGate
  import JsonSchema

  /** The section is an object whose status is this text. */
  predicate HasStatus(section: Json, status: string) {
    section.Obj? && JsonSchema.HasKey(section.fields, "status")
    && JsonSchema.ValueAt(section.fields, "status") == JsonSchema.Str(status)
  }

  /** Some section of the artifact is not as it must be. */
  ghost predicate Broken(m: Manifest, a: Artifact, tools: Tools) {
    || !tools.same(a.schemaVersion, m.schemaVersion)
    || !HasStatus(a.validation, "passed") || !HasStatus(a.readiness, "ready") || !HasStatus(a.execution, "complete")
    || !HasStatus(a.evidence.comparisons, "complete") || !HasStatus(a.evidence.gate, "passed")
    || !(JsonSchema.HasKey(a.evidence.gate.fields, "passed")
         && JsonSchema.ValueAt(a.evidence.gate.fields, "passed") == JsonSchema.Bool(true))
    || !a.provenance.git || !a.provenance.runtime
    || (exists item: ProvenanceItem :: !tools.same(a.provenance.claimed(item), a.provenance.actual(item)))
  }

  /** The metrics miss a variant, name another one, or plan another number of records. */
  ghost predicate Unplanned(m: Manifest, metrics: Json, tools: Tools) {
    || !metrics.Obj?
    || (exists i :: 0 <= i < |metrics.fields| && metrics.fields[i].key !in m.variants)
    || (exists v :: v in m.variants
                    && (!JsonSchema.HasKey(metrics.fields, v)
                        || !PlannedVariant(JsonSchema.ValueAt(metrics.fields, v), |m.caseIds| * m.repetitions, tools)))
  }

  /** The records miss a cell of the grid, hold one twice, or hold another one. */
  ghost predicate Uncovered(m: Manifest, records: seq<Record>) {
    || (exists i :: 0 <= i < |records| && (records[i].key.None? || !InGrid(records[i].key.value, m)))
    || (exists k: Key :: InGrid(k, m) && forall i | 0 <= i < |records| :: records[i].key != Some(k))
    || (exists i, j :: 0 <= i < j < |records| && records[i].key == records[j].key)
  }

  /** The evidence does not follow from the records. */
  ghost predicate Unreproduced(a: Artifact, tools: Tools) {
    || !tools.judged(a.records) || tools.recompute(a.records).Raised?
    || !tools.same(a.evidence.metrics, tools.recompute(a.records).value.metrics)
    || !tools.same(a.evidence.comparisons, tools.recompute(a.records).value.comparisons)
    || !tools.same(a.evidence.gate, tools.recompute(a.records).value.gate)
  }

  lemma {:induction false} CoveredOnce(m: Manifest, records: seq<Record>)
    requires Covers(records, m)
    ensures forall i, j | 0 <= i < j < |records| :: records[i].key != records[j].key
    ensures forall k: Key | InGrid(k, m) :: exists i :: 0 <= i < |records| && records[i].key == Some(k)
  {
    var keys := KeysOf(records);
    forall i, j | 0 <= i < j < |records| ensures records[i].key != records[j].key {
      assert keys[i] == records[i].key && keys[j] == records[j].key && Once(keys, keys[i]);
    }
    forall k: Key | InGrid(k, m) ensures exists i :: 0 <= i < |records| && records[i].key == Some(k) {
      assert Once(keys, Some(k));
      var i :| 0 <= i < |keys| && keys[i] == Some(k);
      assert records[i].key == Some(k);
    }
  }

  lemma {:induction false} PlannedByName(m: Manifest, metrics: Json, tools: Tools)
    requires PlannedMetrics(metrics, m, tools)
    ensures !Unplanned(m, metrics, tools)
  {
    forall v | v in m.variants
      ensures JsonSchema.HasKey(metrics.fields, v)
      ensures PlannedVariant(JsonSchema.ValueAt(metrics.fields, v), |m.caseIds| * m.repetitions, tools)
    {
      var i :| 0 <= i < |m.variants| && m.variants[i] == v;
    }
  }

  lemma {:induction false} DemonstratedIsFlawless(b: Benchmark, tools: Tools)
    requires Demonstrated(b, tools)
    ensures var m, a := b.file.inputs.value, b.file.artifact;
      && !Broken(m, a, tools) && !Unplanned(m, a.evidence.metrics, tools) && !Uncovered(m, a.records)
      && !Unreproduced(a, tools) && a.plannedRecords == |a.records| == |m.caseIds| * |m.variants| * m.repetitions
  {
    var m, a := b.file.inputs.value, b.file.artifact;
    CoveredOnce(m, a.records);
    PlannedByName(m, a.evidence.metrics, tools);
  }

  /** Any one of these alone fails a benchmark that has a complete result. */
  lemma {:induction false} AnyFlawFails(b: Benchmark, tools: Tools)
    requires b.Section? && b.file.Stored? && b.file.status == COMPLETE && b.file.inputs.Returned?
    requires var m, a := b.file.inputs.value, b.file.artifact;
      || Broken(m, a, tools) || Unplanned(m, a.evidence.metrics, tools) || Uncovered(m, a.records)
      || Unreproduced(a, tools) || a.plannedRecords != |a.records|
      || |a.records| != |m.caseIds| * |m.variants| * m.repetitions
    ensures !BenchmarkVerdict(b, tools).passed
  {
    assert |COMPLETE| != |BLOCKED|;
    if Demonstrated(b, tools) { DemonstratedIsFlawless(b, tools); }
  }

  /** Without a complete, readable result, only a skippable benchmark passes. */
  lemma {:induction false} NoResultNoPass(b: Benchmark, tools: Tools)
    requires !(b.Section? && b.file.Stored? && b.file.status == COMPLETE && b.file.inputs.Returned?)
    ensures BenchmarkVerdict(b, tools).passed <==> Skippable(b)
  {
  }
}
