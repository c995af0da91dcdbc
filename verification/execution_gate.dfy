/**
 The dry-run execution preview: compare an earlier advisor receipt with a fresh one and record
 whether the same cell would still be admitted.
 */
module ExecutionGate {
  import opened Basics
  import opened CellContracts
  import opened HardFilters
  import opened Selector
  import opened Advisor
  import Ordering

  const MAX_TASK_CHARS: nat := 128 * 1024
  const MAX_RECEIPT_AGE: nat := 120

  datatype Receipt = Receipt(request: Request, advice: Advice, taskChars: nat, digest: string)
  {
    /** The receipt constructor's checks: advice bound to its request. */
    ghost predicate Valid() {
      && advice.Valid() && 0 < taskChars <= MAX_TASK_CHARS
      && advice.requestDigest == request.digest && advice.profile == request.profile
      && advice.evaluatedAt == request.evaluatedAt
    }
  }

  /** A version 1 policy: bounded age, compute-only risk, no tools. */
  datatype Policy = Policy(maxReceiptAge: nat, allowedRisks: set<string>, maxToolSurfaces: nat, digest: string)
  {
    predicate Valid() {
      0 < maxReceiptAge <= MAX_RECEIPT_AGE && allowedRisks == {"compute_only"} && maxToolSurfaces == 0
    }
  }

  datatype PreviewReason =
    | SourceNotRecommended | SourceFromFuture | SourceExpired | TaskFingerprintMismatch | TaskSizeMismatch
    | RequestSemanticsChanged | RiskClassBlocked | ToolSurfaceBlocked | CatalogDrift | EvaluationContractDrift
    | SelectedCellChanged | SelectedPassportChanged | FreshAdmissionBlocked

  datatype Preview = Preview(
    source: string, sourceRequest: string, current: string, currentRequest: string, policy: string, evaluatedAt: real,
    sourceCell: Option<string>, currentCell: Option<string>, sourcePassport: Option<string>,
      currentPassport: Option<string>,
    snapshot: string, passed: bool, reasons: set<PreviewReason>, taskChars: nat)
  {
    /** The preview constructor's checks. */
    predicate Valid() {
      && 0 < taskChars <= MAX_TASK_CHARS
      && (passed ==> reasons == {} && sourceCell.Some? && sourceCell == currentCell
                     && sourcePassport.Some? && sourcePassport == currentPassport)
      && (!passed ==> reasons != {})
    }
  }

  // ----- the selected passport

  /** `[item.passport_sha256 for item in candidates if item.cell_id == selected]`. */
  function Matches(candidates: seq<Assessment>, id: string): seq<string> {
    if candidates == [] then []
    else (if candidates[0].cellId == id then [candidates[0].passportDigest] else []) + Matches(candidates[1..], id)
  }

  function SelectedPassport(a: Advice): Attempt<Option<string>> {
    if a.selected.None? then Returned(None)
    else
      var matches := Matches(a.candidates, a.selected.value);
      if |matches| != 1 then Raised else Returned(Some(matches[0]))
  }

  lemma {:induction false} NoMatches(candidates: seq<Assessment>, id: string)
    requires forall i | 0 <= i < |candidates| :: candidates[i].cellId != id
    ensures Matches(candidates, id) == []
  {
    if candidates != [] { NoMatches(candidates[1..], id); }
  }

  lemma {:induction false} OneMatch(candidates: seq<Assessment>, k: nat)
    requires k < |candidates| && Ordering.Canonical(candidates, AssessedId)
    ensures Matches(candidates, candidates[k].cellId) == [candidates[k].passportDigest]
  {
    var id := candidates[k].cellId;
    var tail := candidates[1..];
    forall i, j | 0 <= i < j < |candidates| ensures candidates[i].cellId != candidates[j].cellId {
      assert Ordering.Less(AssessedId(candidates[i]), AssessedId(candidates[j]));
      Ordering.LessIrreflexive(candidates[i].cellId);
    }
    if k == 0 {
      NoMatches(tail, id);
    } else {
      assert forall i, j | 0 <= i < j < |tail| :: tail[i] == candidates[i + 1] && tail[j] == candidates[j + 1];
      assert Ordering.Canonical(tail, AssessedId) by {
        forall i, j | 0 <= i < j < |tail| ensures Ordering.Less(AssessedId(tail[i]), AssessedId(tail[j])) {
          assert Ordering.Less(AssessedId(candidates[i + 1]), AssessedId(candidates[j + 1]));
        }
      }
      OneMatch(tail, k - 1);
    }
  }

  /** Valid advice always has the passport of the cell it selects, and no other. */
  lemma {:induction false} PassportOfSelected(a: Advice)
    requires a.Valid()
    ensures SelectedPassport(a).Returned?
    ensures SelectedPassport(a).value.Some? <==> a.status.Recommended?
    ensures a.status.Recommended? ==>
      exists i :: 0 <= i < |a.candidates| && a.candidates[i].cellId == a.selected.value
                  && SelectedPassport(a).value == Some(a.candidates[i].passportDigest)
  {
    if a.status.Recommended? {
      var i :| 0 <= i < |a.candidates| && a.candidates[i].cellId == a.selected.value && a.candidates[i].paretoEligible;
      OneMatch(a.candidates, i);
    }
  }

  // ----- the reasons

  predicate SameSemantics(a: Request, b: Request) {
    a.demand.digest == b.demand.digest && a.profile == b.profile && a.intentFamily == b.intentFamily
    && a.offlineRequired == b.offlineRequired
  }

  /** Nothing stands against running the source's choice now: both recommended the same cell and
      passport for the same task and request, recently enough, within the policy. */
  predicate StillAdmitted(source: Receipt, policy: Policy, current: Receipt) {
    var s, f := source.request, current.request;
    && source.advice.status.Recommended? && current.advice.status.Recommended?
    && s.evaluatedAt <= f.evaluatedAt <= s.evaluatedAt + policy.maxReceiptAge as real
    && s.exactRequestFingerprint == f.exactRequestFingerprint && source.taskChars == current.taskChars
    && SameSemantics(s, f) && s.evaluationContract == f.evaluationContract
    && {s.demand.riskClass, f.demand.riskClass} <= policy.allowedRisks
    && |s.demand.toolSurfaces| <= policy.maxToolSurfaces && |f.demand.toolSurfaces| <= policy.maxToolSurfaces
    && source.advice.catalogDigest == current.advice.catalogDigest
    && source.advice.selected == current.advice.selected
    && SelectedPassport(source.advice) == SelectedPassport(current.advice)
  }

  /** When each reason is due. */
  predicate Due(reason: PreviewReason, source: Receipt, policy: Policy, current: Receipt) {
    var s, f := source.request, current.request;
    match reason
    case SourceNotRecommended => !source.advice.status.Recommended?
    case SourceFromFuture => s.evaluatedAt > f.evaluatedAt
    case SourceExpired => f.evaluatedAt - s.evaluatedAt > policy.maxReceiptAge as real
    case TaskFingerprintMismatch => s.exactRequestFingerprint != f.exactRequestFingerprint
    case TaskSizeMismatch => source.taskChars != current.taskChars
    case RequestSemanticsChanged => !SameSemantics(s, f)
    case RiskClassBlocked => s.demand.riskClass !in policy.allowedRisks || f.demand.riskClass !in policy.allowedRisks
    case ToolSurfaceBlocked =>
      |s.demand.toolSurfaces| > policy.maxToolSurfaces || |f.demand.toolSurfaces| > policy.maxToolSurfaces
    case CatalogDrift => source.advice.catalogDigest != current.advice.catalogDigest
    case EvaluationContractDrift => s.evaluationContract != f.evaluationContract
    case SelectedCellChanged => source.advice.selected != current.advice.selected
    case SelectedPassportChanged => SelectedPassport(source.advice) != SelectedPassport(current.advice)
    case FreshAdmissionBlocked => !current.advice.status.Recommended?
  }

  /** The reasons treated so far are recorded exactly when they are due. */
  ghost predicate Settled(reasons: set<PreviewReason>, treated: set<PreviewReason>, source: Receipt, policy: Policy,
                          current: Receipt)
  {
    forall reason :: reason in reasons <==> reason in treated && Due(reason, source, policy, current)
  }

  method AddWhen(condition: bool, reason: PreviewReason, reasons: set<PreviewReason>, ghost treated: set<PreviewReason>,
                 source: Receipt, policy: Policy, current: Receipt)
    returns (r: set<PreviewReason>, ghost treated': set<PreviewReason>)
    requires Settled(reasons, treated, source, policy, current) && (condition <==> Due(reason, source, policy, current))
    ensures treated' == treated + {reason} && Settled(r, treated', source, policy, current)
  {
    r, treated' := reasons, treated + {reason};
    if condition { r := r + {reason}; }
  }

  /** No reason is due exactly when the choice still stands. */
  lemma {:induction false} NoneDueIffStillAdmitted(source: Receipt, policy: Policy, current: Receipt)
    ensures (forall reason :: !Due(reason, source, policy, current)) <==> StillAdmitted(source, policy, current)
  {
    if StillAdmitted(source, policy, current) {
      assert source.request.demand.riskClass in policy.allowedRisks by {
        assert source.request.demand.riskClass in {source.request.demand.riskClass, current.request.demand.riskClass};
      }
      assert current.request.demand.riskClass in policy.allowedRisks by {
        assert current.request.demand.riskClass in {source.request.demand.riskClass, current.request.demand.riskClass};
      }
    } else {
      DueWitness(source, policy, current);
    }
  }

  lemma {:induction false} DueWitness(source: Receipt, policy: Policy, current: Receipt)
    requires !StillAdmitted(source, policy, current)
    ensures exists reason :: Due(reason, source, policy, current)
  {
    var s, f := source.request, current.request;
    assert Due(SourceNotRecommended, source, policy, current) || source.advice.status.Recommended?;
    assert Due(FreshAdmissionBlocked, source, policy, current) || current.advice.status.Recommended?;
    assert Due(SourceFromFuture, source, policy, current) || Due(SourceExpired, source, policy, current)
        || s.evaluatedAt <= f.evaluatedAt <= s.evaluatedAt + policy.maxReceiptAge as real;
    assert Due(TaskFingerprintMismatch, source, policy, current)
      || s.exactRequestFingerprint == f.exactRequestFingerprint;
    assert Due(TaskSizeMismatch, source, policy, current) || source.taskChars == current.taskChars;
    assert Due(RequestSemanticsChanged, source, policy, current) || SameSemantics(s, f);
    assert Due(RiskClassBlocked, source, policy, current)
      || {s.demand.riskClass, f.demand.riskClass} <= policy.allowedRisks;
    assert Due(ToolSurfaceBlocked, source, policy, current)
        || (|s.demand.toolSurfaces| <= policy.maxToolSurfaces && |f.demand.toolSurfaces| <= policy.maxToolSurfaces);
    assert Due(CatalogDrift, source, policy, current) || source.advice.catalogDigest == current.advice.catalogDigest;
    assert Due(EvaluationContractDrift, source, policy, current) || s.evaluationContract == f.evaluationContract;
    assert Due(SelectedCellChanged, source, policy, current) || source.advice.selected == current.advice.selected;
    assert Due(SelectedPassportChanged, source, policy, current)
        || SelectedPassport(source.advice) == SelectedPassport(current.advice);
  }

  /** The receipt's status and age. */
  method AgeReasons(source: Receipt, policy: Policy, current: Receipt)
    returns (reasons: set<PreviewReason>, ghost treated: set<PreviewReason>)
    ensures treated == {SourceNotRecommended, SourceFromFuture, SourceExpired}
    ensures Settled(reasons, treated, source, policy, current)
  {
    reasons, treated := AddWhen(!source.advice.status.Recommended?, SourceNotRecommended, {}, {}, source, policy,
      current);
    var from, to := source.request.evaluatedAt, current.request.evaluatedAt;
    if from > to {
      reasons, treated := AddWhen(true, SourceFromFuture, reasons, treated, source, policy, current);
      treated := treated + {SourceExpired};
    } else {
      treated := treated + {SourceFromFuture};
      reasons, treated := AddWhen(to - from > policy.maxReceiptAge as real, SourceExpired, reasons, treated,
                                  source, policy, current);
    }
  }

  /** The request's identity and semantics, and the policy's limits. */
  method RequestReasons(source: Receipt, policy: Policy, current: Receipt, before: set<PreviewReason>,
                        ghost done: set<PreviewReason>)
    returns (reasons: set<PreviewReason>, ghost treated: set<PreviewReason>)
    requires Settled(before, done, source, policy, current)
    ensures treated == done + {TaskFingerprintMismatch, TaskSizeMismatch, RequestSemanticsChanged, RiskClassBlocked,
                               ToolSurfaceBlocked}
    ensures Settled(reasons, treated, source, policy, current)
  {
    var s, f := source.request, current.request;
    reasons, treated := AddWhen(
      s.exactRequestFingerprint != f.exactRequestFingerprint, TaskFingerprintMismatch, before, done,
      source, policy, current);
    reasons, treated := AddWhen(
      source.taskChars != current.taskChars, TaskSizeMismatch, reasons, treated, source, policy, current);
    reasons, treated := AddWhen(
      !SameSemantics(s, f), RequestSemanticsChanged, reasons, treated, source, policy, current);
    reasons, treated := AddWhen(
      s.demand.riskClass !in policy.allowedRisks || f.demand.riskClass !in policy.allowedRisks,
      RiskClassBlocked, reasons, treated, source, policy, current);
    reasons, treated := AddWhen(
      |s.demand.toolSurfaces| > policy.maxToolSurfaces || |f.demand.toolSurfaces| > policy.maxToolSurfaces,
      ToolSurfaceBlocked, reasons, treated, source, policy, current);
  }

  /** Drift of the catalog, the evaluation contract and the choice. */
  method DriftReasons(source: Receipt, policy: Policy, current: Receipt, before: set<PreviewReason>,
                      ghost done: set<PreviewReason>)
    returns (reasons: set<PreviewReason>, ghost treated: set<PreviewReason>)
    requires Settled(before, done, source, policy, current)
    ensures treated == done + {CatalogDrift, EvaluationContractDrift, SelectedCellChanged, SelectedPassportChanged,
                               FreshAdmissionBlocked}
    ensures Settled(reasons, treated, source, policy, current)
  {
    reasons, treated := AddWhen(source.advice.catalogDigest != current.advice.catalogDigest, CatalogDrift, before, done,
                                source, policy, current);
    reasons, treated := AddWhen(source.request.evaluationContract != current.request.evaluationContract,
                                EvaluationContractDrift, reasons, treated, source, policy, current);
    reasons, treated := AddWhen(source.advice.selected != current.advice.selected, SelectedCellChanged,
                                reasons, treated, source, policy, current);
    reasons, treated := AddWhen(SelectedPassport(source.advice) != SelectedPassport(current.advice),
                                SelectedPassportChanged, reasons, treated, source, policy, current);
    reasons, treated := AddWhen(!current.advice.status.Recommended?, FreshAdmissionBlocked, reasons, treated,
                                source, policy, current);
  }

  /** Every reason, recorded exactly when it is due. */
  method PreviewReasons(source: Receipt, policy: Policy, current: Receipt) returns (reasons: set<PreviewReason>)
    ensures forall reason :: reason in reasons <==> Due(reason, source, policy, current)
  {
    ghost var treated;
    reasons, treated := AgeReasons(source, policy, current);
    reasons, treated := RequestReasons(source, policy, current, reasons, treated);
    reasons, treated := DriftReasons(source, policy, current, reasons, treated);
  }

  /** The preview never violates its own constructor, and passes exactly when the choice still stands. */
  method BuildPreview(source: Receipt, policy: Policy, current: Receipt) returns (r: Attempt<Preview>)
    requires source.Valid() && current.Valid() && policy.Valid()
    ensures r.Returned? && r.value.Valid()
    ensures forall reason :: reason in r.value.reasons <==> Due(reason, source, policy, current)
    ensures r.value.passed <==> StillAdmitted(source, policy, current)
    ensures r.value.source == source.digest && r.value.current == current.digest && r.value.policy == policy.digest
    ensures r.value.sourceRequest == source.request.digest && r.value.currentRequest == current.request.digest
    ensures r.value.sourceCell == source.advice.selected && r.value.currentCell == current.advice.selected
    ensures SelectedPassport(source.advice) == Returned(r.value.sourcePassport)
    ensures SelectedPassport(current.advice) == Returned(r.value.currentPassport)
    ensures r.value.snapshot == current.advice.snapshotDigest && r.value.taskChars == current.taskChars
    ensures r.value.evaluatedAt == current.request.evaluatedAt
  {
    PassportOfSelected(source.advice);
    PassportOfSelected(current.advice);
    var reasons := PreviewReasons(source, policy, current);
    var sourcePassport, currentPassport := SelectedPassport(source.advice), SelectedPassport(current.advice);
    NoneDueIffStillAdmitted(source, policy, current);
    r := Returned(Preview(
      source.digest, source.request.digest, current.digest, current.request.digest, policy.digest,
      current.request.evaluatedAt, source.advice.selected, current.advice.selected, sourcePassport.value,
      currentPassport.value, current.advice.snapshotDigest, reasons == {}, reasons, current.taskChars));
  }

  /** The only reason that is due. */
  ghost predicate OnlyDue(reason: PreviewReason, source: Receipt, policy: Policy, current: Receipt) {
    forall r :: Due(r, source, policy, current) <==> r == reason
  }

  /** When everything else still stands, each departure gives exactly its own reason. */
  lemma {:induction false} OneDepartureOneReason(source: Receipt, policy: Policy, current: Receipt, r: Request)
    requires StillAdmitted(source, policy, current)
    ensures forall n: nat | n != source.taskChars :: OnlyDue(TaskSizeMismatch, source, policy, current.(taskChars := n))
    ensures forall d | d != source.advice.catalogDigest ::
      OnlyDue(CatalogDrift, source, policy, current.(advice := current.advice.(catalogDigest := d)))
    ensures r == current.request.(exactRequestFingerprint := r.exactRequestFingerprint) != current.request ==>
      OnlyDue(TaskFingerprintMismatch, source, policy, current.(request := r))
    ensures r == current.request.(intentFamily := r.intentFamily) != current.request ==>
      OnlyDue(RequestSemanticsChanged, source, policy, current.(request := r))
    ensures r == current.request.(profile := r.profile) != current.request ==>
      OnlyDue(RequestSemanticsChanged, source, policy, current.(request := r))
    ensures r == current.request.(offlineRequired := r.offlineRequired) != current.request ==>
      OnlyDue(RequestSemanticsChanged, source, policy, current.(request := r))
    ensures r == current.request.(evaluationContract := r.evaluationContract) != current.request ==>
      OnlyDue(EvaluationContractDrift, source, policy, current.(request := r))
  {
  }

  lemma {:induction false} OneDemandOneReason(source: Receipt, policy: Policy, current: Receipt, d: Demand, at: real)
    requires StillAdmitted(source, policy, current)
    ensures d == current.request.demand.(digest := d.digest) != current.request.demand ==>
      OnlyDue(RequestSemanticsChanged, source, policy, current.(request := current.request.(demand := d)))
    ensures d == current.request.demand.(riskClass := d.riskClass) && d.riskClass !in policy.allowedRisks ==>
      OnlyDue(RiskClassBlocked, source, policy, current.(request := current.request.(demand := d)))
    ensures
      d == current.request.demand.(toolSurfaces := d.toolSurfaces) && |d.toolSurfaces| > policy.maxToolSurfaces ==>
      OnlyDue(ToolSurfaceBlocked, source, policy, current.(request := current.request.(demand := d)))
    ensures at < source.request.evaluatedAt ==>
      OnlyDue(SourceFromFuture, source, policy, current.(request := current.request.(evaluatedAt := at)))
    ensures at > source.request.evaluatedAt + policy.maxReceiptAge as real ==>
      OnlyDue(SourceExpired, source, policy, current.(request := current.request.(evaluatedAt := at)))
  {
    assert source.request.demand.riskClass in {source.request.demand.riskClass, current.request.demand.riskClass};
    assert current.request.demand.riskClass in {source.request.demand.riskClass, current.request.demand.riskClass};
  }

  // ----- end to end

  lemma {:induction false} SelectionAdmits(cells: seq<Passport>, x: Context) returns (i: nat)
    requires ValidCells(cells) && x.profile.Valid() && AllRankable(Eligible(Assessments(cells, x)))
    requires Selection(Assessments(cells, x), x.profile).Some?
    ensures i < |cells| && Selection(Assessments(cells, x), x.profile) == Some(cells[i].cellId)
    ensures Admits(cells[i], x.snapshot, x.request, x.profile)
  {
    AssessmentsSound(cells, x);
    var hard := Assessments(cells, x);
    SelectionIsBest(hard, x.profile);
    var w :| w in hard && Selection(hard, x.profile) == Some(w.cellId);
    assert BestEligible(w, hard, x.profile);
    i :| 0 <= i < |hard| && hard[i] == w;
  }

  lemma {:induction false} FinalKeeps(a: Assessment, e: seq<Assessment>, p: Profile)
    requires AllRankable(e) && p.Valid()
    ensures Final(a, e, p).cellId == a.cellId && Final(a, e, p).passportDigest == a.passportDigest
  {
  }

  lemma {:induction false} FinalKeepsPassport(cells: seq<Passport>, x: Context, i: nat)
    requires x.profile.Valid() && AllRankable(Eligible(Assessments(cells, x))) && i < |cells|
    ensures var out := Finals(Assessments(cells, x), x.profile)[i];
      out.cellId == cells[i].cellId && out.passportDigest == cells[i].digest
  {
    var hard := Assessments(cells, x);
    FinalKeeps(hard[i], Eligible(hard), x.profile);
  }

  /** The recommended cell of specified advice is an admitted cell of the catalog. */
  lemma {:induction false} RecommendedIsAdmitted(a: Advice, c: Catalog, x: Context) returns (i: nat)
    requires ValidCatalog(c) && x.profile.Valid() && AllRankable(Eligible(Assessments(c.cells, x)))
    requires Advises(a, c, x) && a.Valid() && a.status.Recommended?
    ensures GlobalCodes(x.snapshot, x.request, x.profile) == {}
    ensures i < |c.cells| && a.selected == Some(c.cells[i].cellId)
    ensures SelectedPassport(a) == Returned(Some(c.cells[i].digest))
    ensures Admits(c.cells[i], x.snapshot, x.request, x.profile)
  {
    CatalogCells(c);
    i := SelectionAdmits(c.cells, x);
    FinalKeepsPassport(c.cells, x, i);
    OneMatch(a.candidates, i);
  }

  /** A passed preview over fresh advice: the cell the source selected, under the same passport, is
      in the catalog and passes every hard filter on the fresh snapshot, so its effective peak plus
      the reserve fits the available memory of its pool. */
  lemma {:induction false} PassedPreviewAdmits(
      source: Receipt, policy: Policy, current: Receipt, c: Catalog, x: Context)
    requires source.Valid() && current.Valid() && policy.Valid() && ValidCatalog(c)
    requires x.request == current.request && x.profile.Valid() && AllRankable(Eligible(Assessments(c.cells, x)))
    requires Advises(current.advice, c, x) && StillAdmitted(source, policy, current)
    ensures GlobalCodes(x.snapshot, x.request, x.profile) == {}
    ensures current.request.demand.riskClass == "compute_only" && current.request.demand.toolSurfaces == {}
    ensures exists i :: 0 <= i < |c.cells| && source.advice.selected == Some(c.cells[i].cellId)
                        && SelectedPassport(source.advice) == Returned(Some(c.cells[i].digest))
                        && Admits(c.cells[i], x.snapshot, x.request, x.profile)
                        && HasHeadroom(c.cells[i], x.snapshot, x.profile)
  {
    var i := RecommendedIsAdmitted(current.advice, c, x);
    assert current.request.demand.riskClass in policy.allowedRisks;
    assert HasHeadroom(c.cells[i], x.snapshot, x.profile);
  }
}
