/**
 From stored payloads to the execution preview: a parsed receipt, read with its texts decoded, is
 a valid receipt of the preview, so a stored source that parses never makes the preview raise.
 */
module StoredPreview {
  import opened Basics
  import CellContracts
  import HardFilters
  import Advisor
  import Ordering
  import Gate = ExecutionGate
  import Stored = Receipts

  /** What the texts of a receipt stand for: times, rejection codes and reason codes. */
  datatype Decoding = Decoding(
    seconds: string -> real, code: string -> HardFilters.RejectionCode, reason: string -> Advisor.Reason)

  function SetOf(ids: seq<string>): set<string> { set id | id in ids }

  function ReadDemand(d: Stored.Demand): CellContracts.Demand
    requires d.contextTokens >= 0
  {
    CellContracts.Demand(SetOf(d.capabilities), SetOf(d.toolSurfaces), d.riskClass, d.contextTokens, d.digest)
  }

  function ReadRequest(r: Stored.Request, t: Decoding): CellContracts.Request
    requires r.demand.contextTokens >= 0
  {
    CellContracts.Request(
      r.fingerprint, r.intentFamily, ReadDemand(r.demand), r.evaluationContract, r.profile, t.seconds(r.evaluatedAt),
      r.offlineRequired, r.digest)
  }

  function ReadNumber(n: Option<Stored.Number>): Option<real> {
    if n.None? then None else Some(Stored.Float(n.value))
  }

  function ReadCandidate(c: Stored.Candidate, t: Decoding): HardFilters.Assessment {
    var m := c.metrics;
    HardFilters.Assessment(
      c.cellId, c.passport, c.hardEligible, c.paretoEligible, set id | id in c.rejections :: t.code(id),
      ReadNumber(m.successRate), ReadNumber(m.p95LatencyMs), m.pool, m.placement, m.peaks, ReadNumber(m.utility))
  }

  function ReadCandidates(cs: seq<Stored.Candidate>, t: Decoding): (r: seq<HardFilters.Assessment>)
    ensures |r| == |cs| && forall i | 0 <= i < |cs| :: r[i] == ReadCandidate(cs[i], t)
  {
    seq(|cs|, i requires 0 <= i < |cs| => ReadCandidate(cs[i], t))
  }

  function ReadAdvice(a: Stored.Advice, t: Decoding): Advisor.Advice {
    Advisor.Advice(
      a.catalog, a.request, a.snapshot, t.seconds(a.evaluatedAt), a.profile,
      if a.status == Stored.RECOMMENDED then Advisor.Recommended else Advisor.Abstained,
      a.selected, ReadCandidates(a.candidates, t), set id | id in a.reasons :: t.reason(id))
  }

  /** The receipt of the preview that a stored receipt stands for. */
  function Read(r: Stored.Receipt, t: Decoding): Gate.Receipt
    requires r.request.demand.contextTokens >= 0
  {
    Gate.Receipt(ReadRequest(r.request, t), ReadAdvice(r.advice, t), r.taskChars, r.digest)
  }

  lemma {:induction false} CandidateIsValid(c: Stored.Candidate, t: Decoding, x: Stored.Services)
    requires Stored.MakeCandidate(c, x) == Returned(c)
    ensures ReadCandidate(c, t).Valid()
  {
    assert Stored.MetricsFit(c);
    assert c.rejections == [] ==> ReadCandidate(c, t).rejectionCodes == {};
  }

  lemma {:induction false} CandidatesAreCanonical(cs: seq<Stored.Candidate>, t: Decoding)
    requires Stored.CandidatesSorted(cs)
    ensures Ordering.Canonical(ReadCandidates(cs, t), Advisor.AssessedId)
  {
  }

  lemma {:induction false} AdviceIsValid(a: Stored.Advice, t: Decoding, x: Stored.Services)
    requires Stored.GenuineAdvice(a, x)
    ensures ReadAdvice(a, t).Valid()
  {
    var read := ReadAdvice(a, t);
    CandidatesAreCanonical(a.candidates, t);
    forall i | 0 <= i < |a.candidates| ensures read.candidates[i].Valid() { CandidateIsValid(a.candidates[i], t, x); }
    assert a.reasons[0] in a.reasons && t.reason(a.reasons[0]) in read.reasons;
    if a.status == Stored.RECOMMENDED {
      var i :| 0 <= i < |a.candidates| && a.candidates[i].cellId == a.selected.value && a.candidates[i].paretoEligible;
      assert read.candidates[i].cellId == read.selected.value && read.candidates[i].paretoEligible;
    }
  }

  /** A genuine stored receipt reads as a valid one. */
  lemma {:induction false} GenuineReadsValid(r: Stored.Receipt, t: Decoding, x: Stored.Services)
    requires Stored.Genuine(r, x)
    ensures r.request.demand.contextTokens >= 0 && Read(r, t).Valid()
  {
    AdviceIsValid(r.advice, t, x);
  }

  /** Load, verify and preview a stored receipt: it raises exactly when the payload is rejected, and
      otherwise the preview is valid and passes exactly when the stored choice still stands. */
  method PreviewStored(
      payload: Stored.Receipt, x: Stored.Services, t: Decoding, policy: Gate.Policy, current: Gate.Receipt)
    returns (r: Attempt<Gate.Preview>)
    requires Stored.Lawful(x) && policy.Valid() && current.Valid()
    ensures r.Raised? <==> Stored.ParseReceipt(payload, x).Raised?
    ensures r.Returned? ==>
      var source := Stored.ParseReceipt(payload, x).value;
      && Stored.Genuine(source, x) && source.request.demand.contextTokens >= 0 && r.value.Valid()
      && r.value.source == payload.digest
      && (r.value.passed <==> Gate.StillAdmitted(Read(source, t), policy, current))
  {
    var parsed := Stored.ParseReceipt(payload, x);
    if parsed.Raised? { return Raised; }
    Stored.AcceptedReceiptReprints(payload, x);
    Stored.ParsedIsGenuine(payload, x);
    GenuineReadsValid(parsed.value, t, x);
    r := Gate.BuildPreview(Read(parsed.value, t), policy, current);
  }
}
