/**
 Persisted advisor receipts. A record prints its fields one for one together with its digest, so
 a record and its payload are the same value here; `Make…` are the constructors, which normalize
 identifiers and check or compute the digest, and `Parse…` rebuild a record from a payload.
 */
module Receipts {
  import opened Basics
  import opened Ordering
  import opened Floats
  import CellContracts

  datatype Demand = Demand(
    workloadId: string, capabilities: seq<string>, toolSurfaces: seq<string>, riskClass: string, contextTokens: int,
    digest: string)

  datatype Request = Request(
    fingerprint: string, intentFamily: Option<string>, demand: Demand, evaluationContract: string, profile: string,
    evaluatedAt: string, offlineRequired: bool, digest: string)

  /** A number as a payload writes it: an integer, or a decimal, which loads as a float. */
  datatype Number = Whole(i: int) | Decimal(r: real)

  datatype Metrics = Metrics(
    successRate: Option<Number>, p95LatencyMs: Option<Number>, pool: Option<CellContracts.Pool>,
    placement: Option<CellContracts.Placement>, peaks: CellContracts.Peaks, utility: Option<Number>)

  datatype Candidate = Candidate(
    cellId: string, passport: string, hardEligible: bool, paretoEligible: bool, rejections: seq<string>,
    metrics: Metrics, digest: string)

  datatype Advice = Advice(
    catalog: string, request: string, snapshot: string, evaluatedAt: string, profile: string, status: string,
    selected: Option<string>, candidates: seq<Candidate>, reasons: seq<string>, applied: bool, authorizes: bool,
    networkUsed: bool, modelInvocations: nat, digest: string)

  datatype Receipt = Receipt(request: Request, advice: Advice, taskChars: nat, displayState: string, digest: string)

  /** What a digest is taken of: a record whose own digest is blank. */
  datatype Content =
    | OfDemand(demand: Demand) | OfRequest(request: Request) | OfCandidate(candidate: Candidate)
    | OfAdvice(advice: Advice) | OfReceipt(receipt: Receipt)

  /** Text and hashing services. */
  datatype Services = Services(
    strip: string -> string, safe: string -> bool, sha: string -> bool, utc: string -> Option<string>,
    hash: Content -> string, classify: Advice -> string)

  /** Safe identifiers carry no surrounding white space, canonical times are fixed, hashes are digests. */
  ghost predicate Lawful(x: Services) {
    && (forall s | x.safe(s) :: x.strip(s) == s)
    && (forall s | x.utc(s).Some? :: x.utc(x.utc(s).value) == x.utc(s))
    && (forall c :: x.sha(x.hash(c)) && x.hash(c) != "")
  }

  /** The digest does not collide on these two contents. */
  ghost predicate Apart(x: Services, c: Content, d: Content) { x.hash(c) == x.hash(d) ==> c == d }

  const MAX_TASK_CHARS: nat := 128 * 1024
  const MAX_CELLS: nat := 256

  function Self(): string -> string { (s: string) => s }

  function Strips(ids: seq<string>, x: Services): (r: seq<string>)
    ensures |r| == |ids| && forall i | 0 <= i < |ids| :: r[i] == x.strip(ids[i])
  {
    seq(|ids|, i requires 0 <= i < |ids| => x.strip(ids[i]))
  }

  predicate AllSafe(ids: seq<string>, x: Services) { forall i | 0 <= i < |ids| :: x.safe(ids[i]) }

  predicate Repeated(ids: seq<string>) { exists i, j | 0 <= i < j < |ids| :: ids[i] == ids[j] }

  /** Constructor form: normalized, unique, sorted by the constructor. */
  function MakeIds(ids: seq<string>, x: Services): Attempt<seq<string>> {
    var s := Strips(ids, x);
    if !AllSafe(s, x) || Repeated(s) then Raised else Returned(Sort(s, Self()))
  }

  /** Parser form: normalized and unique, and sorted already. */
  function ParseIds(ids: seq<string>, x: Services): Attempt<seq<string>> {
    var s := Strips(ids, x);
    if !AllSafe(s, x) || Repeated(s) || Sort(s, Self()) != s then Raised else Returned(s)
  }

  /** The digest check: a blank digest is filled in, any other must be the right one. */
  predicate DigestFits(digest: string, content: Content, x: Services) { digest == "" || digest == x.hash(content) }

  // ----- identifiers

  lemma {:induction false} StripSafe(ids: seq<string>, x: Services)
    requires Lawful(x) && AllSafe(ids, x)
    ensures Strips(ids, x) == ids
  {
  }

  lemma {:induction false} SortTwice(ids: seq<string>)
    requires !Repeated(ids)
    ensures Sort(Sort(ids, Self()), Self()) == Sort(ids, Self()) && !Repeated(Sort(ids, Self()))
  {
    var key := Self();
    var sorted := Sort(ids, key);
    SortCanonical(ids, key);
    assert DistinctKeys(sorted, key) by {
      forall i, j | 0 <= i < j < |sorted| ensures key(sorted[i]) != key(sorted[j]) { LessIrreflexive(sorted[i]); }
    }
    SortCanonical(sorted, key);
    CanonicalUnique(Sort(sorted, key), sorted, key);
  }

  /** What a constructor makes of a list, the parser reads back unchanged. */
  lemma {:induction false} MadeIdsParse(ids: seq<string>, x: Services)
    requires Lawful(x) && MakeIds(ids, x).Returned?
    ensures ParseIds(MakeIds(ids, x).value, x) == MakeIds(ids, x)
    ensures MakeIds(MakeIds(ids, x).value, x) == MakeIds(ids, x)
  {
    var s := Strips(ids, x);
    var made := MakeIds(ids, x).value;
    SortTwice(s);
    SortMembers(s, Self());
    assert AllSafe(made, x) by { assert forall i | 0 <= i < |made| :: made[i] in made; }
    StripSafe(made, x);
  }

  /** Parsed lists pass through the constructor unchanged, and are the stripped input. */
  lemma {:induction false} ParsedIdsMake(ids: seq<string>, x: Services)
    requires Lawful(x) && ParseIds(ids, x).Returned?
    ensures ParseIds(ids, x).value == Strips(ids, x)
    ensures MakeIds(ParseIds(ids, x).value, x) == ParseIds(ids, x)
  {
    StripSafe(Strips(ids, x), x);
  }

  // ----- constructors

  function MakeDemand(d: Demand, x: Services): Attempt<Demand> {
    var capabilities, tools := MakeIds(d.capabilities, x), MakeIds(d.toolSurfaces, x);
    if capabilities.Raised? || tools.Raised? || capabilities.value == [] || !x.safe(x.strip(d.workloadId))
       || !x.safe(x.strip(d.riskClass)) || d.contextTokens <= 0 then Raised
    else
      var blank := Demand(x.strip(d.workloadId), capabilities.value, tools.value, x.strip(d.riskClass),
        d.contextTokens, "");
      if DigestFits(d.digest, OfDemand(blank), x) then Returned(blank.(digest := x.hash(OfDemand(blank)))) else Raised
  }

  function MakeRequest(r: Request, x: Services): Attempt<Request> {
    if !x.sha(r.fingerprint) || (r.intentFamily.Some? && !x.sha(r.intentFamily.value)) || !x.sha(r.evaluationContract)
       || !x.safe(x.strip(r.profile)) || x.utc(r.evaluatedAt).None? || !r.offlineRequired then Raised
    else
      var blank := r.(profile := x.strip(r.profile), evaluatedAt := x.utc(r.evaluatedAt).value, digest := "");
      if DigestFits(r.digest, OfRequest(blank), x) then Returned(blank.(digest := x.hash(OfRequest(blank)))) else Raised
  }

  /** The float that a number is converted to. */
  function Float(n: Number): real {
    match n
    case Whole(i) => Nearest(i) as real
    case Decimal(r) => r
  }

  /** The conversion does not raise. */
  predicate Converts(n: Option<Number>) { n.Some? && n.value.Whole? ==> !BeyondFloat(n.value.i) }

  function Floated(n: Option<Number>): Option<Number> { if n.None? then None else Some(Decimal(Float(n.value))) }

  predicate MetricsConvert(m: Metrics) { Converts(m.successRate) && Converts(m.p95LatencyMs) && Converts(m.utility) }

  function FloatMetrics(m: Metrics): Metrics {
    m.(successRate := Floated(m.successRate), p95LatencyMs := Floated(m.p95LatencyMs), utility := Floated(m.utility))
  }

  predicate InRange(n: Option<Number>, lo: real, hi: Option<real>) {
    n.Some? ==> lo <= Float(n.value) && (hi.Some? ==> Float(n.value) <= hi.value)
  }

  /** Complete metrics exactly for eligible candidates, utility exactly for Pareto candidates. */
  predicate MetricsFit(c: Candidate) {
    var m := c.metrics;
    && CellContracts.ResourceShape(m.pool, m.placement, m.peaks) && CellContracts.PositivePeaks(m.peaks)
    && InRange(m.successRate, 0.0, Some(1.0)) && InRange(m.p95LatencyMs, 0.0, None)
    && InRange(m.utility, 0.0, Some(1.0))
    && (c.hardEligible ==>
          c.rejections == [] && m.successRate.Some? && m.p95LatencyMs.Some? && m.pool.Some? && m.placement.Some?)
    && (!c.hardEligible ==> !c.paretoEligible && m.utility.None?)
    && (c.paretoEligible <==> m.utility.Some?)
  }

  function MakeCandidate(c: Candidate, x: Services): Attempt<Candidate> {
    var rejections := MakeIds(c.rejections, x);
    if rejections.Raised? || !x.safe(x.strip(c.cellId)) || !x.sha(c.passport) || !MetricsConvert(c.metrics) then Raised
    else
      var blank := c.(cellId := x.strip(c.cellId), rejections := rejections.value, metrics := FloatMetrics(c.metrics),
                      digest := "");
      if MetricsFit(blank) && DigestFits(c.digest, OfCandidate(blank), x)
      then Returned(blank.(digest := x.hash(OfCandidate(blank)))) else Raised
  }

  predicate CandidatesSorted(cs: seq<Candidate>) {
    forall i, j | 0 <= i < j < |cs| :: Less(cs[i].cellId, cs[j].cellId)
  }

  const RECOMMENDED: string := "recommended"
  const ABSTAINED: string := "abstained"

  predicate SelectionFits(status: string, selected: Option<string>, cs: seq<Candidate>) {
    && (status == RECOMMENDED || status == ABSTAINED)
    && (status == RECOMMENDED ==>
          selected.Some? && exists i | 0 <= i < |cs| :: cs[i].cellId == selected.value && cs[i].paretoEligible)
    && (status == ABSTAINED ==> selected.None?)
  }

  function StripOption(s: Option<string>, x: Services): Option<string> {
    if s.None? then None else Some(x.strip(s.value))
  }

  function MakeAdvice(a: Advice, x: Services): Attempt<Advice> {
    var reasons, selected := MakeIds(a.reasons, x), StripOption(a.selected, x);
    if reasons.Raised? || reasons.value == [] || !x.sha(a.catalog) || !x.sha(a.request) || !x.sha(a.snapshot)
       || x.utc(a.evaluatedAt).None? || !x.safe(x.strip(a.profile)) || (selected.Some? && !x.safe(selected.value))
       || !CandidatesSorted(a.candidates) || !SelectionFits(a.status, selected, a.candidates)
       || a.applied || a.authorizes || a.networkUsed || a.modelInvocations != 0 then Raised
    else
      var blank := a.(profile := x.strip(a.profile), evaluatedAt := x.utc(a.evaluatedAt).value, selected := selected,
                      reasons := reasons.value, digest := "");
      if DigestFits(a.digest, OfAdvice(blank), x) then Returned(blank.(digest := x.hash(OfAdvice(blank)))) else Raised
  }

  function MakeReceipt(r: Receipt, x: Services): Attempt<Receipt> {
    if r.taskChars == 0 || r.taskChars > MAX_TASK_CHARS || r.displayState != x.classify(r.advice)
       || r.advice.request != r.request.digest || r.advice.profile != r.request.profile
       || r.advice.evaluatedAt != r.request.evaluatedAt then Raised
    else
      var blank := r.(digest := "");
      if DigestFits(r.digest, OfReceipt(blank), x) then Returned(blank.(digest := x.hash(OfReceipt(blank)))) else Raised
  }

  // ----- parsers

  function ParseDemand(d: Demand, x: Services): Attempt<Demand> {
    var capabilities, tools := ParseIds(d.capabilities, x), ParseIds(d.toolSurfaces, x);
    if capabilities.Raised? || tools.Raised? || d.contextTokens < 0 || !x.sha(d.digest) || d.digest == "" then Raised
    else MakeDemand(d.(capabilities := capabilities.value, toolSurfaces := tools.value), x)
  }

  function ParseRequest(r: Request, x: Services): Attempt<Request> {
    var demand := ParseDemand(r.demand, x);
    if demand.Raised? || x.utc(r.evaluatedAt) != Some(r.evaluatedAt) || !x.sha(r.digest) || r.digest == "" then Raised
    else MakeRequest(r.(demand := demand.value), x)
  }

  function ParseCandidate(c: Candidate, x: Services): Attempt<Candidate> {
    var rejections := ParseIds(c.rejections, x);
    if rejections.Raised? || !x.sha(c.digest) || c.digest == "" then Raised
    else MakeCandidate(c.(rejections := rejections.value), x)
  }

  /** Parse every element, or raise. */
  function ParseAll<A, B>(parse: A -> Attempt<B>, s: seq<A>): Attempt<seq<B>> {
    if s == [] then Returned([])
    else
      var first, rest := parse(s[0]), ParseAll(parse, s[1..]);
      if first.Raised? || rest.Raised? then Raised else Returned([first.value] + rest.value)
  }

  function CandidateParser(x: Services): Candidate -> Attempt<Candidate> { (c: Candidate) => ParseCandidate(c, x) }

  function ParseCandidates(cs: seq<Candidate>, x: Services): Attempt<seq<Candidate>> {
    ParseAll(CandidateParser(x), cs)
  }

  function ParseAdvice(a: Advice, x: Services): Attempt<Advice> {
    var candidates, reasons := ParseCandidates(a.candidates, x), ParseIds(a.reasons, x);
    if a.candidates == [] || |a.candidates| > MAX_CELLS || candidates.Raised? || reasons.Raised?
       || x.utc(a.evaluatedAt) != Some(a.evaluatedAt) || !x.sha(a.digest) || a.digest == "" then Raised
    else MakeAdvice(a.(candidates := candidates.value, reasons := reasons.value), x)
  }

  /** Rebuild a receipt, verifying every nested digest. */
  function ParseReceipt(r: Receipt, x: Services): Attempt<Receipt> {
    var request, advice := ParseRequest(r.request, x), ParseAdvice(r.advice, x);
    if request.Raised? || advice.Raised? || !x.sha(r.digest) || r.digest == "" then Raised
    else MakeReceipt(r.(request := request.value, advice := advice.value), x)
  }

  // ----- printing, then parsing

  /** A record that its constructor has made, with made parts. */
  ghost predicate GenuineRequest(r: Request, x: Services) {
    MakeDemand(r.demand, x) == Returned(r.demand) && MakeRequest(r, x) == Returned(r)
  }

  ghost predicate GenuineAdvice(a: Advice, x: Services) {
    && 0 < |a.candidates| <= MAX_CELLS
    && (forall i | 0 <= i < |a.candidates| :: MakeCandidate(a.candidates[i], x) == Returned(a.candidates[i]))
    && MakeAdvice(a, x) == Returned(a)
  }

  ghost predicate Genuine(r: Receipt, x: Services) {
    GenuineRequest(r.request, x) && GenuineAdvice(r.advice, x) && MakeReceipt(r, x) == Returned(r)
  }

  /** Whatever a constructor returns is genuine: making it again changes nothing. */
  lemma {:induction false} MakeDemandTwice(d: Demand, x: Services)
    requires Lawful(x) && MakeDemand(d, x).Returned?
    ensures MakeDemand(MakeDemand(d, x).value, x) == MakeDemand(d, x)
  {
    MadeIdsParse(d.capabilities, x);
    MadeIdsParse(d.toolSurfaces, x);
  }

  lemma {:induction false} MakeRequestTwice(r: Request, x: Services)
    requires Lawful(x) && MakeRequest(r, x).Returned?
    ensures MakeRequest(MakeRequest(r, x).value, x) == MakeRequest(r, x)
  {
  }

  lemma {:induction false} MakeCandidateTwice(c: Candidate, x: Services)
    requires Lawful(x) && MakeCandidate(c, x).Returned?
    ensures MakeCandidate(MakeCandidate(c, x).value, x) == MakeCandidate(c, x)
  {
    MadeIdsParse(c.rejections, x);
  }

  lemma {:induction false} MakeAdviceTwice(a: Advice, x: Services)
    requires Lawful(x) && MakeAdvice(a, x).Returned?
    ensures MakeAdvice(MakeAdvice(a, x).value, x) == MakeAdvice(a, x)
  {
    MadeIdsParse(a.reasons, x);
  }

  lemma {:induction false} MakeReceiptTwice(r: Receipt, x: Services)
    requires Lawful(x) && MakeReceipt(r, x).Returned?
    ensures MakeReceipt(MakeReceipt(r, x).value, x) == MakeReceipt(r, x)
  {
  }

  /** What the constructors make bottom-up is genuine: a demand inside a request, candidates inside
      advice, both inside a receipt. */
  lemma {:induction false} MadeRequestIsGenuine(d: Demand, r: Request, x: Services)
    requires Lawful(x) && MakeDemand(d, x) == Returned(r.demand) && MakeRequest(r, x).Returned?
    ensures GenuineRequest(MakeRequest(r, x).value, x)
  {
    MakeDemandTwice(d, x);
    MakeRequestTwice(r, x);
  }

  lemma {:induction false} MadeAdviceIsGenuine(raw: seq<Candidate>, a: Advice, x: Services)
    requires Lawful(x) && |raw| == |a.candidates| && 0 < |raw| <= MAX_CELLS
    requires forall i | 0 <= i < |raw| :: MakeCandidate(raw[i], x) == Returned(a.candidates[i])
    requires MakeAdvice(a, x).Returned?
    ensures GenuineAdvice(MakeAdvice(a, x).value, x)
  {
    forall i | 0 <= i < |raw| ensures MakeCandidate(a.candidates[i], x) == Returned(a.candidates[i]) {
      MakeCandidateTwice(raw[i], x);
    }
    MakeAdviceTwice(a, x);
  }

  lemma {:induction false} MadeReceiptIsGenuine(r: Receipt, x: Services)
    requires Lawful(x) && GenuineRequest(r.request, x) && GenuineAdvice(r.advice, x) && MakeReceipt(r, x).Returned?
    ensures Genuine(MakeReceipt(r, x).value, x)
  {
    MakeReceiptTwice(r, x);
  }

  lemma {:induction false} DemandParses(d: Demand, x: Services)
    requires Lawful(x) && MakeDemand(d, x) == Returned(d)
    ensures ParseDemand(d, x) == Returned(d)
  {
    MadeIdsParse(d.capabilities, x);
    MadeIdsParse(d.toolSurfaces, x);
  }

  lemma {:induction false} RequestParses(r: Request, x: Services)
    requires Lawful(x) && GenuineRequest(r, x)
    ensures ParseRequest(r, x) == Returned(r)
  {
    DemandParses(r.demand, x);
  }

  lemma {:induction false} CandidateParses(c: Candidate, x: Services)
    requires Lawful(x) && MakeCandidate(c, x) == Returned(c)
    ensures ParseCandidate(c, x) == Returned(c)
  {
    MadeIdsParse(c.rejections, x);
  }

  /** Elements that all parse do so as a list. */
  lemma {:induction false} AllParse<A, B>(parse: A -> Attempt<B>, s: seq<A>, out: seq<B>)
    requires |s| == |out| && forall i | 0 <= i < |s| :: parse(s[i]) == Returned(out[i])
    ensures ParseAll(parse, s) == Returned(out)
  {
    if s != [] {
      AllParse(parse, s[1..], out[1..]);
      assert out == [out[0]] + out[1..];
    }
  }

  lemma {:induction false} CandidatesParse(cs: seq<Candidate>, x: Services)
    requires Lawful(x) && forall i | 0 <= i < |cs| :: MakeCandidate(cs[i], x) == Returned(cs[i])
    ensures ParseCandidates(cs, x) == Returned(cs)
  {
    forall i | 0 <= i < |cs| ensures CandidateParser(x)(cs[i]) == Returned(cs[i]) { CandidateParses(cs[i], x); }
    AllParse(CandidateParser(x), cs, cs);
  }

  lemma {:induction false} AdviceParses(a: Advice, x: Services)
    requires Lawful(x) && GenuineAdvice(a, x)
    ensures ParseAdvice(a, x) == Returned(a)
  {
    CandidatesParse(a.candidates, x);
    MadeIdsParse(a.reasons, x);
  }

  /** Parsing the payload of a receipt returns that receipt. */
  lemma {:induction false} PrintedReceiptParses(r: Receipt, x: Services)
    requires Lawful(x) && Genuine(r, x)
    ensures ParseReceipt(r, x) == Returned(r)
  {
    RequestParses(r.request, x);
    AdviceParses(r.advice, x);
  }

  // ----- parsing, then printing

  /** The payload with white space around its identifiers removed and its metrics as floats. */
  function TidyDemand(d: Demand, x: Services): Demand {
    d.(workloadId := x.strip(d.workloadId), capabilities := Strips(d.capabilities, x),
       toolSurfaces := Strips(d.toolSurfaces, x), riskClass := x.strip(d.riskClass))
  }

  function TidyRequest(r: Request, x: Services): Request {
    r.(demand := TidyDemand(r.demand, x), profile := x.strip(r.profile))
  }

  function TidyCandidate(c: Candidate, x: Services): Candidate {
    c.(cellId := x.strip(c.cellId), rejections := Strips(c.rejections, x), metrics := FloatMetrics(c.metrics))
  }

  function TidyCandidates(cs: seq<Candidate>, x: Services): seq<Candidate> {
    seq(|cs|, i requires 0 <= i < |cs| => TidyCandidate(cs[i], x))
  }

  function TidyAdvice(a: Advice, x: Services): Advice {
    a.(profile := x.strip(a.profile), selected := StripOption(a.selected, x),
       candidates := TidyCandidates(a.candidates, x), reasons := Strips(a.reasons, x))
  }

  function Tidy(r: Receipt, x: Services): Receipt {
    r.(request := TidyRequest(r.request, x), advice := TidyAdvice(r.advice, x))
  }

  lemma {:induction false} ParsedDemand(d: Demand, x: Services)
    requires Lawful(x) && ParseDemand(d, x).Returned?
    ensures ParseDemand(d, x).value == TidyDemand(d, x)
    ensures d.digest == x.hash(OfDemand(TidyDemand(d, x).(digest := "")))
  {
    ParsedIdsMake(d.capabilities, x);
    ParsedIdsMake(d.toolSurfaces, x);
  }

  lemma {:induction false} ParsedRequest(r: Request, x: Services)
    requires Lawful(x) && ParseRequest(r, x).Returned?
    ensures ParseDemand(r.demand, x).Returned? && ParseRequest(r, x).value == TidyRequest(r, x)
    ensures r.digest == x.hash(OfRequest(TidyRequest(r, x).(digest := "")))
  {
    ParsedDemand(r.demand, x);
  }

  lemma {:induction false} ParsedCandidate(c: Candidate, x: Services)
    requires Lawful(x) && ParseCandidate(c, x).Returned?
    ensures ParseCandidate(c, x).value == TidyCandidate(c, x)
    ensures c.digest == x.hash(OfCandidate(TidyCandidate(c, x).(digest := "")))
  {
    ParsedIdsMake(c.rejections, x);
  }

  /** What a parsed list holds at each place. */
  lemma {:induction false} ParsedAt<A, B>(parse: A -> Attempt<B>, s: seq<A>, i: nat)
    requires ParseAll(parse, s).Returned? && i < |s|
    ensures |ParseAll(parse, s).value| == |s| && parse(s[i]) == Returned(ParseAll(parse, s).value[i])
  {
    if i > 0 { ParsedAt(parse, s[1..], i - 1); } else if |s| > 1 { ParsedAt(parse, s[1..], 0); }
  }

  lemma {:induction false} ListParsed(cs: seq<Candidate>, x: Services, i: nat)
    requires ParseCandidates(cs, x).Returned? && i < |cs|
    ensures |ParseCandidates(cs, x).value| == |cs|
    ensures ParseCandidate(cs[i], x) == Returned(ParseCandidates(cs, x).value[i])
  {
    ParsedAt(CandidateParser(x), cs, i);
  }

  lemma {:induction false} ParsedCandidates(cs: seq<Candidate>, x: Services)
    requires Lawful(x) && ParseCandidates(cs, x).Returned?
    ensures ParseCandidates(cs, x).value == TidyCandidates(cs, x)
    ensures forall i | 0 <= i < |cs| :: cs[i].digest == x.hash(OfCandidate(TidyCandidate(cs[i], x).(digest := "")))
  {
    var parsed, tidy := ParseCandidates(cs, x).value, TidyCandidates(cs, x);
    forall i | 0 <= i < |cs|
      ensures |parsed| == |cs| && parsed[i] == tidy[i]
      ensures cs[i].digest == x.hash(OfCandidate(TidyCandidate(cs[i], x).(digest := "")))
    {
      ListParsed(cs, x, i);
      ParsedCandidate(cs[i], x);
    }
  }

  lemma {:induction false} ParsedAdvice(a: Advice, x: Services)
    requires Lawful(x) && ParseAdvice(a, x).Returned?
    ensures ParseCandidates(a.candidates, x).Returned? && ParseAdvice(a, x).value == TidyAdvice(a, x)
    ensures a.digest == x.hash(OfAdvice(TidyAdvice(a, x).(digest := "")))
  {
    ParsedCandidates(a.candidates, x);
    ParsedIdsMake(a.reasons, x);
  }

  /** An accepted payload is rebuilt as itself without the white space around its identifiers and
      with its metrics as floats; so it reprints to itself exactly when that changes nothing. */
  lemma {:induction false} AcceptedReceiptReprints(r: Receipt, x: Services)
    requires Lawful(x) && ParseReceipt(r, x).Returned?
    ensures ParseRequest(r.request, x).Returned? && ParseAdvice(r.advice, x).Returned?
    ensures ParseReceipt(r, x).value == Tidy(r, x)
    ensures r.digest == x.hash(OfReceipt(Tidy(r, x).(digest := "")))
    ensures ParseReceipt(r, x) == Returned(r) <==> Tidy(r, x) == r
  {
    ParsedRequest(r.request, x);
    ParsedAdvice(r.advice, x);
  }

  /** What acceptance guarantees about the payload itself: it is an offline receipt for advice that was
      not applied, authorizes nothing, used no network and invoked no model. */
  lemma {:induction false} AcceptedIsHarmless(r: Receipt, x: Services)
    requires ParseReceipt(r, x).Returned?
    ensures r.request.offlineRequired && !r.advice.applied && !r.advice.authorizes && !r.advice.networkUsed
    ensures r.advice.modelInvocations == 0 && 0 < r.taskChars <= MAX_TASK_CHARS && r.request.demand.contextTokens > 0
    ensures r.request.demand.capabilities != [] && 0 < |r.advice.candidates| <= MAX_CELLS && r.advice.reasons != []
    ensures x.sha(r.digest) && x.sha(r.request.digest) && x.sha(r.advice.digest) && x.sha(r.request.demand.digest)
    ensures x.sha(r.request.fingerprint) && x.sha(r.request.evaluationContract) && x.sha(r.advice.catalog)
    ensures x.sha(r.advice.snapshot) && r.advice.request == r.request.digest
    ensures x.strip(r.advice.profile) == x.strip(r.request.profile) && r.advice.evaluatedAt == r.request.evaluatedAt
    ensures r.advice.status == RECOMMENDED || (r.advice.status == ABSTAINED && r.advice.selected == None)
  {
  }

  /** Accepted candidates are in strict order of their stripped ids, and the recommended cell is one of
      them and on the frontier. */
  lemma {:induction false} AcceptedCandidates(r: Receipt, x: Services)
    requires Lawful(x) && ParseReceipt(r, x).Returned?
    ensures forall i, j | 0 <= i < j < |r.advice.candidates| ::
      Less(x.strip(r.advice.candidates[i].cellId), x.strip(r.advice.candidates[j].cellId))
    ensures r.advice.status == RECOMMENDED ==>
      && r.advice.selected.Some?
      && exists i :: 0 <= i < |r.advice.candidates| && r.advice.candidates[i].paretoEligible
                     && x.strip(r.advice.candidates[i].cellId) == x.strip(r.advice.selected.value)
  {
    ParsedAdvice(r.advice, x);
    ParsedCandidates(r.advice.candidates, x);
    var tidy := TidyCandidates(r.advice.candidates, x);
    assert CandidatesSorted(tidy) && SelectionFits(r.advice.status, StripOption(r.advice.selected, x), tidy);
    forall i, j | 0 <= i < j < |r.advice.candidates|
      ensures Less(x.strip(r.advice.candidates[i].cellId), x.strip(r.advice.candidates[j].cellId))
    {
      assert Less(tidy[i].cellId, tidy[j].cellId);
    }
    if r.advice.status == RECOMMENDED {
      var i :| 0 <= i < |tidy| && tidy[i].cellId == x.strip(r.advice.selected.value) && tidy[i].paretoEligible;
      assert r.advice.candidates[i].paretoEligible;
    }
  }

  /** An accepted candidate carries complete metrics exactly when eligible, and a utility exactly on the
      frontier, all in range. */
  lemma {:induction false} AcceptedMetrics(c: Candidate, x: Services)
    requires ParseCandidate(c, x).Returned?
    ensures x.sha(c.digest) && x.sha(c.passport) && MetricsConvert(c.metrics)
    ensures c.hardEligible ==> c.rejections == [] && c.metrics.successRate.Some? && c.metrics.p95LatencyMs.Some?
                               && c.metrics.pool.Some? && c.metrics.placement.Some?
    ensures !c.hardEligible ==> !c.paretoEligible
    ensures c.paretoEligible <==> c.metrics.utility.Some?
    ensures c.metrics.successRate.Some? ==> 0.0 <= Float(c.metrics.successRate.value) <= 1.0
    ensures c.metrics.p95LatencyMs.Some? ==> 0.0 <= Float(c.metrics.p95LatencyMs.value)
    ensures c.metrics.utility.Some? ==> 0.0 <= Float(c.metrics.utility.value) <= 1.0
  {
    var blank := c.(cellId := x.strip(c.cellId), metrics := FloatMetrics(c.metrics),
                    rejections := MakeIds(ParseIds(c.rejections, x).value, x).value, digest := "");
    assert MetricsFit(blank);
    assert |blank.rejections| == |c.rejections|;
  }

  /** What parsing returns is a genuine receipt. */
  lemma {:induction false} ParsedIsGenuine(r: Receipt, x: Services)
    requires Lawful(x) && ParseReceipt(r, x).Returned?
    ensures Genuine(ParseReceipt(r, x).value, x)
  {
    ParsedRequestIsGenuine(r.request, x);
    ParsedAdviceIsGenuine(r.advice, x);
    var inner := r.(request := ParseRequest(r.request, x).value, advice := ParseAdvice(r.advice, x).value);
    MadeReceiptIsGenuine(inner, x);
  }

  lemma {:induction false} ParsedRequestIsGenuine(r: Request, x: Services)
    requires Lawful(x) && ParseRequest(r, x).Returned?
    ensures GenuineRequest(ParseRequest(r, x).value, x)
  {
    var capabilities, tools := ParseIds(r.demand.capabilities, x).value, ParseIds(r.demand.toolSurfaces, x).value;
    var d := r.demand.(capabilities := capabilities, toolSurfaces := tools);
    MadeRequestIsGenuine(d, r.(demand := MakeDemand(d, x).value), x);
  }

  lemma {:induction false} ParsedAdviceIsGenuine(a: Advice, x: Services)
    requires Lawful(x) && ParseAdvice(a, x).Returned?
    ensures GenuineAdvice(ParseAdvice(a, x).value, x)
  {
    var parsed := ParseCandidates(a.candidates, x).value;
    ListParsed(a.candidates, x, 0);
    var raw := seq(|a.candidates|, i requires 0 <= i < |a.candidates| =>
      a.candidates[i].(rejections := MakeInput(a.candidates[i], x)));
    forall i | 0 <= i < |raw| ensures MakeCandidate(raw[i], x) == Returned(parsed[i]) {
      ListParsed(a.candidates, x, i);
    }
    MadeAdviceIsGenuine(raw, a.(candidates := parsed, reasons := ParseIds(a.reasons, x).value), x);
  }

  /** The rejection list that parsing hands to the constructor. */
  function MakeInput(c: Candidate, x: Services): seq<string> {
    if ParseIds(c.rejections, x).Returned? then ParseIds(c.rejections, x).value else []
  }

  // ----- the payloads that are read as one receipt

  /** No metric is an integer beyond the range of a float. */
  ghost predicate NumbersConvert(r: Receipt) {
    forall i | 0 <= i < |r.advice.candidates| :: MetricsConvert(r.advice.candidates[i].metrics)
  }

  lemma {:induction false} TidyDemandParses(d: Demand, d': Demand, x: Services)
    requires Lawful(x) && MakeDemand(d, x) == Returned(d) && TidyDemand(d', x) == d
    ensures ParseDemand(d', x) == Returned(d)
  {
    DemandParses(d, x);
    StripSafe(d.capabilities, x);
    StripSafe(d.toolSurfaces, x);
  }

  lemma {:induction false} TidyRequestParses(r: Request, r': Request, x: Services)
    requires Lawful(x) && GenuineRequest(r, x) && TidyRequest(r', x) == r
    ensures ParseRequest(r', x) == Returned(r)
  {
    TidyDemandParses(r.demand, r'.demand, x);
    RequestParses(r, x);
  }

  lemma {:induction false} TidyCandidateParses(c: Candidate, c': Candidate, x: Services)
    requires Lawful(x) && MakeCandidate(c, x) == Returned(c) && TidyCandidate(c', x) == c && MetricsConvert(c'.metrics)
    ensures ParseCandidate(c', x) == Returned(c)
  {
    CandidateParses(c, x);
    StripSafe(c.rejections, x);
  }

  lemma {:induction false} TidyCandidatesParse(cs: seq<Candidate>, cs': seq<Candidate>, x: Services)
    requires Lawful(x) && TidyCandidates(cs', x) == cs
    requires forall i | 0 <= i < |cs| :: MakeCandidate(cs[i], x) == Returned(cs[i])
    requires forall i | 0 <= i < |cs'| :: MetricsConvert(cs'[i].metrics)
    ensures ParseCandidates(cs', x) == Returned(cs)
  {
    forall i | 0 <= i < |cs'| ensures CandidateParser(x)(cs'[i]) == Returned(cs[i]) {
      TidyCandidateParses(cs[i], cs'[i], x);
    }
    AllParse(CandidateParser(x), cs', cs);
  }

  lemma {:induction false} TidyAdviceParses(a: Advice, a': Advice, x: Services)
    requires Lawful(x) && GenuineAdvice(a, x) && TidyAdvice(a', x) == a
    requires forall i | 0 <= i < |a'.candidates| :: MetricsConvert(a'.candidates[i].metrics)
    ensures ParseAdvice(a', x) == Returned(a)
  {
    TidyCandidatesParse(a.candidates, a'.candidates, x);
    AdviceParses(a, x);
    StripSafe(a.reasons, x);
  }

  lemma {:induction false} ParsedConverts(r: Receipt, x: Services)
    requires ParseReceipt(r, x).Returned?
    ensures NumbersConvert(r)
  {
    forall i | 0 <= i < |r.advice.candidates| ensures MetricsConvert(r.advice.candidates[i].metrics) {
      ListParsed(r.advice.candidates, x, i);
    }
  }

  /** The payloads that are read as a given genuine receipt are exactly those that differ from it in
      white space around identifiers and in the spelling of metrics alone. */
  lemma {:induction false} ReadAsIffTidy(r: Receipt, r': Receipt, x: Services)
    requires Lawful(x) && Genuine(r, x)
    ensures ParseReceipt(r', x) == Returned(r) <==> Tidy(r', x) == r && NumbersConvert(r')
  {
    if ParseReceipt(r', x) == Returned(r) {
      AcceptedReceiptReprints(r', x);
      ParsedConverts(r', x);
    }
    if Tidy(r', x) == r && NumbersConvert(r') {
      TidyRequestParses(r.request, r'.request, x);
      TidyAdviceParses(r.advice, r'.advice, x);
    }
  }

  /** A genuine receipt is its own tidied form. */
  lemma {:induction false} GenuineIsTidy(r: Receipt, x: Services)
    requires Lawful(x) && Genuine(r, x)
    ensures Tidy(r, x) == r && NumbersConvert(r)
  {
    PrintedReceiptParses(r, x);
    ReadAsIffTidy(r, r, x);
  }

  /** A padded workload id is accepted, and reprints without the padding. */
  lemma {:induction false} PaddedIdIsAccepted(r: Receipt, x: Services, padded: string)
    requires Lawful(x) && Genuine(r, x) && x.strip(padded) == r.request.demand.workloadId != padded
    ensures
      var r' := r.(request := r.request.(demand := r.request.demand.(workloadId := padded)));
      r' != r && ParseReceipt(r', x) == Returned(r)
  {
    var r' := r.(request := r.request.(demand := r.request.demand.(workloadId := padded)));
    GenuineIsTidy(r, x);
    ReadAsIffTidy(r, r', x);
  }

  function WithMetrics(r: Receipt, i: nat, m: Metrics): Receipt
    requires i < |r.advice.candidates|
  {
    var cs := r.advice.candidates;
    r.(advice := r.advice.(candidates := cs[i := cs[i].(metrics := m)]))
  }

  /** Metrics spelled otherwise are accepted under the digests of the floats they convert to. */
  lemma {:induction false} RespelledIsAccepted(r: Receipt, x: Services, i: nat, m: Metrics)
    requires Lawful(x) && Genuine(r, x) && i < |r.advice.candidates|
    requires MetricsConvert(m) && FloatMetrics(m) == r.advice.candidates[i].metrics
    ensures ParseReceipt(WithMetrics(r, i, m), x) == Returned(r)
    ensures WithMetrics(r, i, m).advice.candidates[i].metrics == m
  {
    var r' := WithMetrics(r, i, m);
    GenuineIsTidy(r, x);
    assert TidyCandidates(r'.advice.candidates, x) == TidyCandidates(r.advice.candidates, x);
    ReadAsIffTidy(r, r', x);
  }

  /** In a genuine receipt every metric is a float already. */
  lemma {:induction false} GenuineMetrics(r: Receipt, x: Services, i: nat)
    requires Lawful(x) && Genuine(r, x) && i < |r.advice.candidates|
    ensures FloatMetrics(r.advice.candidates[i].metrics) == r.advice.candidates[i].metrics
  {
    assert MakeCandidate(r.advice.candidates[i], x) == Returned(r.advice.candidates[i]);
  }

  /** 1 converts to 1.0, and 2^53 + 1 to 2^53. */
  lemma {:induction false} Respellings(m: Metrics)
    requires FloatMetrics(m) == m
    ensures m.successRate == Some(Decimal(1.0)) ==>
      var m' := m.(successRate := Some(Whole(1)));
      MetricsConvert(m') && FloatMetrics(m') == m != m'
    ensures m.p95LatencyMs == Some(Decimal(TWO_53 as real)) ==>
      var m' := m.(p95LatencyMs := Some(Whole(TWO_53 + 1)));
      MetricsConvert(m') && FloatMetrics(m') == m != m'
  {
    SmallIsExact(1);
    FirstInexact();
  }

  /** So a genuine receipt is not the only payload its digests admit: a success rate of 1.0 may be
      written 1, and a latency of 2^53 milliseconds may even be given as another number. */
  lemma {:induction false} IntegerMetricIsAccepted(r: Receipt, x: Services, i: nat, m: Metrics)
    requires Lawful(x) && Genuine(r, x) && i < |r.advice.candidates|
    requires
      || (&& r.advice.candidates[i].metrics.successRate == Some(Decimal(1.0))
          && m == r.advice.candidates[i].metrics.(successRate := Some(Whole(1))))
      || (&& r.advice.candidates[i].metrics.p95LatencyMs == Some(Decimal(TWO_53 as real))
          && m == r.advice.candidates[i].metrics.(p95LatencyMs := Some(Whole(TWO_53 + 1))))
    ensures WithMetrics(r, i, m) != r && ParseReceipt(WithMetrics(r, i, m), x) == Returned(r)
  {
    GenuineMetrics(r, x, i);
    Respellings(r.advice.candidates[i].metrics);
    RespelledIsAccepted(r, x, i, m);
  }

  // ----- tampering

  /** What the digests of an accepted payload are taken of. */
  function DemandContent(d: Demand, x: Services): Content { OfDemand(TidyDemand(d, x).(digest := "")) }

  function RequestContent(r: Request, x: Services): Content { OfRequest(TidyRequest(r, x).(digest := "")) }

  function CandidateContent(c: Candidate, x: Services): Content { OfCandidate(TidyCandidate(c, x).(digest := "")) }

  function AdviceContent(a: Advice, x: Services): Content { OfAdvice(TidyAdvice(a, x).(digest := "")) }

  function ReceiptContent(r: Receipt, x: Services): Content { OfReceipt(Tidy(r, x).(digest := "")) }

  ghost predicate Accepted(r: Receipt, x: Services) { ParseReceipt(r, x).Returned? }

  /** Every digest of an accepted receipt is the hash of its own content. */
  lemma {:induction false} AcceptedDigests(r: Receipt, x: Services)
    requires Lawful(x) && Accepted(r, x)
    ensures r.digest == x.hash(ReceiptContent(r, x))
    ensures r.request.digest == x.hash(RequestContent(r.request, x))
    ensures r.request.demand.digest == x.hash(DemandContent(r.request.demand, x))
    ensures r.advice.digest == x.hash(AdviceContent(r.advice, x))
  {
    AcceptedReceiptReprints(r, x);
    ParsedRequest(r.request, x);
    ParsedDemand(r.request.demand, x);
    ParsedAdvice(r.advice, x);
  }

  lemma {:induction false} AcceptedCandidateDigest(r: Receipt, x: Services, i: nat)
    requires Lawful(x) && Accepted(r, x) && i < |r.advice.candidates|
    ensures r.advice.candidates[i].digest == x.hash(CandidateContent(r.advice.candidates[i], x))
  {
    AcceptedReceiptReprints(r, x);
    ParsedAdvice(r.advice, x);
    ParsedCandidates(r.advice.candidates, x);
  }

  /** Two accepted receipts with the same digest, on whose contents it does not collide, are the
      same up to white space and the spelling of metrics. */
  lemma {:induction false} SameDigestSameReceipt(r: Receipt, r': Receipt, x: Services)
    requires Lawful(x) && Accepted(r, x) && Accepted(r', x) && r.digest == r'.digest
    requires Apart(x, ReceiptContent(r, x), ReceiptContent(r', x))
    ensures Tidy(r, x) == Tidy(r', x)
  {
    AcceptedDigests(r, x);
    AcceptedDigests(r', x);
    BlankReceipt(Tidy(r, x), Tidy(r', x));
  }

  lemma {:induction false} BlankReceipt(a: Receipt, b: Receipt)
    requires a.(digest := "") == b.(digest := "") && a.digest == b.digest
    ensures a == b
  {
    assert a == a.(digest := "").(digest := a.digest);
  }

  /** Anything that changes in a receipt, at whatever level, changes the receipt's digest. */
  lemma {:induction false} ReceiptChange(r: Receipt, r': Receipt, x: Services)
    requires Lawful(x) && Accepted(r, x) && Accepted(r', x)
    requires Apart(x, ReceiptContent(r, x), ReceiptContent(r', x)) && ReceiptContent(r, x) != ReceiptContent(r', x)
    ensures r.digest != r'.digest
  {
    AcceptedDigests(r, x);
    AcceptedDigests(r', x);
  }

  /** A changed request field changes the request's digest and the receipt's. */
  lemma {:induction false} RequestChangeReachesTop(r: Receipt, r': Receipt, x: Services)
    requires Lawful(x) && Accepted(r, x) && Accepted(r', x)
    requires RequestContent(r.request, x) != RequestContent(r'.request, x)
    requires Apart(x, RequestContent(r.request, x), RequestContent(r'.request, x))
    requires Apart(x, ReceiptContent(r, x), ReceiptContent(r', x))
    ensures r.request.digest != r'.request.digest && r.digest != r'.digest
  {
    AcceptedDigests(r, x);
    AcceptedDigests(r', x);
    assert Tidy(r, x).request == TidyRequest(r.request, x) && Tidy(r', x).request == TidyRequest(r'.request, x);
  }

  /** A changed demand changes its own digest, the request's and the receipt's. */
  lemma {:induction false} DemandChangeReachesTop(r: Receipt, r': Receipt, x: Services)
    requires Lawful(x) && Accepted(r, x) && Accepted(r', x)
    requires DemandContent(r.request.demand, x) != DemandContent(r'.request.demand, x)
    requires Apart(x, DemandContent(r.request.demand, x), DemandContent(r'.request.demand, x))
    requires Apart(x, RequestContent(r.request, x), RequestContent(r'.request, x))
    requires Apart(x, ReceiptContent(r, x), ReceiptContent(r', x))
    ensures r.request.demand.digest != r'.request.demand.digest
    ensures r.request.digest != r'.request.digest && r.digest != r'.digest
  {
    AcceptedDigests(r, x);
    AcceptedDigests(r', x);
    var q, q' := TidyRequest(r.request, x), TidyRequest(r'.request, x);
    assert q.demand.(digest := "") != q'.demand.(digest := "");
    assert q.(digest := "") != q'.(digest := "");
    RequestChangeReachesTop(r, r', x);
  }

  /** A changed advice field changes the advice's digest and the receipt's. */
  lemma {:induction false} AdviceChangeReachesTop(r: Receipt, r': Receipt, x: Services)
    requires Lawful(x) && Accepted(r, x) && Accepted(r', x)
    requires AdviceContent(r.advice, x) != AdviceContent(r'.advice, x)
    requires Apart(x, AdviceContent(r.advice, x), AdviceContent(r'.advice, x))
    requires Apart(x, ReceiptContent(r, x), ReceiptContent(r', x))
    ensures r.advice.digest != r'.advice.digest && r.digest != r'.digest
  {
    AcceptedDigests(r, x);
    AcceptedDigests(r', x);
    assert Tidy(r, x).advice == TidyAdvice(r.advice, x) && Tidy(r', x).advice == TidyAdvice(r'.advice, x);
  }

  lemma {:induction false} CandidateChangesAdvice(a: Advice, a': Advice, i: nat, x: Services)
    requires i < |a.candidates| && i < |a'.candidates|
    requires CandidateContent(a.candidates[i], x) != CandidateContent(a'.candidates[i], x)
    ensures AdviceContent(a, x) != AdviceContent(a', x)
  {
    var c, c' := TidyCandidate(a.candidates[i], x), TidyCandidate(a'.candidates[i], x);
    assert c.(digest := "") != c'.(digest := "");
    assert TidyAdvice(a, x).candidates[i] == c && TidyAdvice(a', x).candidates[i] == c';
  }

  /** A changed candidate changes its own digest, the advice's and the receipt's. */
  lemma {:induction false} CandidateChangeReachesTop(r: Receipt, r': Receipt, i: nat, x: Services)
    requires Lawful(x) && Accepted(r, x) && Accepted(r', x)
    requires i < |r.advice.candidates| && i < |r'.advice.candidates|
    requires CandidateContent(r.advice.candidates[i], x) != CandidateContent(r'.advice.candidates[i], x)
    requires Apart(x, CandidateContent(r.advice.candidates[i], x), CandidateContent(r'.advice.candidates[i], x))
    requires Apart(x, AdviceContent(r.advice, x), AdviceContent(r'.advice, x))
    requires Apart(x, ReceiptContent(r, x), ReceiptContent(r', x))
    ensures r.advice.candidates[i].digest != r'.advice.candidates[i].digest
    ensures r.advice.digest != r'.advice.digest && r.digest != r'.digest
  {
    AcceptedCandidateDigest(r, x, i);
    AcceptedCandidateDigest(r', x, i);
    CandidateChangesAdvice(r.advice, r'.advice, i, x);
    AdviceChangeReachesTop(r, r', x);
  }

  /** So a payload under an unchanged receipt digest is rejected once its content, read without white
      space around identifiers and with metrics as floats, differs anywhere. */
  lemma {:induction false} AlteredIsRejected(r: Receipt, altered: Receipt, x: Services)
    requires Lawful(x) && Accepted(r, x) && altered.digest == r.digest
    requires ReceiptContent(altered, x) != ReceiptContent(r, x)
    requires Apart(x, ReceiptContent(r, x), ReceiptContent(altered, x))
    ensures ParseReceipt(altered, x).Raised?
  {
    if Accepted(altered, x) { ReceiptChange(r, altered, x); }
  }
}
