/**
 What advice says about the catalog, without the selector's own steps: when it blocks, when it
 recommends, and which cell, in terms of the passports, the snapshot and the profile alone.
 */
module AdviceMeaning {
  import opened Basics
  import opened CellContracts
  import opened HardFilters
  import opened Ranking
  import opened Selector
  import opened Advisor
  import opened Utility
  import Ordering
  import Rounding

  // ----- headroom

  /** So many bytes and the reserve fit both what is free and what the process may use. */
  predicate FitsSystem(bytes: nat, reserve: nat, s: Snapshot) {
    && s.availableMemoryBytes.Some? && bytes + reserve <= s.availableMemoryBytes.value
    && s.effectiveMemoryLimitBytes.Some? && bytes + reserve <= s.effectiveMemoryLimitBytes.value
  }

  predicate FitsAccelerator(bytes: nat, reserve: nat, s: Snapshot) {
    s.acceleratorAvailableBytes.Some? && bytes + reserve <= s.acceleratorAvailableBytes.value
  }

  /** Resources of one kind fit their pool. */
  predicate FitsPool(pool: Pool, peaks: Peaks, reserve: nat, s: Snapshot) {
    match pool
    case Host => peaks.host.Some? && FitsSystem(peaks.host.value, reserve, s)
    case Unified =>
      && s.topology == UnifiedMemory && s.acceleratorKind == Integrated && s.acceleratorIdentity.Some?
      && peaks.unified.Some? && FitsSystem(peaks.unified.value, reserve, s)
    case Accelerator =>
      && s.topology == DedicatedMemory && s.acceleratorKind == Discrete && s.acceleratorIdentity.Some?
      && peaks.host.Some? && FitsSystem(peaks.host.value, reserve, s)
      && peaks.accelerator.Some? && FitsAccelerator(peaks.accelerator.value, reserve, s)
  }

  /** There is headroom exactly when the estimate fits its pool, and so does the measurement if it was
      taken in the same pool and placement. */
  lemma {:induction false} HeadroomIff(cell: Passport, s: Snapshot, p: Profile)
    requires ValidPassport(cell)
    ensures HasHeadroom(cell, s, p) <==>
      var e, m := cell.estimated, cell.measured;
      && e.pool.Some? && FitsPool(e.pool.value, e.peaks, p.reserveMemoryBytes, s)
      && (m.pool == e.pool && m.placement == e.placement ==>
            FitsPool(e.pool.value, m.peaks, p.reserveMemoryBytes, s))
  {
  }

  /** An admitted cell was measured where it is to run, so estimate and measurement both fit. */
  lemma {:induction false} AdmittedFits(cell: Passport, s: Snapshot, r: Request, p: Profile)
    requires ValidPassport(cell) && Admits(cell, s, r, p)
    ensures cell.measured.pool == cell.estimated.pool && cell.measured.placement == cell.estimated.placement
    ensures cell.estimated.pool.Some?
    ensures FitsPool(cell.estimated.pool.value, cell.estimated.peaks, p.reserveMemoryBytes, s)
    ensures FitsPool(cell.estimated.pool.value, cell.measured.peaks, p.reserveMemoryBytes, s)
  {
    HeadroomIff(cell, s, p);
  }

  /** A snapshot that does not identify its machine admits no cell. */
  lemma {:induction false} UnidentifiedAdmitsNothing(cell: Passport, s: Snapshot, r: Request, p: Profile)
    requires s.system == "unknown" || s.osRelease == "unknown" || s.cpuCount.None? || s.cpuIdentity.None?
      || s.totalMemoryBytes.None? || s.runtimeEnvironment.None? || s.effectiveMemoryLimitBytes.None?
    ensures !Admits(cell, s, r, p)
  {
  }

  // ----- what each code means

  lemma {:induction false} DemandCodesMean(cell: Passport, s: Snapshot, r: Request)
    ensures var codes, d := DemandCodes(cell, s, r), cell.declaration;
      && (OfflineNotSupported in codes <==> !d.offlineCapable)
      && (SystemNotSupported in codes <==> s.system !in d.supportedSystems)
      && (MachineNotSupported in codes <==> s.machine !in d.supportedMachines)
      && (CapabilityGap in codes <==> exists c :: c in r.demand.capabilities && c !in d.capabilities)
      && (ToolSurfaceGap in codes <==> exists t :: t in r.demand.toolSurfaces && t !in d.toolSurfaces)
      && (RiskClassNotSupported in codes <==> r.demand.riskClass !in d.riskClasses)
      && (ContextWindowExceeded in codes <==> r.demand.contextTokens > d.maxContextTokens)
  {
  }

  function ComponentOf(code: RejectionCode): Option<Component> {
    match code
    case ExpectedIdentityUnknown(c) => Some(c)
    case AvailabilityUnknown(c) => Some(c)
    case Unavailable(c) => Some(c)
    case IdentityMismatch(c) => Some(c)
    case _ => None
  }

  lemma {:induction false} OwnComponent(cell: Passport, c: Component, code: RejectionCode)
    requires code in ComponentCodes(cell, c)
    ensures ComponentOf(code) == Some(c)
  {
  }

  lemma {:induction false} ComponentCodesSplit(cell: Passport, c: Component, code: RejectionCode)
    requires ComponentOf(code) == Some(c)
    ensures code in IdentityCodes(cell) <==> code in ComponentCodes(cell, c)
  {
    if code in ComponentCodes(cell, Model) { OwnComponent(cell, Model, code); }
    if code in ComponentCodes(cell, Runtime) { OwnComponent(cell, Runtime, code); }
    if code in ComponentCodes(cell, Harness) { OwnComponent(cell, Harness, code); }
    if code in ComponentCodes(cell, ToolContract) { OwnComponent(cell, ToolContract, code); }
  }

  lemma {:induction false} ComponentCodesMean(cell: Passport, c: Component)
    ensures var codes := ComponentCodes(cell, c);
      var expected, actual := cell.declaration.expected.Of(c), cell.observed.actual.Of(c);
      && (ExpectedIdentityUnknown(c) in codes <==> expected == None)
      && (AvailabilityUnknown(c) in codes <==> cell.observed.status.Of(c) == Unknown)
      && (Unavailable(c) in codes <==> cell.observed.status.Of(c) == Missing)
      && (IdentityMismatch(c) in codes <==>
            cell.observed.status.Of(c) == Available && expected.Some? && actual != expected)
  {
  }

  lemma {:induction false} MeasurementCodesMean(cell: Passport, s: Snapshot, r: Request, p: Profile)
    requires ValidPassport(cell)
    ensures var codes, m := MeasurementCodes(cell, s, r, p), cell.measured;
      && (MeasurementUnknown in codes <==> m.sampleCount == 0)
      && (m.sampleCount > 0 ==>
            && (MeasurementDemandMismatch in codes <==> m.demandDigest != Some(r.demand.digest))
            && (MeasurementEvaluationContractMismatch in codes <==> m.evaluationContract != Some(r.evaluationContract))
            && (MeasurementNotApplicable in codes <==> m.resourceClass != Some(s.resourceClass))
            && (MeasurementPlacementMismatch in codes <==>
                  m.pool != cell.estimated.pool || m.placement != cell.estimated.placement)
            && (InsufficientSamples in codes <==> m.sampleCount < p.minSamples)
            && (QualityFloorNotMet in codes <==> m.successRate.value < p.minSuccessRate))
  {
    var m := cell.measured;
    if m.sampleCount > 0 {
      var timed := FreshnessCodes(m.measuredAt, m.expiresAt, r.evaluatedAt, MeasurementFromFuture, MeasurementExpired);
      assert timed <= {MeasurementFromFuture, MeasurementExpired};
    }
  }

  lemma {:induction false} FreshnessCodesMean(
      start: Option<real>, expires: Option<real>, at: real, fromFuture: RejectionCode, expired: RejectionCode)
    requires fromFuture != expired && start.Some? && expires.Some?
    ensures var codes := FreshnessCodes(start, expires, at, fromFuture, expired);
      (fromFuture in codes <==> at < start.value) && (expired in codes <==> expires.value <= at)
  {
  }

  lemma {:induction false} ResourceCodesMean(cell: Passport, s: Snapshot, p: Profile)
    requires ValidPassport(cell) && cell.measured.pool == cell.estimated.pool
    requires cell.measured.placement == cell.estimated.placement
    ensures var codes, e, m, reserve := ResourceCodes(cell, s, p), cell.estimated, cell.measured, p.reserveMemoryBytes;
      var known := s.availableMemoryBytes.Some? && s.effectiveMemoryLimitBytes.Some?;
      && (HostMemoryUnknown in codes <==> e.pool in {Some(Host), Some(Accelerator)} && !known)
      && (HostMemoryHeadroomInsufficient in codes <==>
            e.pool in {Some(Host), Some(Accelerator)} && known
            && !(FitsSystem(e.peaks.host.value, reserve, s) && FitsSystem(m.peaks.host.value, reserve, s)))
      && (UnifiedMemoryUnavailable in codes <==>
            e.pool == Some(Unified) && (s.topology != UnifiedMemory || s.acceleratorKind != Integrated))
      && (UnifiedMemoryUnknown in codes <==> e.pool == Some(Unified) && !known)
      && (UnifiedMemoryHeadroomInsufficient in codes <==>
            e.pool == Some(Unified) && known
            && !(FitsSystem(e.peaks.unified.value, reserve, s) && FitsSystem(m.peaks.unified.value, reserve, s)))
  {
  }

  lemma {:induction false} AcceleratorCodesMean(cell: Passport, s: Snapshot, p: Profile)
    requires ValidPassport(cell) && cell.measured.pool == cell.estimated.pool
    requires cell.measured.placement == cell.estimated.placement
    ensures var codes, e, m, reserve := ResourceCodes(cell, s, p), cell.estimated, cell.measured, p.reserveMemoryBytes;
      var known := s.topology == DedicatedMemory && s.acceleratorKind == Discrete && s.acceleratorAvailableBytes.Some?;
      && (AcceleratorMemoryUnknown in codes <==> e.pool == Some(Accelerator) && !known)
      && (AcceleratorMemoryHeadroomInsufficient in codes <==>
            e.pool == Some(Accelerator) && known
            && !(FitsAccelerator(e.peaks.accelerator.value, reserve, s)
                 && FitsAccelerator(m.peaks.accelerator.value, reserve, s)))
  {
  }

  /** The snapshot is recent and its swap use is known and within the limit. */
  predicate Usable(s: Snapshot, r: Request, p: Profile) {
    && s.capturedAt <= r.evaluatedAt <= s.capturedAt + p.maxSnapshotAgeSeconds as real
    && s.swapUsedBytes.Some? && s.swapUsedBytes.value <= p.maxSwapUsedBytes
  }

  lemma {:induction false} GlobalCodesMean(s: Snapshot, r: Request, p: Profile)
    ensures var codes := GlobalCodes(s, r, p);
      && (SnapshotFromFuture in codes <==> s.capturedAt > r.evaluatedAt)
      && (SnapshotStale in codes <==> s.capturedAt + p.maxSnapshotAgeSeconds as real < r.evaluatedAt)
      && (SwapUsageUnknown in codes <==> s.swapUsedBytes == None)
      && (SwapLimitExceeded in codes <==> s.swapUsedBytes.Some? && s.swapUsedBytes.value > p.maxSwapUsedBytes)
      && (codes == {} <==> Usable(s, r, p))
  {
    var codes := GlobalCodes(s, r, p);
    if codes == {} {
      assert SnapshotFromFuture !in codes && SnapshotStale !in codes;
      assert SwapUsageUnknown !in codes && SwapLimitExceeded !in codes;
    }
  }

  // ----- advice

  function Larger(a: nat, b: nat): nat { if a < b then b else a }

  /** The bytes a cell counts with: in each of its pools the larger of estimate and measurement. */
  function Bytes(cell: Passport): nat
    requires ValidPassport(cell) && cell.measured.pool == cell.estimated.pool && cell.estimated.pool.Some?
    requires cell.measured.placement == cell.estimated.placement
  {
    var e, m := cell.estimated.peaks, cell.measured.peaks;
    match cell.estimated.pool.value
    case Host => Larger(e.host.value, m.host.value)
    case Unified => Larger(e.unified.value, m.unified.value)
    case Accelerator => Larger(e.host.value, m.host.value) + Larger(e.accelerator.value, m.accelerator.value)
  }

  /** What an admitted cell is ranked by comes from its measurement and its memory. */
  lemma {:induction false} RankedBy(cell: Passport, x: Context)
    requires ValidPassport(cell) && x.profile.Valid() && Admits(cell, x.snapshot, x.request, x.profile)
    ensures var a := Assess(cell, x.snapshot, x.request, x.profile);
      && Rankable(a) && a.cellId == cell.cellId && a.successRate == cell.measured.successRate
      && a.p95LatencyMs == cell.measured.p95LatencyMs
      && cell.measured.pool == cell.estimated.pool && cell.measured.placement == cell.estimated.placement
      && cell.estimated.pool.Some? && Memory(a) == Bytes(cell)
  {
    AssessSound(cell, x.snapshot, x.request, x.profile);
    AdmittedFits(cell, x.snapshot, x.request, x.profile);
    MemoryIs(Assess(cell, x.snapshot, x.request, x.profile));
  }

  /** The first record is ranked ahead of the second: higher rounded utility, or the tie goes its way. */
  ghost predicate Ahead(a: Assessment, b: Assessment, p: Profile)
    requires p.Valid()
  {
    && Rankable(a) && Rankable(b)
    && var ua, ub := Rounding.Round12(RawUtility(a, p)), Rounding.Round12(RawUtility(b, p));
       ua > ub || (ua == ub && BreaksTie(a, b, p))
  }

  /** The record is eligible and ahead of every other eligible one. */
  ghost predicate LeadsIn(hard: seq<Assessment>, p: Profile, i: nat)
    requires p.Valid() && i < |hard|
  {
    hard[i].hardEligible && forall j | 0 <= j < |hard| && j != i && hard[j].hardEligible :: Ahead(hard[i], hard[j], p)
  }

  lemma {:induction false} BestIffLeads(hard: seq<Assessment>, p: Profile, i: nat)
    requires Assessed(hard) && p.Valid() && i < |hard|
    ensures BestEligible(hard[i], hard, p) <==> LeadsIn(hard, p, i)
  {
    forall j | 0 <= j < |hard| && hard[j].hardEligible && hard[i].hardEligible
      ensures Rankable(hard[i]) && Rankable(hard[j])
      ensures KeyLess(KeyOf(hard[i], p), KeyOf(hard[j], p)) <==> Ahead(hard[i], hard[j], p)
    {
      PrecedesIff(hard[i], hard[j], p);
    }
    if LeadsIn(hard, p, i) {
      forall d | d in hard && d != hard[i] && d.hardEligible
        ensures Rankable(hard[i]) && Rankable(d) && KeyLess(KeyOf(hard[i], p), KeyOf(d, p))
      {
        var j :| 0 <= j < |hard| && hard[j] == d;
      }
    }
    if BestEligible(hard[i], hard, p) {
      forall j | 0 <= j < |hard| && j != i && hard[j].hardEligible ensures Ahead(hard[i], hard[j], p) {
        assert hard[j] in hard && hard[j].cellId != hard[i].cellId;
      }
    }
  }

  lemma {:induction false} SelectsLeader(hard: seq<Assessment>, p: Profile, i: nat)
    requires Assessed(hard) && p.Valid() && i < |hard| && AllRankable(Eligible(hard))
    ensures Selection(hard, p) == Some(hard[i].cellId) <==> LeadsIn(hard, p, i)
  {
    SelectionIsBest(hard, p);
    BestIffLeads(hard, p, i);
    assert hard[i] in hard;
  }

  /** What advice from a ranking says, the assessments being given. */
  lemma {:induction false} RankedReasons(a: Advice, hard: seq<Assessment>, p: Profile)
    requires p.Valid() && AllRankable(Eligible(hard)) && RankedAdvice(a, hard, p)
    ensures a.selected == Selection(hard, p)
    ensures AdvisoryOnly in a.reasons && forall code :: GlobalRejection(code) !in a.reasons
    ensures ParetoFrontierSelected in a.reasons <==> a.selected.Some?
    ensures NoEligibleCell in a.reasons <==> a.selected.None?
  {
  }

  lemma {:induction false} BlockedReasons(a: Advice, cells: seq<Passport>, codes: set<RejectionCode>)
    requires BlockedAdvice(a, cells, codes)
    ensures AdvisoryOnly in a.reasons && ParetoFrontierSelected !in a.reasons && NoEligibleCell !in a.reasons
    ensures forall code :: GlobalRejection(code) in a.reasons <==> code in codes
  {
  }

  /** Blocked or ranked, what the reasons say of the advice. */
  lemma {:induction false} ReasonsMean(
      a: Advice, c: Catalog, x: Context, hard: seq<Assessment>, codes: set<RejectionCode>)
    requires x.profile.Valid() && AllRankable(Eligible(hard)) && BoundTo(a, c, x)
    requires if codes != {} then BlockedAdvice(a, c.cells, codes) else RankedAdvice(a, hard, x.profile)
    ensures a.selected == if codes == {} then Selection(hard, x.profile) else None
    ensures a.status == Recommended <==> a.selected.Some?
    ensures AdvisoryOnly in a.reasons && (ParetoFrontierSelected in a.reasons <==> a.status == Recommended)
    ensures NoEligibleCell in a.reasons <==> a.status == Abstained && codes == {}
    ensures forall code :: GlobalRejection(code) in a.reasons <==> code in codes
  {
    if codes != {} { BlockedReasons(a, c.cells, codes); } else { RankedReasons(a, hard, x.profile); }
  }

  /** Advice recommends exactly when the snapshot is usable and some cell is admitted; its reasons say
      which of the three cases it is. */
  lemma {:induction false} AdviceMeans(a: Advice, c: Catalog, x: Context)
    requires ValidCatalog(c) && x.profile.Valid() && AllRankable(Eligible(Assessments(c.cells, x)))
    requires Advises(a, c, x)
    ensures a.status == Recommended <==>
      && Usable(x.snapshot, x.request, x.profile)
      && exists i :: 0 <= i < |c.cells| && Admits(c.cells[i], x.snapshot, x.request, x.profile)
    ensures a.status == Abstained <==> a.selected == None
    ensures AdvisoryOnly in a.reasons
    ensures ParetoFrontierSelected in a.reasons <==> a.status == Recommended
    ensures NoEligibleCell in a.reasons <==> a.status == Abstained && Usable(x.snapshot, x.request, x.profile)
    ensures forall code :: GlobalRejection(code) in a.reasons <==> code in GlobalCodes(x.snapshot, x.request, x.profile)
  {
    CatalogCells(c);
    SelectsIffAdmits(c.cells, x);
    GlobalCodesMean(x.snapshot, x.request, x.profile);
    ReasonsMean(a, c, x, Assessments(c.cells, x), GlobalCodes(x.snapshot, x.request, x.profile));
  }

  /** The recommended cell is the eligible one ahead of every other eligible cell. */
  lemma {:induction false} RecommendedLeads(a: Advice, c: Catalog, x: Context, hard: seq<Assessment>, i: nat)
    requires ValidCatalog(c) && x.profile.Valid() && AllRankable(Eligible(Assessments(c.cells, x)))
    requires Advises(a, c, x) && hard == Assessments(c.cells, x) && i < |hard|
    ensures hard[i].cellId == c.cells[i].cellId
    ensures a.selected == Some(hard[i].cellId) <==>
      Usable(x.snapshot, x.request, x.profile) && LeadsIn(hard, x.profile, i)
  {
    CatalogCells(c);
    AssessmentsSound(c.cells, x);
    GlobalCodesMean(x.snapshot, x.request, x.profile);
    SelectsLeader(hard, x.profile, i);
  }

  /** The record of a ranked cell, the assessments being given. */
  lemma {:induction false} FinalMeans(hard: seq<Assessment>, p: Profile, i: nat)
    requires Assessed(hard) && p.Valid() && AllRankable(Eligible(hard)) && i < |hard|
    requires !hard[i].paretoEligible
    ensures var r := Final(hard[i], Eligible(hard), p);
      && r.cellId == hard[i].cellId && (r.hardEligible <==> hard[i].hardEligible)
      && (hard[i].hardEligible ==> Rankable(hard[i]))
      && (r.paretoEligible <==>
            hard[i].hardEligible
            && forall j | 0 <= j < |hard| && j != i && hard[j].hardEligible ::
                 Rankable(hard[j]) && !Dominates(hard[j], hard[i], p))
  {
    var e := Eligible(hard);
    EligibleMembers(hard);
    if hard[i].hardEligible {
      if Dominated(hard[i], e, p) {
        var k :| 0 <= k < |e| && e[k].cellId != hard[i].cellId && Dominates(e[k], hard[i], p);
        assert e[k] in e;
        var j :| 0 <= j < |hard| && hard[j] == e[k];
      } else {
        forall j | 0 <= j < |hard| && j != i && hard[j].hardEligible
          ensures Rankable(hard[j]) && !Dominates(hard[j], hard[i], p)
        {
          assert hard[j] in hard && hard[j] in e && hard[j].cellId != hard[i].cellId;
          var k :| 0 <= k < |e| && e[k] == hard[j];
        }
      }
    }
  }

  /** Every cell has its record in the advice, in catalog order: eligible exactly when it was assessed
      so, and on the frontier exactly when no other eligible cell dominates it. */
  lemma {:induction false} RecordsMean(a: Advice, c: Catalog, x: Context, hard: seq<Assessment>, i: nat)
    requires ValidCatalog(c) && x.profile.Valid() && AllRankable(Eligible(Assessments(c.cells, x)))
    requires Advises(a, c, x) && hard == Assessments(c.cells, x) && i < |hard|
    ensures |a.candidates| == |hard| && a.candidates[i].cellId == hard[i].cellId
    ensures a.candidates[i].hardEligible <==> Usable(x.snapshot, x.request, x.profile) && hard[i].hardEligible
    ensures a.candidates[i].paretoEligible <==>
      a.candidates[i].hardEligible
      && forall j | 0 <= j < |hard| && j != i && hard[j].hardEligible ::
           Rankable(hard[i]) && Rankable(hard[j]) && !Dominates(hard[j], hard[i], x.profile)
  {
    CatalogCells(c);
    AssessmentsSound(c.cells, x);
    GlobalCodesMean(x.snapshot, x.request, x.profile);
    FinalMeans(hard, x.profile, i);
  }
}
