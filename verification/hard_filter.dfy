/**
 The selector's hard eligibility filter. `HardFilter` grows a set of rejection codes step
 by step; each code is specified on its own by `Rejects`, and eligibility is tied to the
 declarative requirement `Admits`.
 */
module HardFilters {
  import opened Basics
  import opened CellContracts

  datatype RejectionCode =
    | OfflineNotSupported | SystemNotSupported | MachineNotSupported
    | CapabilityGap | ToolSurfaceGap | RiskClassNotSupported | ContextWindowExceeded
    | ExpectedIdentityUnknown(c: Component) | AvailabilityUnknown(c: Component)
    | Unavailable(c: Component) | IdentityMismatch(c: Component)
    | ObservationFromFuture | ObservationExpired
    | ResourceEstimateUnknown | MeasurementUnknown
    | MeasurementDemandMismatch | MeasurementEvaluationContractMismatch
    | MeasurementNotApplicable | MeasurementPlacementMismatch
    | InsufficientSamples | QualityFloorNotMet
    | MeasurementFromFuture | MeasurementExpired
    | HostMemoryUnknown | HostMemoryHeadroomInsufficient
    | UnifiedMemoryUnavailable | UnifiedMemoryUnknown | UnifiedMemoryHeadroomInsufficient
    | AcceleratorMemoryUnknown | AcceleratorMemoryHeadroomInsufficient
    | ResourceClassUnknown | AcceleratorIdentityUnknown | RankingMetricUnknown
    | SnapshotFromFuture | SnapshotStale | SwapUsageUnknown | SwapLimitExceeded

  datatype Assessment = Assessment(
    cellId: string, passportDigest: string, hardEligible: bool, paretoEligible: bool,
    rejectionCodes: set<RejectionCode>,
    successRate: Option<real>, p95LatencyMs: Option<real>,
    pool: Option<Pool>, placement: Option<Placement>, peaks: Peaks,
    utility: Option<real>)
  {
    /** Total over the pools that are present. */
    function TotalMemory(): Option<nat> {
      if peaks == Peaks(None, None, None) then None else
        Some(OrZero(peaks.host) + OrZero(peaks.unified) + OrZero(peaks.accelerator))
    }

    /** Everything the assessment's constructor checks before it accepts the record. */
    predicate Valid() {
      && PositivePeaks(peaks) && ResourceShape(pool, placement, peaks)
      && (successRate.Some? ==> 0.0 <= successRate.value <= 1.0)
      && (p95LatencyMs.Some? ==> 0.0 <= p95LatencyMs.value)
      && (utility.Some? ==> 0.0 <= utility.value <= 1.0)
      && (hardEligible ==>
            rejectionCodes == {} && successRate.Some? && p95LatencyMs.Some? && pool.Some? && placement.Some?)
      && (!hardEligible ==> !paretoEligible && utility.None?)
      && (paretoEligible <==> utility.Some?)
    }
  }

  function OrZero(x: Option<nat>): nat { if x.Some? then x.value else 0 }

  // ----- effective resources

  function Maximum(left: Option<nat>, right: Option<nat>): (r: Option<nat>)
    ensures r.Some? <==> left.Some? || right.Some?
    ensures left.Some? ==> left.value <= r.value
    ensures right.Some? ==> right.value <= r.value
    ensures r.Some? ==> r == left || r == right
  {
    if left.None? then right
    else if right.None? then left
    else Some(Max(left.value, right.value))
  }

  predicate MeasurementApplies(cell: Passport) {
    cell.measured.pool == cell.estimated.pool && cell.measured.placement == cell.estimated.placement
  }

  function EffectivePeaks(cell: Passport): Peaks {
    var e, m := cell.estimated.peaks, cell.measured.peaks;
    if cell.estimated.pool.None? || cell.estimated.placement.None? then Peaks(None, None, None)
    else if MeasurementApplies(cell) then
      Peaks(Maximum(e.host, m.host), Maximum(e.unified, m.unified), Maximum(e.accelerator, m.accelerator))
    else
      Peaks(Maximum(e.host, None), Maximum(e.unified, None), Maximum(e.accelerator, None))
  }

  /** The effective peaks keep the shape the constructor demands of an assessment. */
  lemma {:induction false} EffectivePeaksShape(cell: Passport)
    requires ValidPassport(cell)
    ensures ResourceShape(cell.estimated.pool, cell.estimated.placement, EffectivePeaks(cell))
    ensures PositivePeaks(EffectivePeaks(cell))
  {
    assert cell.estimated.placement.None? ==> cell.estimated.pool.None?;
  }

  // ----- what each code means

  function SystemAvailable(s: Snapshot): Option<nat> {
    if s.availableMemoryBytes.Some? && s.effectiveMemoryLimitBytes.Some?
    then Some(Min(s.availableMemoryBytes.value, s.effectiveMemoryLimitBytes.value))
    else None
  }

  predicate Exceeds(peak: Option<nat>, reserve: nat, available: Option<nat>) {
    available.Some? && (peak.None? || peak.value + reserve > available.value)
  }

  predicate OnHost(e: Estimate) { e.pool == Some(Host) && e.placement == Some(Cpu) }

  predicate OnUnified(e: Estimate) { e.pool == Some(Unified) && e.placement == Some(IntegratedAccelerator) }

  predicate OnAccelerator(e: Estimate) {
    e.pool == Some(Accelerator) && e.placement == Some(DiscreteAccelerator)
  }

  predicate DiscreteMemoryKnown(s: Snapshot) {
    s.topology.DedicatedMemory? && s.acceleratorKind.Discrete? && s.acceleratorAvailableBytes.Some?
  }

  predicate SnapshotIdentified(s: Snapshot) {
    && s.system != "unknown" && s.osRelease != "unknown" && s.cpuCount.Some? && s.cpuIdentity.Some?
    && s.totalMemoryBytes.Some? && s.runtimeEnvironment.Some? && s.effectiveMemoryLimitBytes.Some?
  }

  function If(condition: bool, code: RejectionCode): set<RejectionCode> {
    if condition then {code} else {}
  }

  function DemandCodes(cell: Passport, s: Snapshot, r: Request): set<RejectionCode> {
    var d := cell.declaration;
    If(!d.offlineCapable, OfflineNotSupported)
    + If(s.system !in d.supportedSystems, SystemNotSupported)
    + If(s.machine !in d.supportedMachines, MachineNotSupported)
    + If(!(r.demand.capabilities <= d.capabilities), CapabilityGap)
    + If(!(r.demand.toolSurfaces <= d.toolSurfaces), ToolSurfaceGap)
    + If(r.demand.riskClass !in d.riskClasses, RiskClassNotSupported)
    + If(r.demand.contextTokens > d.maxContextTokens, ContextWindowExceeded)
  }

  function ComponentCodes(cell: Passport, c: Component): set<RejectionCode> {
    var expected, status := cell.declaration.expected.Of(c), cell.observed.status.Of(c);
    If(expected.None?, ExpectedIdentityUnknown(c))
    + If(status.Unknown?, AvailabilityUnknown(c))
    + If(status.Missing?, Unavailable(c))
    + If(status.Available? && expected.Some? && cell.observed.actual.Of(c) != expected, IdentityMismatch(c))
  }

  function IdentityCodes(cell: Passport): set<RejectionCode> {
    ComponentCodes(cell, Model) + ComponentCodes(cell, Runtime)
    + ComponentCodes(cell, Harness) + ComponentCodes(cell, ToolContract)
  }

  function FreshnessCodes(start: Option<real>, expires: Option<real>, at: real,
                          fromFuture: RejectionCode, expired: RejectionCode): set<RejectionCode> {
    If(start.Some? && expires.Some? && start.value > at, fromFuture)
    + If(start.Some? && expires.Some? && at >= expires.value, expired)
  }

  function MeasurementCodes(cell: Passport, s: Snapshot, r: Request, p: Profile): set<RejectionCode> {
    var m := cell.measured;
    if m.sampleCount == 0 then {MeasurementUnknown} else
      If(m.demandDigest != Some(r.demand.digest), MeasurementDemandMismatch)
      + If(m.evaluationContract != Some(r.evaluationContract), MeasurementEvaluationContractMismatch)
      + If(m.resourceClass != Some(s.resourceClass), MeasurementNotApplicable)
      + If(!MeasurementApplies(cell), MeasurementPlacementMismatch)
      + If(m.sampleCount < p.minSamples, InsufficientSamples)
      + If(m.successRate.Some? && m.successRate.value < p.minSuccessRate, QualityFloorNotMet)
      + FreshnessCodes(m.measuredAt, m.expiresAt, r.evaluatedAt, MeasurementFromFuture, MeasurementExpired)
  }

  function ResourceCodes(cell: Passport, s: Snapshot, p: Profile): set<RejectionCode> {
    var e, peaks, reserve, available := cell.estimated, EffectivePeaks(cell), p.reserveMemoryBytes, SystemAvailable(s);
    If((OnHost(e) || OnAccelerator(e)) && available.None?, HostMemoryUnknown)
    + If((OnHost(e) || OnAccelerator(e)) && Exceeds(peaks.host, reserve, available), HostMemoryHeadroomInsufficient)
    + If(OnUnified(e) && !(s.topology.UnifiedMemory? && s.acceleratorKind.Integrated?), UnifiedMemoryUnavailable)
    + If(OnUnified(e) && available.None?, UnifiedMemoryUnknown)
    + If(OnUnified(e) && Exceeds(peaks.unified, reserve, available), UnifiedMemoryHeadroomInsufficient)
    + If(OnAccelerator(e) && !DiscreteMemoryKnown(s), AcceleratorMemoryUnknown)
    + If(OnAccelerator(e) && DiscreteMemoryKnown(s)
         && Exceeds(peaks.accelerator, reserve, s.acceleratorAvailableBytes),
         AcceleratorMemoryHeadroomInsufficient)
  }

  predicate UsesAccelerator(e: Estimate) {
    e.placement in {Some(IntegratedAccelerator), Some(DiscreteAccelerator)}
  }

  /** All codes a cell is rejected with: each one exactly under its own condition. */
  function RejectionCodes(cell: Passport, s: Snapshot, r: Request, p: Profile): set<RejectionCode> {
    DemandCodes(cell, s, r)
    + IdentityCodes(cell)
    + FreshnessCodes(cell.observed.capturedAt, cell.observed.expiresAt, r.evaluatedAt,
                     ObservationFromFuture, ObservationExpired)
    + If(cell.estimated.pool.None? || cell.estimated.placement.None?, ResourceEstimateUnknown)
    + MeasurementCodes(cell, s, r, p)
    + ResourceCodes(cell, s, p)
    + If(!SnapshotIdentified(s), ResourceClassUnknown)
    + If(UsesAccelerator(cell.estimated) && s.acceleratorIdentity.None?, AcceleratorIdentityUnknown)
  }

  // ----- the declarative requirement

  predicate SupportsDemand(cell: Passport, s: Snapshot, r: Request) {
    var d := cell.declaration;
    && d.offlineCapable && s.system in d.supportedSystems && s.machine in d.supportedMachines
    && r.demand.capabilities <= d.capabilities && r.demand.toolSurfaces <= d.toolSurfaces
    && r.demand.riskClass in d.riskClasses && r.demand.contextTokens <= d.maxContextTokens
  }

  predicate IdentityVerified(cell: Passport, at: real) {
    && (forall c: Component :: Verified(cell, c))
    && Fresh(cell.observed.capturedAt, cell.observed.expiresAt, at)
  }

  /** Captured no later than `at` and not yet expired. */
  predicate Fresh(start: Option<real>, expires: Option<real>, at: real) {
    start.Some? && expires.Some? && start.value <= at < expires.value
  }

  predicate MeasuredFor(cell: Passport, s: Snapshot, r: Request, p: Profile) {
    var m := cell.measured;
    && m.sampleCount >= p.minSamples && m.successRate.Some? && m.successRate.value >= p.minSuccessRate
    && m.demandDigest == Some(r.demand.digest) && m.evaluationContract == Some(r.evaluationContract)
    && m.resourceClass == Some(s.resourceClass) && MeasurementApplies(cell)
    && Fresh(m.measuredAt, m.expiresAt, r.evaluatedAt)
  }

  /** The peak plus the reserve fits what is available. */
  predicate Fits(peak: Option<nat>, reserve: nat, available: Option<nat>) {
    peak.Some? && available.Some? && peak.value + reserve <= available.value
  }

  predicate HasHeadroom(cell: Passport, s: Snapshot, p: Profile) {
    var peaks, reserve := EffectivePeaks(cell), p.reserveMemoryBytes;
    match cell.estimated.pool
    case None => false
    case Some(Host) => Fits(peaks.host, reserve, SystemAvailable(s))
    case Some(Unified) =>
      && s.topology.UnifiedMemory? && s.acceleratorKind.Integrated? && s.acceleratorIdentity.Some?
      && Fits(peaks.unified, reserve, SystemAvailable(s))
    case Some(Accelerator) =>
      && s.topology.DedicatedMemory? && s.acceleratorKind.Discrete? && s.acceleratorIdentity.Some?
      && Fits(peaks.accelerator, reserve, s.acceleratorAvailableBytes)
      && Fits(peaks.host, reserve, SystemAvailable(s))
  }

  /** What a cell must satisfy to be eligible at all. */
  predicate Admits(cell: Passport, s: Snapshot, r: Request, p: Profile) {
    && SupportsDemand(cell, s, r)
    && IdentityVerified(cell, r.evaluatedAt)
    && MeasuredFor(cell, s, r, p)
    && SnapshotIdentified(s)
    && HasHeadroom(cell, s, p)
  }

  lemma {:induction false} UnionEmpty(a: set<RejectionCode>, b: set<RejectionCode>)
    ensures a + b == {} <==> a == {} && b == {}
  {
    if a + b == {} {
      assert forall x :: x in a ==> x in a + b;
      assert forall x :: x in b ==> x in a + b;
    }
  }

  lemma {:induction false} DemandCodesEmpty(cell: Passport, s: Snapshot, r: Request)
    ensures DemandCodes(cell, s, r) == {} <==> SupportsDemand(cell, s, r)
  {
    var codes := DemandCodes(cell, s, r);
    if codes == {} {
      assert OfflineNotSupported !in codes && SystemNotSupported !in codes && MachineNotSupported !in codes;
      assert CapabilityGap !in codes && ToolSurfaceGap !in codes && RiskClassNotSupported !in codes;
      assert ContextWindowExceeded !in codes;
    }
  }

  predicate Verified(cell: Passport, c: Component) {
    && cell.declaration.expected.Of(c).Some?
    && cell.observed.status.Of(c).Available?
    && cell.observed.actual.Of(c) == cell.declaration.expected.Of(c)
  }

  lemma {:induction false} ComponentCodesEmpty(cell: Passport, c: Component)
    ensures ComponentCodes(cell, c) == {} <==> Verified(cell, c)
  {
    var codes := ComponentCodes(cell, c);
    if codes == {} {
      assert ExpectedIdentityUnknown(c) !in codes && AvailabilityUnknown(c) !in codes;
      assert Unavailable(c) !in codes && IdentityMismatch(c) !in codes;
    }
  }

  lemma {:induction false} IdentityCodesEmpty(cell: Passport)
    ensures IdentityCodes(cell) == {} <==> forall c: Component :: Verified(cell, c)
  {
    ComponentCodesEmpty(cell, Model);
    ComponentCodesEmpty(cell, Runtime);
    ComponentCodesEmpty(cell, Harness);
    ComponentCodesEmpty(cell, ToolContract);
    UnionEmpty(ComponentCodes(cell, Model), ComponentCodes(cell, Runtime));
    UnionEmpty(ComponentCodes(cell, Model) + ComponentCodes(cell, Runtime), ComponentCodes(cell, Harness));
    UnionEmpty(ComponentCodes(cell, Model) + ComponentCodes(cell, Runtime) + ComponentCodes(cell, Harness),
               ComponentCodes(cell, ToolContract));
  }

  lemma {:induction false} FreshnessCodesEmpty(
      start: Option<real>, expires: Option<real>, at: real, f: RejectionCode, x: RejectionCode)
    requires start.Some? && expires.Some?
    ensures FreshnessCodes(start, expires, at, f, x) == {} <==> Fresh(start, expires, at)
  {
    var codes := FreshnessCodes(start, expires, at, f, x);
    if codes == {} { assert f !in codes && x !in codes; }
  }

  lemma {:induction false} MeasurementCodesEmpty(cell: Passport, s: Snapshot, r: Request, p: Profile)
    requires ValidPassport(cell) && p.Valid()
    ensures MeasurementCodes(cell, s, r, p) == {} <==> MeasuredFor(cell, s, r, p)
  {
    var codes, m := MeasurementCodes(cell, s, r, p), cell.measured;
    if codes == {} {
      assert MeasurementUnknown !in codes;
      assert m.sampleCount > 0;
      assert MeasurementDemandMismatch !in codes && MeasurementEvaluationContractMismatch !in codes;
      assert MeasurementNotApplicable !in codes && MeasurementPlacementMismatch !in codes;
      assert InsufficientSamples !in codes && QualityFloorNotMet !in codes;
      assert MeasurementFromFuture !in codes && MeasurementExpired !in codes;
    }
  }

  /** With a known estimate, no resource code and an identified accelerator amount to headroom. */
  lemma {:induction false} ResourceCodesEmpty(cell: Passport, s: Snapshot, p: Profile)
    requires ValidPassport(cell) && cell.estimated.pool.Some?
    ensures (ResourceCodes(cell, s, p) == {} && !(UsesAccelerator(cell.estimated) && s.acceleratorIdentity.None?))
            <==> HasHeadroom(cell, s, p)
  {
    var codes := ResourceCodes(cell, s, p);
    EffectivePeaksShape(cell);
    if codes == {} {
      assert HostMemoryUnknown !in codes && HostMemoryHeadroomInsufficient !in codes;
      assert UnifiedMemoryUnavailable !in codes && UnifiedMemoryUnknown !in codes;
      assert UnifiedMemoryHeadroomInsufficient !in codes;
      assert AcceleratorMemoryUnknown !in codes && AcceleratorMemoryHeadroomInsufficient !in codes;
    }
  }

  /** A cell collects no rejection code exactly when it meets the declarative requirement. */
  lemma {:induction false} NoRejectionIffAdmits(cell: Passport, s: Snapshot, r: Request, p: Profile)
    requires ValidPassport(cell) && p.Valid()
    ensures RejectionCodes(cell, s, r, p) == {} <==> Admits(cell, s, r, p)
  {
    var a, b := DemandCodes(cell, s, r), IdentityCodes(cell);
    var c := FreshnessCodes(cell.observed.capturedAt, cell.observed.expiresAt, r.evaluatedAt,
                            ObservationFromFuture, ObservationExpired);
    var d := If(cell.estimated.pool.None? || cell.estimated.placement.None?, ResourceEstimateUnknown);
    var e, f := MeasurementCodes(cell, s, r, p), ResourceCodes(cell, s, p);
    var g := If(!SnapshotIdentified(s), ResourceClassUnknown);
    var h := If(UsesAccelerator(cell.estimated) && s.acceleratorIdentity.None?, AcceleratorIdentityUnknown);
    UnionEmpty(a, b);
    UnionEmpty(a + b, c);
    UnionEmpty(a + b + c, d);
    UnionEmpty(a + b + c + d, e);
    UnionEmpty(a + b + c + d + e, f);
    UnionEmpty(a + b + c + d + e + f, g);
    UnionEmpty(a + b + c + d + e + f + g, h);
    DemandCodesEmpty(cell, s, r);
    IdentityCodesEmpty(cell);
    MeasurementCodesEmpty(cell, s, r, p);
    if cell.estimated.pool.Some? { ResourceCodesEmpty(cell, s, p); }
    if forall k: Component :: Verified(cell, k) {
      assert Verified(cell, Model);
      FreshnessCodesEmpty(cell.observed.capturedAt, cell.observed.expiresAt, r.evaluatedAt,
                          ObservationFromFuture, ObservationExpired);
    }
    assert ResourceEstimateUnknown in {ResourceEstimateUnknown} && ResourceClassUnknown in {ResourceClassUnknown};
    assert AcceleratorIdentityUnknown in {AcceleratorIdentityUnknown};
  }

  /** Raising only the free host or accelerator memory never makes an eligible cell ineligible. */
  lemma {:induction false} MoreMemoryKeepsEligibility(cell: Passport, s: Snapshot, s': Snapshot, r: Request, p: Profile)
    requires s.availableMemoryBytes.Some? ==>
      s'.availableMemoryBytes.Some? && s.availableMemoryBytes.value <= s'.availableMemoryBytes.value
    requires s.acceleratorAvailableBytes.Some? ==>
      s'.acceleratorAvailableBytes.Some?
      && s.acceleratorAvailableBytes.value <= s'.acceleratorAvailableBytes.value
    requires s' == s.(availableMemoryBytes := s'.availableMemoryBytes,
                      acceleratorAvailableBytes := s'.acceleratorAvailableBytes, digest := s'.digest)
    requires Admits(cell, s, r, p)
    ensures Admits(cell, s', r, p)
  {
  }

  // ----- the filter itself

  method Freshness(start: Option<real>, expires: Option<real>, at: real,
                   fromFuture: RejectionCode, expired: RejectionCode, rejected: set<RejectionCode>)
    returns (r: set<RejectionCode>)
    ensures r == rejected + FreshnessCodes(start, expires, at, fromFuture, expired)
  {
    r := rejected;
    if start.None? || expires.None? { return; }
    r := AddWhen(start.value > at, fromFuture, r);
    r := AddWhen(at >= expires.value, expired, r);
  }

  method ResourceRejections(cell: Passport, s: Snapshot, p: Profile, rejected: set<RejectionCode>)
    returns (r: set<RejectionCode>)
    ensures r == rejected + ResourceCodes(cell, s, p)
  {
    r := rejected;
    var peaks := EffectivePeaks(cell);
    var available := SystemAvailable(s);
    if cell.estimated.pool == Some(Host) && cell.estimated.placement == Some(Cpu) {
      if available.None? {
        r := r + {HostMemoryUnknown};
      } else if peaks.host.None? || peaks.host.value + p.reserveMemoryBytes > available.value {
        r := r + {HostMemoryHeadroomInsufficient};
      }
    } else if cell.estimated.pool == Some(Unified) && cell.estimated.placement == Some(IntegratedAccelerator) {
      if !s.topology.UnifiedMemory? || !s.acceleratorKind.Integrated? {
        r := r + {UnifiedMemoryUnavailable};
      }
      if available.None? {
        r := r + {UnifiedMemoryUnknown};
      } else if peaks.unified.None? || peaks.unified.value + p.reserveMemoryBytes > available.value {
        r := r + {UnifiedMemoryHeadroomInsufficient};
      }
    } else if cell.estimated.pool == Some(Accelerator) && cell.estimated.placement == Some(DiscreteAccelerator) {
      if !s.topology.DedicatedMemory? || !s.acceleratorKind.Discrete? || s.acceleratorAvailableBytes.None? {
        r := r + {AcceleratorMemoryUnknown};
      } else if peaks.accelerator.None?
                || peaks.accelerator.value + p.reserveMemoryBytes > s.acceleratorAvailableBytes.value {
        r := r + {AcceleratorMemoryHeadroomInsufficient};
      }
      if available.None? {
        r := r + {HostMemoryUnknown};
      } else if peaks.host.None? || peaks.host.value + p.reserveMemoryBytes > available.value {
        r := r + {HostMemoryHeadroomInsufficient};
      }
    }
  }

  /** Codes of the first `i` components of the loop. */
  ghost function ComponentCodesUpTo(cell: Passport, i: nat): set<RejectionCode>
    requires i <= |COMPONENTS|
  {
    if i == 0 then {} else ComponentCodesUpTo(cell, i - 1) + ComponentCodes(cell, COMPONENTS[i - 1])
  }

  method ComponentRejections(cell: Passport, rejected: set<RejectionCode>) returns (r: set<RejectionCode>)
    ensures r == rejected + IdentityCodes(cell)
  {
    r := rejected;
    for i := 0 to |COMPONENTS|
      invariant r == rejected + ComponentCodesUpTo(cell, i)
    {
      var c := COMPONENTS[i];
      var status := cell.observed.status.Of(c);
      var expected := cell.declaration.expected.Of(c);
      if expected.None? { r := r + {ExpectedIdentityUnknown(c)}; }
      if status.Unknown? {
        r := r + {AvailabilityUnknown(c)};
      } else if !status.Available? {
        r := r + {Unavailable(c)};
      } else if expected.Some? && cell.observed.actual.Of(c) != expected {
        r := r + {IdentityMismatch(c)};
      }
    }
    calc {
      ComponentCodesUpTo(cell, 4);
      ComponentCodesUpTo(cell, 3) + ComponentCodes(cell, ToolContract);
      ComponentCodesUpTo(cell, 2) + ComponentCodes(cell, Harness) + ComponentCodes(cell, ToolContract);
      ComponentCodesUpTo(cell, 1) + ComponentCodes(cell, Runtime)
        + ComponentCodes(cell, Harness) + ComponentCodes(cell, ToolContract);
      IdentityCodes(cell);
    }
  }

  method DemandRejections(cell: Passport, s: Snapshot, req: Request) returns (r: set<RejectionCode>)
    ensures r == DemandCodes(cell, s, req)
  {
    var d := cell.declaration;
    r := {};
    if !d.offlineCapable { r := r + {OfflineNotSupported}; }
    if s.system !in d.supportedSystems { r := r + {SystemNotSupported}; }
    if s.machine !in d.supportedMachines { r := r + {MachineNotSupported}; }
    if !(req.demand.capabilities <= d.capabilities) { r := r + {CapabilityGap}; }
    if !(req.demand.toolSurfaces <= d.toolSurfaces) { r := r + {ToolSurfaceGap}; }
    if req.demand.riskClass !in d.riskClasses { r := r + {RiskClassNotSupported}; }
    if req.demand.contextTokens > d.maxContextTokens { r := r + {ContextWindowExceeded}; }
  }

  method MeasurementRejections(cell: Passport, s: Snapshot, req: Request, p: Profile,
                               rejected: set<RejectionCode>)
    returns (r: set<RejectionCode>)
    ensures r == rejected + MeasurementCodes(cell, s, req, p)
  {
    var m := cell.measured;
    r := rejected;
    if m.sampleCount == 0 {
      r := r + {MeasurementUnknown};
    } else {
      if m.demandDigest != Some(req.demand.digest) { r := r + {MeasurementDemandMismatch}; }
      if m.evaluationContract != Some(req.evaluationContract) { r := r + {MeasurementEvaluationContractMismatch}; }
      if m.resourceClass != Some(s.resourceClass) { r := r + {MeasurementNotApplicable}; }
      if m.pool != cell.estimated.pool || m.placement != cell.estimated.placement {
        r := r + {MeasurementPlacementMismatch};
      }
      if m.sampleCount < p.minSamples { r := r + {InsufficientSamples}; }
      if m.successRate.Some? && m.successRate.value < p.minSuccessRate { r := r + {QualityFloorNotMet}; }
      r := Freshness(m.measuredAt, m.expiresAt, req.evaluatedAt, MeasurementFromFuture, MeasurementExpired, r);
    }
  }

  /** The unranked assessment of a cell: eligible exactly when no code was collected. */
  function Assess(cell: Passport, s: Snapshot, r: Request, p: Profile): Assessment {
    var codes := RejectionCodes(cell, s, r, p);
    Bare(cell, codes)
  }

  function Bare(cell: Passport, codes: set<RejectionCode>): Assessment {
    Assessment(cell.cellId, cell.digest, codes == {}, false, codes,
               cell.measured.successRate, cell.measured.p95LatencyMs,
               cell.estimated.pool, cell.estimated.placement, EffectivePeaks(cell), None)
  }

  /** Eligibility is the declarative requirement, and the constructor accepts the record. */
  lemma {:induction false} AssessSound(cell: Passport, s: Snapshot, r: Request, p: Profile)
    requires ValidPassport(cell) && p.Valid()
    ensures Assess(cell, s, r, p).hardEligible <==> Admits(cell, s, r, p)
    ensures Assess(cell, s, r, p).Valid()
  {
    NoRejectionIffAdmits(cell, s, r, p);
    EffectivePeaksShape(cell);
  }

  method AddWhen(condition: bool, code: RejectionCode, rejected: set<RejectionCode>)
    returns (r: set<RejectionCode>)
    ensures r == rejected + If(condition, code)
  {
    r := rejected;
    if condition { r := r + {code}; }
  }

  method CollectRejections(cell: Passport, s: Snapshot, r: Request, p: Profile)
    returns (rejected: set<RejectionCode>)
    ensures rejected == RejectionCodes(cell, s, r, p)
  {
    rejected := DemandRejections(cell, s, r);
    rejected := ComponentRejections(cell, rejected);
    rejected := Freshness(cell.observed.capturedAt, cell.observed.expiresAt, r.evaluatedAt,
                          ObservationFromFuture, ObservationExpired, rejected);
    rejected := AddWhen(cell.estimated.pool.None? || cell.estimated.placement.None?, ResourceEstimateUnknown, rejected);
    rejected := MeasurementRejections(cell, s, r, p, rejected);
    rejected := ResourceRejections(cell, s, p, rejected);
    rejected := AddWhen(!SnapshotIdentified(s), ResourceClassUnknown, rejected);
    rejected := AddWhen(UsesAccelerator(cell.estimated) && s.acceleratorIdentity.None?,
                        AcceleratorIdentityUnknown, rejected);
  }

  /** Each code is collected exactly under its own condition, a cell is eligible exactly when it
      meets the declarative requirement, and the assessment's constructor accepts the record. */
  method HardFilter(cell: Passport, s: Snapshot, r: Request, p: Profile) returns (a: Assessment)
    requires ValidPassport(cell) && p.Valid()
    ensures a == Assess(cell, s, r, p)
    ensures a.hardEligible <==> Admits(cell, s, r, p)
    ensures a.Valid()
  {
    var rejected := CollectRejections(cell, s, r, p);
    AssessSound(cell, s, r, p);
    if rejected == {}
       && (cell.measured.successRate.None? || cell.measured.p95LatencyMs.None?
           || cell.estimated.pool.None? || cell.estimated.placement.None?) {
      rejected := {RankingMetricUnknown};
    }
    a := Bare(cell, rejected);
  }
}
