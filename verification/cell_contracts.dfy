/**
 The evidence records the adaptive selector reads: cell passports, advisor profiles,
 resource snapshots and requests, with the checks their constructors enforce.
 Timestamps are seconds on one clock.
 */
module CellContracts {
  import opened Basics
  import Ordering

  datatype Pool = Host | Unified | Accelerator
  datatype Placement = Cpu | IntegratedAccelerator | DiscreteAccelerator
  datatype Availability = Available | Missing | Unknown
  datatype Component = Model | Runtime | Harness | ToolContract
  datatype Topology = UnifiedMemory | SystemMemory | DedicatedMemory | UnknownTopology
  datatype AcceleratorKind = Integrated | Discrete | NoAccelerator | UnknownAccelerator

  const COMPONENTS: seq<Component> := [Model, Runtime, Harness, ToolContract]

  /** One optional digest per component of a cell. */
  datatype Identities = Identities(
    model: Option<string>, runtime: Option<string>, harness: Option<string>, toolContract: Option<string>)
  {
    function Of(c: Component): Option<string> {
      match c
      case Model => model
      case Runtime => runtime
      case Harness => harness
      case ToolContract => toolContract
    }
  }

  datatype Statuses = Statuses(
    model: Availability, runtime: Availability, harness: Availability, toolContract: Availability)
  {
    function Of(c: Component): Availability {
      match c
      case Model => model
      case Runtime => runtime
      case Harness => harness
      case ToolContract => toolContract
    }
  }

  datatype Demand = Demand(
    capabilities: set<string>, toolSurfaces: set<string>, riskClass: string,
    contextTokens: nat, digest: string)

  datatype Declaration = Declaration(
    offlineCapable: bool, supportedSystems: set<string>, supportedMachines: set<string>,
    capabilities: set<string>, toolSurfaces: set<string>, riskClasses: set<string>,
    maxContextTokens: nat, expected: Identities)

  datatype Observation = Observation(
    status: Statuses, actual: Identities, capturedAt: Option<real>, expiresAt: Option<real>)

  /** Peak memory per pool; which entries are present depends on the pool. */
  datatype Peaks = Peaks(host: Option<nat>, unified: Option<nat>, accelerator: Option<nat>)

  datatype Estimate = Estimate(pool: Option<Pool>, placement: Option<Placement>, peaks: Peaks)

  datatype Measurement = Measurement(
    sampleCount: nat, successRate: Option<real>, p95LatencyMs: Option<real>,
    pool: Option<Pool>, placement: Option<Placement>, peaks: Peaks,
    resourceClass: Option<string>, demandDigest: Option<string>, evaluationContract: Option<string>,
    measuredAt: Option<real>, expiresAt: Option<real>)

  datatype Passport = Passport(
    cellId: string, digest: string,
    declaration: Declaration, observed: Observation, estimated: Estimate, measured: Measurement)

  datatype Profile = Profile(
    qualityWeight: real, latencyWeight: real, memoryWeight: real,
    minSuccessRate: real, minSamples: nat, reserveMemoryBytes: nat,
    latencyReferenceMs: real, memoryReferenceBytes: nat,
    maxSnapshotAgeSeconds: nat, maxSwapUsedBytes: nat)
  {
    function TotalWeight(): real { qualityWeight + latencyWeight + memoryWeight }

    /** The constructor's checks. */
    predicate Valid() {
      && qualityWeight >= 0.0 && latencyWeight >= 0.0 && memoryWeight >= 0.0
      && TotalWeight() > 0.0
      && 0.0 <= minSuccessRate <= 1.0
      && minSamples > 0 && latencyReferenceMs > 0.0 && memoryReferenceBytes > 0
    }
  }

  datatype Snapshot = Snapshot(
    system: string, osRelease: string, machine: string,
    cpuCount: Option<nat>, cpuIdentity: Option<string>, topology: Topology,
    totalMemoryBytes: Option<nat>, availableMemoryBytes: Option<nat>,
    effectiveMemoryLimitBytes: Option<nat>, swapUsedBytes: Option<nat>,
    acceleratorKind: AcceleratorKind, acceleratorIdentity: Option<string>,
    acceleratorAvailableBytes: Option<nat>, runtimeEnvironment: Option<string>,
    capturedAt: real, resourceClass: string, digest: string)

  datatype Request = Request(
    exactRequestFingerprint: string, intentFamily: Option<string>, demand: Demand,
    evaluationContract: string, profile: string, evaluatedAt: real, offlineRequired: bool,
    digest: string)

  datatype Catalog = Catalog(cells: seq<Passport>, profiles: map<string, Profile>, digest: string)

  function IdOf(cell: Passport): string { cell.cellId }

  /** Resource values must match the memory pool and placement they are claimed for. */
  predicate ResourceShape(pool: Option<Pool>, placement: Option<Placement>, peaks: Peaks) {
    match pool
    case None => placement.None? && peaks == Peaks(None, None, None)
    case Some(Host) =>
      placement == Some(Cpu) && peaks.host.Some? && peaks.unified.None? && peaks.accelerator.None?
    case Some(Unified) =>
      placement == Some(IntegratedAccelerator)
      && peaks.unified.Some? && peaks.host.None? && peaks.accelerator.None?
    case Some(Accelerator) =>
      placement == Some(DiscreteAccelerator)
      && peaks.host.Some? && peaks.accelerator.Some? && peaks.unified.None?
  }

  predicate PositivePeaks(peaks: Peaks) {
    && (peaks.host.Some? ==> peaks.host.value > 0)
    && (peaks.unified.Some? ==> peaks.unified.value > 0)
    && (peaks.accelerator.Some? ==> peaks.accelerator.value > 0)
  }

  predicate ValidEstimate(e: Estimate) {
    ResourceShape(e.pool, e.placement, e.peaks) && PositivePeaks(e.peaks)
  }

  predicate ValidMeasurement(m: Measurement) {
    && ResourceShape(m.pool, m.placement, m.peaks) && PositivePeaks(m.peaks)
    && (m.successRate.Some? ==> 0.0 <= m.successRate.value <= 1.0)
    && (m.p95LatencyMs.Some? ==> 0.0 <= m.p95LatencyMs.value)
    && (m.sampleCount == 0 ==>
          m.successRate.None? && m.p95LatencyMs.None? && m.pool.None?)
    && (m.sampleCount > 0 ==>
          m.successRate.Some? && m.p95LatencyMs.Some? && m.pool.Some? && m.resourceClass.Some?
          && m.demandDigest.Some? && m.evaluationContract.Some?
          && m.measuredAt.Some? && m.expiresAt.Some?)
  }

  /** An available component always carries its identity; others never do. Evidence with
      any known status carries both timestamps. */
  predicate ValidObservation(o: Observation) {
    && (forall c: Component :: o.status.Of(c).Available? <==> o.actual.Of(c).Some?)
    && ((exists c: Component :: !o.status.Of(c).Unknown?) ==> o.capturedAt.Some? && o.expiresAt.Some?)
  }

  predicate ValidPassport(cell: Passport) {
    cell.cellId != "" && ValidEstimate(cell.estimated) && ValidMeasurement(cell.measured)
      && ValidObservation(cell.observed)
  }

  /** Catalog cells are unique and sorted by id; every profile passed its own constructor. */
  ghost predicate ValidCatalog(c: Catalog) {
    && |c.cells| > 0
    && Ordering.Canonical(c.cells, IdOf)
    && (forall cell | cell in c.cells :: ValidPassport(cell))
    && (forall k | k in c.profiles :: c.profiles[k].Valid())
  }
}
