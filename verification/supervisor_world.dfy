/**
 The deterministic world the supervisor contract runs against: one managed process, one
 listener, one binding, and a schedule of mutations applied right after chosen snapshots.
 `sha256_label(x)` is kept as `Sha256(x)`, and the rendered tokens `birth-n`,
 `foreign-birth-n`, `listener-n` as constructors over n; both are injective renderings.
 */
module SupervisorWorld {
  import opened Basics

  datatype Digest = Sha256(preimage: string)
  datatype StartToken = Birth(n: nat) | ForeignBirth(n: nat)
  datatype Identity = Identity(pid: nat, startToken: StartToken, executable: Digest)
  datatype Endpoint = Endpoint(host: string, port: nat)

  datatype Resolved = Resolved(
    binding: Digest, executable: Digest, endpoint: Endpoint, expectedModel: string,
    argv: seq<string>, allowedDescendants: seq<Digest>)

  datatype TreeObservation = TreeObservation(root: Option<Identity>, descendants: seq<Identity>, token: nat)
  {
    function Identities(): seq<Identity> {
      if root.None? then descendants else [root.value] + descendants
    }
  }

  datatype ListenerObservation = ListenerObservation(endpoint: Endpoint, owner: Option<Identity>, token: Option<nat>)
  {
    predicate Bound() { owner.Some? || token.Some? }
  }

  datatype ProbeObservation = ProbeObservation(healthy: bool, modelId: Option<string>, token: Option<nat>)

  datatype Reason =
    | BindingMismatch | BindingDrift | ProcessIdentityChanged | ProcessTreeChanged | UnexpectedDescendant
    | ListenerMissing | ListenerEndpointChanged | ListenerOwnerMismatch | ListenerSubstituted
    | ProbeUnhealthy | ModelIdentityMismatch | ProbeListenerMismatch
    | PortOccupied | BackendFailure | CleanupUnverified | StickyAmbiguity | BackendReason(text: string)

  datatype CleanupObservation = CleanupObservation(complete: bool, survivors: seq<Identity>, reasons: set<Reason>)

  datatype Stage = Resolve | Spawn | ObserveTree | ObserveListener | ProbeRuntime | Terminate | BindingDigest

  datatype Mutation =
    | OccupyPort | SubstituteListener | BindManagedListener | RestartRoot
    | AddDescendant | DriftBinding | MakeCleanupAmbiguous

  const ENDPOINT: Endpoint := Endpoint("127.0.0.1", 8123)
  const BINDING: Digest := Sha256("resolved-runtime-binding-v1")
  const DRIFTED: Digest := Sha256("resolved-runtime-binding-drifted")
  const RUNTIME: Digest := Sha256("runtime-executable-v1")
  const MODEL: string := "synthetic-local-model"
  const RESOLVED: Resolved := Resolved(
    BINDING, RUNTIME, ENDPOINT, MODEL,
    ["/fixture/runtime", "--host", "127.0.0.1", "--port", "8123"], [])

  /** The mutable part of the world. */
  datatype World = World(
    birth: nat, listenerSeq: nat, treeSeq: nat, binding: Digest,
    managedRoot: Option<Identity>, managedAlive: bool, observedRoot: Option<Identity>,
    descendants: seq<Identity>, listener: ListenerObservation, probe: ProbeObservation,
    cleanupAmbiguous: bool)

  const UNBOUND: ListenerObservation := ListenerObservation(ENDPOINT, None, None)

  const FRESH_WORLD: World := World(
    0, 0, 0, BINDING, None, false, None, [], UNBOUND, ProbeObservation(true, Some(MODEL), None), false)

  function SetListener(w: World, owner: Identity): World {
    w.(listenerSeq := w.listenerSeq + 1,
       listener := ListenerObservation(ENDPOINT, Some(owner), Some(w.listenerSeq + 1)),
       probe := ProbeObservation(true, Some(MODEL), Some(w.listenerSeq + 1)))
  }

  function SetForeignListener(w: World, name: string): World {
    var n := w.birth + 1;
    SetListener(w.(birth := n), Identity(9000 + n, ForeignBirth(n), Sha256(name)))
  }

  /** One mutator; binding and restarting raise while no managed process exists. */
  function Mutate(w: World, m: Mutation): Attempt<World> {
    match m
    case OccupyPort => Returned(SetForeignListener(w, "preexisting-port-owner"))
    case SubstituteListener => Returned(SetForeignListener(w, "substituted-port-owner"))
    case BindManagedListener =>
      if w.managedRoot.None? then Raised else Returned(SetListener(w, w.managedRoot.value))
    case RestartRoot =>
      if w.managedRoot.None? then Raised
      else
        var replacement := Identity(w.managedRoot.value.pid, Birth(w.birth + 1), RUNTIME);
        Returned(SetListener(
          w.(birth := w.birth + 1, managedAlive := false, observedRoot := Some(replacement), descendants := []),
          replacement))
    case AddDescendant =>
      var n := w.birth + 1;
      Returned(w.(birth := n,
                  descendants := w.descendants + [Identity(4200 + n, Birth(n), Sha256("unexpected-descendant"))]))
    case DriftBinding => Returned(w.(binding := DRIFTED))
    case MakeCleanupAmbiguous => Returned(w.(cleanupAmbiguous := true))
  }

  /** The mutators of one schedule slot, in order; a raise drops the remaining ones. */
  function MutateAll(w: World, ms: seq<Mutation>): (r: (World, bool))
    ensures !r.1 ==> r.0.managedRoot == w.managedRoot
    ensures r.0.treeSeq == w.treeSeq
    decreases |ms|
  {
    if ms == [] then (w, false)
    else
      match Mutate(w, ms[0])
      case Raised => (w, true)
      case Returned(w') => MutateAll(w', ms[1..])
  }

  // ----- the backend around the world

  /** Schedule, injected failures and counters, together with the world. */
  datatype Backend = Backend(
    world: World, counts: map<Stage, nat>, failures: map<Stage, nat>,
    scheduled: map<(Stage, nat), seq<Mutation>>, autoBind: bool, spawnCount: nat, callLog: seq<Stage>)

  function Count(m: map<Stage, nat>, s: Stage): nat { if s in m then m[s] else 0 }

  function Slot(b: Backend, s: Stage, n: nat): seq<Mutation> {
    if (s, n) in b.scheduled then b.scheduled[(s, n)] else []
  }

  /** Count the call and raise if a failure is injected for its stage. */
  function Begin(b: Backend, s: Stage): (Backend, bool) {
    var b' := b.(callLog := b.callLog + [s], counts := b.counts[s := Count(b.counts, s) + 1]);
    if Count(b.failures, s) > 0
    then (b'.(failures := b.failures[s := Count(b.failures, s) - 1]), true)
    else (b', false)
  }

  /** Apply the mutations scheduled after occurrence `n` of the stage. */
  function Finish(b: Backend, s: Stage, n: nat): (Backend, bool) {
    var (w, raised) := MutateAll(b.world, Slot(b, s, n));
    (b.(world := w, scheduled := b.scheduled - {(s, n)}), raised)
  }

  function Snapshot<T>(b: Backend, s: Stage, value: T): (Backend, Attempt<T>) {
    var (b', raised) := Finish(b, s, Count(b.counts, s));
    (b', if raised then Raised else Returned(value))
  }

  function CallResolve(b: Backend): (Backend, Attempt<Resolved>) {
    var (b1, raised) := Begin(b, Resolve);
    if raised then (b1, Raised) else Snapshot(b1, Resolve, RESOLVED)
  }

  function CallBindingDigest(b: Backend, resolved: Resolved): (Backend, Attempt<Digest>) {
    var (b1, raised) := Begin(b, BindingDigest);
    if raised || resolved != RESOLVED then (b1, Raised) else Snapshot(b1, BindingDigest, b1.world.binding)
  }

  function CallObserveListener(b: Backend, resolved: Resolved): (Backend, Attempt<ListenerObservation>) {
    var (b1, raised) := Begin(b, ObserveListener);
    if raised || resolved.endpoint != ENDPOINT then (b1, Raised) else Snapshot(b1, ObserveListener, b1.world.listener)
  }

  function CallProbe(b: Backend, resolved: Resolved): (Backend, Attempt<ProbeObservation>) {
    var (b1, raised) := Begin(b, ProbeRuntime);
    if raised || resolved.endpoint != ENDPOINT then (b1, Raised) else Snapshot(b1, ProbeRuntime, b1.world.probe)
  }

  /** The process a spawn creates: same pid as ever, next birth token. */
  function SpawnedWorld(w: World, autoBind: bool): World {
    var root := Identity(4100, Birth(w.birth + 1), RUNTIME);
    var w1 := w.(birth := w.birth + 1, managedRoot := Some(root), managedAlive := true,
                 observedRoot := Some(root), descendants := []);
    if autoBind then SetListener(w1, root) else w1
  }

  function CallSpawn(b: Backend, resolved: Resolved): (Backend, Attempt<Identity>) {
    var (b1, raised) := Begin(b, Spawn);
    if raised || resolved != RESOLVED then (b1, Raised)
    else
      var b2 := b1.(world := SpawnedWorld(b1.world, b1.autoBind), spawnCount := b1.spawnCount + 1);
      Snapshot(b2, Spawn, Identity(4100, Birth(b1.world.birth + 1), RUNTIME))
  }

  function SeenTree(w: World, root: Identity): TreeObservation {
    TreeObservation(
      if w.observedRoot.Some? && w.observedRoot.value.pid == root.pid then w.observedRoot else None,
      w.descendants, w.treeSeq + 1)
  }

  function CallObserveTree(b: Backend, root: Identity): (Backend, Attempt<TreeObservation>) {
    var (b1, raised) := Begin(b, ObserveTree);
    if raised then (b1, Raised)
    else Snapshot(b1.(world := b1.world.(treeSeq := b1.world.treeSeq + 1)), ObserveTree, SeenTree(b1.world, root))
  }

  function Members(w: World): seq<Identity> {
    (if w.managedRoot.Some? then [w.managedRoot.value] else []) + w.descendants
  }

  function TerminatedWorld(w: World, root: Identity): World {
    if w.managedAlive && w.managedRoot == Some(root) then
      var w1 := w.(managedAlive := false, observedRoot := None, descendants := []);
      if w.listener.owner.Some? && w.listener.owner.value in Members(w)
      then w1.(listener := UNBOUND, probe := ProbeObservation(false, None, None))
      else w1
    else w
  }

  function CallTerminate(b: Backend, root: Identity): (Backend, Attempt<CleanupObservation>) {
    var (b1, raised) := Begin(b, Terminate);
    if raised then (b1, Raised)
    else if b1.world.cleanupAmbiguous then
      Snapshot(b1, Terminate, CleanupObservation(false, Members(b1.world), {CleanupUnverified}))
    else
      Snapshot(b1.(world := TerminatedWorld(b1.world, root)), Terminate, CleanupObservation(true, [], {}))
  }

  /** `sorted(self._descendants)` is the list itself: pids grow with the birth counter. */
  ghost predicate PidsAscend(w: World) {
    && (forall i, j | 0 <= i < j < |w.descendants| :: w.descendants[i].pid < w.descendants[j].pid)
    && (forall i | 0 <= i < |w.descendants| :: w.descendants[i].pid <= 4200 + w.birth)
  }

  lemma {:induction false} MutationsKeepPidsAscending(w: World, ms: seq<Mutation>)
    requires PidsAscend(w)
    ensures PidsAscend(MutateAll(w, ms).0)
    decreases |ms|
  {
    if ms != [] && Mutate(w, ms[0]).Returned? {
      MutationsKeepPidsAscending(Mutate(w, ms[0]).value, ms[1..]);
    }
  }

  // ----- the backend object

  /** The backend with the fields the source gives it; every method is its pure counterpart above. */
  class FakeBackend {
    var callLog: seq<Stage>
    var callCounts: map<Stage, nat>
    var spawnCount: nat
    var autoBindOnSpawn: bool
    var birthSequence: nat
    var listenerSequence: nat
    var treeSequence: nat
    var binding: Digest
    var managedRoot: Option<Identity>
    var managedAlive: bool
    var observedRoot: Option<Identity>
    var descendants: seq<Identity>
    var listener: ListenerObservation
    var probeState: ProbeObservation
    var cleanupAmbiguous: bool
    var failures: map<Stage, nat>
    var scheduled: map<(Stage, nat), seq<Mutation>>

    ghost function Now(): World
      reads this
    {
      World(
        birthSequence, listenerSequence, treeSequence, binding, managedRoot, managedAlive, observedRoot,
        descendants, listener, probeState, cleanupAmbiguous)
    }

    ghost function State(): Backend
      reads this
    {
      Backend(Now(), callCounts, failures, scheduled, autoBindOnSpawn, spawnCount, callLog)
    }

    constructor ()
      ensures State() == Backend(FRESH_WORLD, map[], map[], map[], true, 0, [])
    {
      callLog, callCounts, spawnCount, autoBindOnSpawn := [], map[], 0, true;
      birthSequence, listenerSequence, treeSequence, binding := 0, 0, 0, BINDING;
      managedRoot, managedAlive, observedRoot, descendants := None, false, None, [];
      listener, probeState, cleanupAmbiguous := UNBOUND, ProbeObservation(true, Some(MODEL), None), false;
      failures, scheduled := map[], map[];
    }

    method InjectFailure(stage: Stage)
      modifies this
      ensures State() == old(State()).(failures := old(failures)[stage := Count(old(failures), stage) + 1])
    {
      failures := failures[stage := Count(failures, stage) + 1];
    }

    method ScheduleAfter(stage: Stage, occurrence: int, m: Mutation) returns (raised: bool)
      modifies this
      ensures raised <==> occurrence < 1
      ensures State() == if raised then old(State()) else
        old(State()).(scheduled :=
          old(scheduled)[(stage, occurrence as nat) := Slot(old(State()), stage, occurrence) + [m]])
    {
      if occurrence < 1 { return true; }
      var slot := if (stage, occurrence as nat) in scheduled then scheduled[(stage, occurrence as nat)] else [];
      scheduled := scheduled[(stage, occurrence as nat) := slot + [m]];
      return false;
    }

    method BindTo(owner: Identity)
      modifies this
      ensures State() == old(State()).(world := SetListener(old(Now()), owner))
    {
      listenerSequence := listenerSequence + 1;
      listener := ListenerObservation(ENDPOINT, Some(owner), Some(listenerSequence));
      probeState := ProbeObservation(true, Some(MODEL), Some(listenerSequence));
    }

    method BindForeign(name: string)
      modifies this
      ensures State() == old(State()).(world := SetForeignListener(old(Now()), name))
    {
      birthSequence := birthSequence + 1;
      BindTo(Identity(9000 + birthSequence, ForeignBirth(birthSequence), Sha256(name)));
    }

    method Restart()
      requires managedRoot.Some?
      modifies this
      ensures State() == old(State()).(world := Mutate(old(Now()), RestartRoot).value)
    {
      birthSequence := birthSequence + 1;
      var replacement := Identity(managedRoot.value.pid, Birth(birthSequence), RUNTIME);
      managedAlive := false;
      observedRoot := Some(replacement);
      descendants := [];
      BindTo(replacement);
    }

    method AddUnexpectedDescendant()
      modifies this
      ensures State() == old(State()).(world := Mutate(old(Now()), AddDescendant).value)
    {
      birthSequence := birthSequence + 1;
      descendants := descendants
        + [Identity(4200 + birthSequence, Birth(birthSequence), Sha256("unexpected-descendant"))];
    }

    method ApplyMutation(m: Mutation) returns (raised: bool)
      modifies this
      ensures raised <==> Mutate(old(Now()), m).Raised?
      ensures State() == if raised then old(State()) else old(State()).(world := Mutate(old(Now()), m).value)
    {
      raised := false;
      match m
      case OccupyPort => BindForeign("preexisting-port-owner");
      case SubstituteListener => BindForeign("substituted-port-owner");
      case BindManagedListener =>
        if managedRoot.None? { return true; }
        BindTo(managedRoot.value);
      case RestartRoot =>
        if managedRoot.None? { return true; }
        Restart();
      case AddDescendant => AddUnexpectedDescendant();
      case DriftBinding => binding := DRIFTED;
      case MakeCleanupAmbiguous => cleanupAmbiguous := true;
    }

    method BeginCall(s: Stage) returns (raised: bool)
      modifies this
      ensures (State(), raised) == Begin(old(State()), s)
    {
      callLog := callLog + [s];
      callCounts := callCounts[s := Count(callCounts, s) + 1];
      if Count(failures, s) > 0 {
        failures := failures[s := Count(failures, s) - 1];
        return true;
      }
      return false;
    }

    /** `for mutation in self._scheduled.pop((stage, occurrence), ())`. */
    method FinishCall(s: Stage, n: nat) returns (raised: bool)
      modifies this
      ensures (State(), raised) == Finish(old(State()), s, n)
    {
      var pending := if (s, n) in scheduled then scheduled[(s, n)] else [];
      scheduled := scheduled - {(s, n)};
      ghost var popped, start := State(), Now();
      while pending != []
        invariant State() == popped.(world := Now())
        invariant MutateAll(Now(), pending) == MutateAll(start, Slot(old(State()), s, n))
        decreases |pending|
      {
        raised := ApplyMutation(pending[0]);
        if raised { return; }
        pending := pending[1..];
      }
      return false;
    }

    method ResolveRuntime() returns (r: Attempt<Resolved>)
      modifies this
      ensures (State(), r) == CallResolve(old(State()))
    {
      var raised := BeginCall(Resolve);
      if raised { return Raised; }
      raised := FinishCall(Resolve, Count(callCounts, Resolve));
      return if raised then Raised else Returned(RESOLVED);
    }

    method ReadBindingDigest(resolved: Resolved) returns (r: Attempt<Digest>)
      modifies this
      ensures (State(), r) == CallBindingDigest(old(State()), resolved)
    {
      var raised := BeginCall(BindingDigest);
      if raised || resolved != RESOLVED { return Raised; }
      var digest := binding;
      raised := FinishCall(BindingDigest, Count(callCounts, BindingDigest));
      return if raised then Raised else Returned(digest);
    }

    method SnapshotListener(resolved: Resolved) returns (r: Attempt<ListenerObservation>)
      modifies this
      ensures (State(), r) == CallObserveListener(old(State()), resolved)
    {
      var raised := BeginCall(ObserveListener);
      if raised || resolved.endpoint != ENDPOINT { return Raised; }
      var seen := listener;
      raised := FinishCall(ObserveListener, Count(callCounts, ObserveListener));
      return if raised then Raised else Returned(seen);
    }

    method Probe(resolved: Resolved) returns (r: Attempt<ProbeObservation>)
      modifies this
      ensures (State(), r) == CallProbe(old(State()), resolved)
    {
      var raised := BeginCall(ProbeRuntime);
      if raised || resolved.endpoint != ENDPOINT { return Raised; }
      var seen := probeState;
      raised := FinishCall(ProbeRuntime, Count(callCounts, ProbeRuntime));
      return if raised then Raised else Returned(seen);
    }

    method CreateProcess() returns (root: Identity)
      modifies this
      ensures root == Identity(4100, Birth(old(birthSequence) + 1), RUNTIME)
      ensures State() == old(State()).(world := SpawnedWorld(old(Now()), old(autoBindOnSpawn)),
                                       spawnCount := old(spawnCount) + 1)
    {
      spawnCount := spawnCount + 1;
      birthSequence := birthSequence + 1;
      root := Identity(4100, Birth(birthSequence), RUNTIME);
      managedRoot, managedAlive, observedRoot, descendants := Some(root), true, Some(root), [];
      if autoBindOnSpawn { BindTo(root); }
    }

    method SpawnProcess(resolved: Resolved) returns (r: Attempt<Identity>)
      modifies this
      ensures (State(), r) == CallSpawn(old(State()), resolved)
    {
      var raised := BeginCall(Spawn);
      if raised || resolved != RESOLVED { return Raised; }
      var root := CreateProcess();
      raised := FinishCall(Spawn, Count(callCounts, Spawn));
      return if raised then Raised else Returned(root);
    }

    method SnapshotTree(root: Identity) returns (r: Attempt<TreeObservation>)
      modifies this
      ensures (State(), r) == CallObserveTree(old(State()), root)
    {
      var raised := BeginCall(ObserveTree);
      if raised { return Raised; }
      treeSequence := treeSequence + 1;
      var seenRoot := if observedRoot.Some? && observedRoot.value.pid == root.pid then observedRoot else None;
      var seen := TreeObservation(seenRoot, descendants, treeSequence);
      raised := FinishCall(ObserveTree, Count(callCounts, ObserveTree));
      return if raised then Raised else Returned(seen);
    }

    method CleanUp(root: Identity) returns (report: CleanupObservation)
      modifies this
      ensures report ==
        if old(cleanupAmbiguous) then CleanupObservation(false, Members(old(Now())), {CleanupUnverified})
        else CleanupObservation(true, [], {})
      ensures State() == if old(cleanupAmbiguous) then old(State())
                         else old(State()).(world := TerminatedWorld(old(Now()), root))
    {
      var members := (if managedRoot.Some? then [managedRoot.value] else []) + descendants;
      if cleanupAmbiguous { return CleanupObservation(false, members, {CleanupUnverified}); }
      report := CleanupObservation(true, [], {});
      if managedAlive && managedRoot == Some(root) {
        managedAlive, observedRoot, descendants := false, None, [];
        if listener.owner.Some? && listener.owner.value in members {
          listener, probeState := UNBOUND, ProbeObservation(false, None, None);
        }
      }
    }

    method TerminateProcess(root: Identity) returns (r: Attempt<CleanupObservation>)
      modifies this
      ensures (State(), r) == CallTerminate(old(State()), root)
    {
      var raised := BeginCall(Terminate);
      if raised { return Raised; }
      var report := CleanUp(root);
      raised := FinishCall(Terminate, Count(callCounts, Terminate));
      return if raised then Raised else Returned(report);
    }
  }
}
