/**
 The life of a managed process in the deterministic world: what the supervisor holds is what the
 world runs, a held process keeps the port bound, and cleanup removes what it was asked to remove
 exactly when the process was not restarted in between.
 */
module SupervisorLives {
  import opened Basics
  import opened SupervisorWorld
  import opened SupervisorOracle
  import opened SupervisorRuns

  /** `p` is the managed process; it is alive exactly while it is the observed root. */
  ghost predicate Lives(w: World, p: Identity) {
    && w.managedRoot == Some(p) && p.startToken.Birth? && p.startToken.n <= w.birth
    && w.observedRoot.Some? && (w.managedAlive <==> w.observedRoot == Some(p))
  }

  predicate Bound(w: World) { w.listener.Bound() }

  lemma {:induction false} MutationKeepsLife(w: World, p: Identity, m: Mutation)
    requires Lives(w, p)
    ensures Mutate(w, m).Returned? && Lives(Mutate(w, m).value, p)
    ensures Mutate(w, m).value.managedAlive <==> w.managedAlive && m != RestartRoot
  {
  }

  /** While a process is managed no slot raises, and only a restart ends its life. */
  lemma {:induction false} MutationsKeepLife(w: World, p: Identity, ms: seq<Mutation>)
    requires Lives(w, p)
    ensures !MutateAll(w, ms).1 && Lives(MutateAll(w, ms).0, p)
    ensures MutateAll(w, ms).0.managedAlive <==> w.managedAlive && RestartRoot !in ms
    decreases |ms|
  {
    if ms != [] {
      MutationKeepsLife(w, p, ms[0]);
      MutationsKeepLife(Mutate(w, ms[0]).value, p, ms[1..]);
      assert ms == [ms[0]] + ms[1..];
    }
  }

  /** No mutation unbinds a bound listener, not even one cut short by a raise. */
  lemma {:induction false} MutationsKeepBound(w: World, ms: seq<Mutation>)
    requires Bound(w)
    ensures Bound(MutateAll(w, ms).0)
    decreases |ms|
  {
    if ms != [] && Mutate(w, ms[0]).Returned? { MutationsKeepBound(Mutate(w, ms[0]).value, ms[1..]); }
  }

  /** After its spawn, the observed root is the spawned process exactly until the first restart. */
  lemma {:induction false} ObservedUntilRestart(w: World, autoBind: bool, ms: seq<Mutation>)
    ensures var root, w' := Identity(4100, Birth(w.birth + 1), RUNTIME), MutateAll(SpawnedWorld(w, autoBind), ms).0;
      Lives(w', root) && (w'.observedRoot == Some(root) <==> RestartRoot !in ms)
  {
    MutationsKeepLife(SpawnedWorld(w, autoBind), Identity(4100, Birth(w.birth + 1), RUNTIME), ms);
  }

  // ----- what every call keeps

  /** `w'` carries on the life and the port of `w`. */
  ghost predicate Carries(w: World, w': World) {
    && (forall p | Lives(w, p) :: Lives(w', p))
    && (Bound(w) ==> Bound(w'))
  }

  lemma {:induction false} SlotCarries(w: World, ms: seq<Mutation>)
    ensures Carries(w, MutateAll(w, ms).0)
  {
    forall p | Lives(w, p) ensures Lives(MutateAll(w, ms).0, p) { MutationsKeepLife(w, p, ms); }
    if Bound(w) { MutationsKeepBound(w, ms); }
  }

  lemma {:induction false} CarriesOn(a: World, b: World, c: World)
    requires Carries(a, b) && Carries(b, c)
    ensures Carries(a, c)
  {
  }

  lemma {:induction false} ResolveCarries(b: Backend)
    ensures Carries(b.world, CallResolve(b).0.world)
  {
    SlotCarries(b.world, Slot(Begin(b, Resolve).0, Resolve, Count(Begin(b, Resolve).0.counts, Resolve)));
  }

  lemma {:induction false} DigestCarries(b: Backend, r: Resolved)
    ensures Carries(b.world, CallBindingDigest(b, r).0.world)
  {
    var b1 := Begin(b, BindingDigest).0;
    SlotCarries(b.world, Slot(b1, BindingDigest, Count(b1.counts, BindingDigest)));
  }

  lemma {:induction false} ListenerCarries(b: Backend, r: Resolved)
    ensures Carries(b.world, CallObserveListener(b, r).0.world)
    ensures CallObserveListener(b, r).1.Returned? ==> CallObserveListener(b, r).1.value == b.world.listener
  {
    var b1 := Begin(b, ObserveListener).0;
    SlotCarries(b.world, Slot(b1, ObserveListener, Count(b1.counts, ObserveListener)));
  }

  lemma {:induction false} ProbeCarries(b: Backend, r: Resolved)
    ensures Carries(b.world, CallProbe(b, r).0.world)
  {
    var b1 := Begin(b, ProbeRuntime).0;
    SlotCarries(b.world, Slot(b1, ProbeRuntime, Count(b1.counts, ProbeRuntime)));
  }

  lemma {:induction false} TreeCarries(b: Backend, p: Identity)
    ensures Carries(b.world, CallObserveTree(b, p).0.world)
  {
    var b1, w := Begin(b, ObserveTree).0, b.world.(treeSeq := b.world.treeSeq + 1);
    SlotCarries(w, Slot(b1, ObserveTree, Count(b1.counts, ObserveTree)));
    assert Carries(b.world, w);
    CarriesOn(b.world, w, MutateAll(w, Slot(b1, ObserveTree, Count(b1.counts, ObserveTree))).0);
  }

  /** The checks before the spawn never let a start pass a bound port. */
  lemma {:induction false} PrepareCarries(b: Backend)
    ensures Carries(b.world, Prepare(b).0.world)
    ensures Bound(b.world) ==> Prepare(b).1.EndsHere?
  {
    ResolveCarries(b);
    var (b1, resolved) := CallResolve(b);
    if resolved.Returned? {
      DigestCarries(b1, resolved.value);
      var (b2, digest) := CallBindingDigest(b1, resolved.value);
      CarriesOn(b.world, b1.world, b2.world);
      if digest.Returned? {
        ListenerCarries(b2, resolved.value);
        var (b3, _) := CallObserveListener(b2, resolved.value);
        CarriesOn(b.world, b2.world, b3.world);
      }
    }
  }

  /** A spawn that returns has its process alive, whatever its slot does; one that raises has
      spawned nothing. */
  lemma {:induction false} SpawnLives(b: Backend, r: Resolved)
    ensures var (b1, spawned) := CallSpawn(b, r);
      if spawned.Returned? then Lives(b1.world, spawned.value) else b1.world == b.world && b1.spawnCount == b.spawnCount
  {
    var b1, root := Begin(b, Spawn).0, Identity(4100, Birth(b.world.birth + 1), RUNTIME);
    var w := SpawnedWorld(b.world, b.autoBind);
    assert Lives(w, root);
    MutationsKeepLife(w, root, Slot(b1, Spawn, Count(b1.counts, Spawn)));
  }

  /** The snapshots after the spawn keep the process; a listener seen bound at the end still is. */
  lemma {:induction false} ObserveCarries(b: Backend, r: Resolved, before: Digest, p: Identity)
    ensures Carries(b.world, ObserveAll(b, r, before, p).0.world)
    ensures ObserveAll(b, r, before, p).1.Gathered? && ObserveAll(b, r, before, p).1.obs.listenerAfter.Bound() ==>
      Bound(ObserveAll(b, r, before, p).0.world)
  {
    TreeCarries(b, p);
    var (b1, t1) := CallObserveTree(b, p);
    if t1.Raised? { return; }
    ListenerCarries(b1, r);
    var (b2, l1) := CallObserveListener(b1, r);
    CarriesOn(b.world, b1.world, b2.world);
    if l1.Raised? { return; }
    ProbeCarries(b2, r);
    var (b3, probe) := CallProbe(b2, r);
    CarriesOn(b.world, b2.world, b3.world);
    if probe.Raised? { return; }
    DigestCarries(b3, r);
    var (b4, during) := CallBindingDigest(b3, r);
    CarriesOn(b.world, b3.world, b4.world);
    if during.Raised? { return; }
    ObserveCarriesLater(b, b4, r, p);
  }

  lemma {:induction false} ObserveCarriesLater(b: Backend, b4: Backend, r: Resolved, p: Identity)
    requires Carries(b.world, b4.world)
    ensures var (b5, t2) := CallObserveTree(b4, p);
      var (b6, l2) := CallObserveListener(b5, r);
      var (b7, after) := CallBindingDigest(b6, r);
      && Carries(b.world, b5.world) && Carries(b.world, b6.world) && Carries(b.world, b7.world)
      && (l2.Returned? && l2.value.Bound() ==> Bound(b7.world))
  {
    TreeCarries(b4, p);
    var (b5, t2) := CallObserveTree(b4, p);
    CarriesOn(b.world, b4.world, b5.world);
    ListenerCarries(b5, r);
    var (b6, l2) := CallObserveListener(b5, r);
    CarriesOn(b.world, b5.world, b6.world);
    DigestCarries(b6, r);
    CarriesOn(b.world, b6.world, CallBindingDigest(b6, r).0.world);
  }

  function SpawnedIn(g: Gathering): Option<Identity> {
    if g.Gathered? then Some(g.obs.process) else if g.Failed? then g.spawned else None
  }

  lemma {:induction false} CleanMeansBound(o: Observations)
    requires Reasons(o) == {}
    ensures o.listenerAfter.Bound()
  {
    assert forall r :: r in ListenerReasons(o) ==> r in Reasons(o);
    assert ListenerMissing !in ListenerReasons(o);
  }

  /** From the spawn on. */
  lemma {:induction false} LaunchLives(b: Backend, r: Resolved, before: Digest)
    ensures var (b1, spawned) := CallSpawn(b, r);
      if spawned.Raised? then b1.world == b.world
      else
        var (b2, g) := ObserveAll(b1, r, before, spawned.value);
        Lives(b2.world, spawned.value) && (g.Gathered? && Reasons(g.obs) == {} ==> Bound(b2.world))
  {
    SpawnLives(b, r);
    var (b1, spawned) := CallSpawn(b, r);
    if spawned.Returned? {
      ObserveCarries(b1, r, before, spawned.value);
      var g := ObserveAll(b1, r, before, spawned.value).1;
      if g.Gathered? && Reasons(g.obs) == {} { CleanMeansBound(g.obs); }
    }
  }

  /** What the snapshot phase of a start does to the world. */
  lemma {:induction false} GatherLives(b: Backend)
    ensures var (b1, g) := Gather(b);
      && (Bound(b.world) ==> SpawnedIn(g).None?)
      && (SpawnedIn(g).None? ==> Carries(b.world, b1.world))
      && (SpawnedIn(g).Some? ==> Lives(b1.world, SpawnedIn(g).value))
      && (g.Gathered? && Reasons(g.obs) == {} ==> Bound(b1.world))
  {
    PrepareCarries(b);
    var (b1, prepared) := Prepare(b);
    if prepared.Proceed? { LaunchLives(b1, prepared.resolved, prepared.bindingBefore); }
  }

  // ----- runs

  /** Unless blocked, a held process lives in the world and the port is bound. */
  ghost predicate Tended(o: Oracle, b: Backend) {
    !o.sticky && o.process.Some? ==> Lives(b.world, o.process.value) && Bound(b.world)
  }

  /** The call that a command amounts to against this backend, with the answers it gives. */
  function CallOf(o: Oracle, b: Backend, c: Command): Call {
    match c
    case DoStart =>
      var (b1, g) := Gather(b);
      var p := MustTerminate(g);
      StartCall(g, if p.Some? then CallTerminate(b1, p.value).1 else Raised)
    case DoStop => StopCall(if o.process.Some? then CallTerminate(b, o.process.value).1 else Raised)
  }

  function StepWorld(o: Oracle, b: Backend, c: Command): (Oracle, Backend) {
    var (o1, b1, _) := if c.DoStart? then Start(o, b) else Stop(o, b);
    (o1, b1)
  }

  function CallsOf(o: Oracle, b: Backend, commands: seq<Command>): seq<Call>
    decreases |commands|
  {
    if commands == [] then []
    else
      var (o1, b1) := StepWorld(o, b, commands[0]);
      [CallOf(o, b, commands[0])] + CallsOf(o1, b1, commands[1..])
  }

  lemma {:induction false} StepWorldIsStep(o: Oracle, b: Backend, c: Command)
    ensures StepWorld(o, b, c).0 == Step(o, CallOf(o, b, c)).0
  {
  }

  lemma {:induction false} StartTends(o: Oracle, b: Backend)
    requires Tended(o, b)
    ensures Tended(StepWorld(o, b, DoStart).0, StepWorld(o, b, DoStart).1)
    ensures ForgottenBy(o, CallOf(o, b, DoStart)) == multiset{}
  {
    if !o.sticky {
      GatherLives(b);
      var (b1, g) := Gather(b);
      var answer := CallOf(o, b, DoStart).answer;
      StartEffect(o, g, answer);
      StepWorldIsStep(o, b, DoStart);
    }
  }

  lemma {:induction false} StopTends(o: Oracle, b: Backend)
    requires Tended(o, b)
    ensures Tended(StepWorld(o, b, DoStop).0, StepWorld(o, b, DoStop).1)
    ensures ForgottenBy(o, CallOf(o, b, DoStop)) == multiset{}
  {
  }

  /** Against the deterministic world, under every schedule and every sequence of commands, no
      process is ever forgotten: a held process keeps the port bound, and a bound port stops a start. */
  lemma {:induction false} WorldForgetsNothing(o: Oracle, b: Backend, commands: seq<Command>)
    requires Tended(o, b)
    ensures Total(o, CallsOf(o, b, commands), ForgottenBy) == multiset{}
    ensures Run(o, CallsOf(o, b, commands)).0 == RunWorld(o, b, commands).0
    ensures Tended(RunWorld(o, b, commands).0, RunWorld(o, b, commands).1)
    decreases |commands|
  {
    if commands != [] {
      var (o1, b1) := StepWorld(o, b, commands[0]);
      var calls := CallsOf(o, b, commands);
      if commands[0].DoStart? { StartTends(o, b); } else { StopTends(o, b); }
      StepWorldIsStep(o, b, commands[0]);
      WorldForgetsNothing(o1, b1, commands[1..]);
      assert calls[0] == CallOf(o, b, commands[0]) && calls[1..] == CallsOf(o1, b1, commands[1..]);
    }
  }

  /** So from any world, a supervisor that holds nothing accounts for every process it spawns. */
  lemma {:induction false} WorldConservesProcesses(o: Oracle, b: Backend, commands: seq<Command>)
    requires o.process.None?
    ensures var calls := CallsOf(o, b, commands);
      Total(o, calls, SpawnedBy) == Held(RunWorld(o, b, commands).0) + Total(o, calls, TerminatedBy)
  {
    var calls := CallsOf(o, b, commands);
    WorldForgetsNothing(o, b, commands);
    ProcessesAreConserved(o, calls);
    Settle(Total(o, calls, SpawnedBy), Held(Run(o, calls).0), Total(o, calls, TerminatedBy));
  }

  lemma {:induction false} Settle(s: multiset<Identity>, h: multiset<Identity>, t: multiset<Identity>)
    ensures multiset{} + s == h + t + multiset{} ==> s == h + t
  {
    assert multiset{} + s == s && h + t + multiset{} == h + t;
  }

  // ----- cleanup

  /** Once a process was managed, a root is observed unless it was removed and not restarted. */
  lemma {:induction false} RootAfterMutations(w: World, ms: seq<Mutation>)
    requires w.managedRoot.Some?
    ensures !MutateAll(w, ms).1
    ensures MutateAll(w, ms).0.observedRoot.None? <==> w.observedRoot.None? && RestartRoot !in ms
    decreases |ms|
  {
    if ms != [] {
      RootAfterMutations(Mutate(w, ms[0]).value, ms[1..]);
      assert ms == [ms[0]] + ms[1..];
    }
  }

  /** A cleanup that returns complete leaves no root observed exactly when the process was still the
      observed root and its slot holds no restart. */
  lemma {:induction false} CleanupLeavesNothingIff(b: Backend, p: Identity)
    requires Lives(b.world, p)
    ensures var (b1, answer) := CallTerminate(b, p);
      answer.Returned? && answer.value.complete ==>
        (b1.world.observedRoot.None? <==>
           b.world.observedRoot == Some(p) && RestartRoot !in Slot(b, Terminate, Count(b.counts, Terminate) + 1))
  {
    var b1 := Begin(b, Terminate).0;
    RootAfterMutations(TerminatedWorld(b.world, p), Slot(b1, Terminate, Count(b1.counts, Terminate)));
  }

  /** The other side does occur: with a restart in its slot, a cleanup of the living process reports
      complete and a root is observed afterwards. */
  lemma {:induction false} CompleteYetRunning(b: Backend, p: Identity)
    requires Lives(b.world, p) && Count(b.failures, Terminate) == 0 && !b.world.cleanupAmbiguous
    requires RestartRoot in Slot(b, Terminate, Count(b.counts, Terminate) + 1)
    ensures var (b1, answer) := CallTerminate(b, p);
      answer == Returned(CleanupObservation(true, [], {})) && b1.world.observedRoot.Some?
  {
    var b1 := Begin(b, Terminate).0;
    RootAfterMutations(TerminatedWorld(b.world, p), Slot(b1, Terminate, Count(b1.counts, Terminate)));
  }

  /** So does a restart before the call: cleanup of a process that is no longer the observed root
      reports complete and touches nothing. */
  lemma {:induction false} CompleteAfterRestart(b: Backend, p: Identity)
    requires Lives(b.world, p) && Count(b.failures, Terminate) == 0 && !b.world.cleanupAmbiguous
    requires b.world.observedRoot != Some(p)
    ensures var (b1, answer) := CallTerminate(b, p);
      answer == Returned(CleanupObservation(true, [], {})) && b1.world.observedRoot.Some?
  {
    var b1 := Begin(b, Terminate).0;
    RootAfterMutations(b.world, Slot(b1, Terminate, Count(b1.counts, Terminate)));
  }

  /** Concretely: one process, spawned on a fresh world, with a restart scheduled after its cleanup. */
  lemma {:induction false} RestartDuringCleanup(b: Backend, p: Identity)
    requires b.world == SpawnedWorld(FRESH_WORLD, true) && b.counts == map[] && b.failures == map[]
    requires b.scheduled == map[(Terminate, 1) := [RestartRoot]]
    requires p == Identity(4100, Birth(1), RUNTIME)
    ensures var (b1, answer) := CallTerminate(b, p);
      answer == Returned(CleanupObservation(true, [], {})) && b1.world.observedRoot.Some?
  {
    assert Lives(b.world, p);
    CompleteYetRunning(b, p);
  }

  lemma {:induction false} CompleteMeansAnswered(o: Oracle, g: Gathering, answer: Attempt<CleanupObservation>)
    requires !o.sticky && MustTerminate(g).Some? && StartStep(o, g, answer).1.cleanupComplete == Some(true)
    ensures answer.Returned? && answer.value.complete
  {
  }

  lemma {:induction false} StartTerminates(o: Oracle, b: Backend, b1: Backend, g: Gathering, p: Identity)
    requires !o.sticky && Gather(b) == (b1, g) && MustTerminate(g) == Some(p)
    ensures Start(o, b).1 == CallTerminate(b1, p).0
    ensures Start(o, b).2 == StartStep(o, g, CallTerminate(b1, p).1).1
  {
  }

  /** The same for a start that cleans up after itself; `b1` is the backend just before its cleanup. */
  lemma {:induction false} FailedStartLeavesNothingIff(o: Oracle, b: Backend, b1: Backend, g: Gathering, p: Identity)
    requires !o.sticky && Gather(b) == (b1, g) && MustTerminate(g) == Some(p)
    requires Start(o, b).2.cleanupComplete == Some(true)
    ensures Start(o, b).1.world.observedRoot.None? <==>
      b1.world.observedRoot == Some(p) && RestartRoot !in Slot(b1, Terminate, Count(b1.counts, Terminate) + 1)
  {
    GatherLives(b);
    StartTerminates(o, b, b1, g, p);
    CompleteMeansAnswered(o, g, CallTerminate(b1, p).1);
    CleanupLeavesNothingIff(b1, p);
  }

  lemma {:induction false} TendedStop(o: Oracle, b: Backend)
    requires Tended(o, b) && !o.sticky && o.process.Some?
    ensures var (_, b1, outcome) := Stop(o, b);
      outcome.cleanupComplete == Some(true) ==>
        (b1.world.observedRoot.None? <==>
           b.world.observedRoot == o.process && RestartRoot !in Slot(b, Terminate, Count(b.counts, Terminate) + 1))
  {
    CleanupLeavesNothingIff(b, o.process.value);
  }

  /** Over every run: a stop that reports complete cleanup leaves no root observed exactly when the
      process it held had not been restarted, before the call or in the call's own slot. */
  lemma {:induction false} StopLeavesNothingIff(o: Oracle, b: Backend, commands: seq<Command>)
    requires o.process.None?
    ensures var (o1, b1) := RunWorld(o, b, commands);
      var (o2, b2, outcome) := Stop(o1, b1);
      !o1.sticky && o1.process.Some? && outcome.cleanupComplete == Some(true) ==>
        (b2.world.observedRoot.None? <==>
           b1.world.observedRoot == o1.process
           && RestartRoot !in Slot(b1, Terminate, Count(b1.counts, Terminate) + 1))
  {
    WorldForgetsNothing(o, b, commands);
    var (o1, b1) := RunWorld(o, b, commands);
    if !o1.sticky && o1.process.Some? { TendedStop(o1, b1); }
  }
}
