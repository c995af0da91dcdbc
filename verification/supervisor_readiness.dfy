/**
 No false ready: at every point of every run, `start` reports ready exactly when the world it
 finds and the schedule that is left leave everything it vouches for untouched.
 */
module SupervisorReadiness {
  import opened Basics
  import opened SupervisorWorld
  import opened SupervisorOracle
  import opened SupervisorRuns

  predicate MovesListener(m: Mutation) {
    m.OccupyPort? || m.SubstituteListener? || m.BindManagedListener? || m.RestartRoot?
  }

  predicate TouchesListener(ms: seq<Mutation>) { exists i | 0 <= i < |ms| :: MovesListener(ms[i]) }

  /** The last mutation that moved the listener. */
  function LastMove(ms: seq<Mutation>): Option<Mutation> {
    if ms == [] then None
    else if MovesListener(ms[|ms| - 1]) then Some(ms[|ms| - 1])
    else LastMove(ms[..|ms| - 1])
  }

  predicate TouchesTree(ms: seq<Mutation>) { RestartRoot in ms || AddDescendant in ms }

  predicate NeedsProcess(ms: seq<Mutation>) { BindManagedListener in ms || RestartRoot in ms }

  // ----- the condition on world and schedule

  /** The mutations scheduled after the k-th call of a stage from now on. */
  function Next(b: Backend, s: Stage, k: nat): seq<Mutation> { Slot(b, s, Count(b.counts, s) + k) }

  /** A slot runs unless it needs a process when there never was one. */
  predicate Runs(w: World, ms: seq<Mutation>) { w.managedRoot.Some? || !NeedsProcess(ms) }

  predicate NoFailures(b: Backend) {
    forall s: Stage :: s != Terminate ==> Count(b.failures, s) == 0
  }

  /** No binding drift so far, nor before the last digest snapshot. */
  predicate BindingUndisturbed(b: Backend) {
    && b.world.binding == BINDING
    && DriftBinding !in Next(b, Resolve, 1) && DriftBinding !in Next(b, BindingDigest, 1)
    && DriftBinding !in Next(b, ObserveListener, 1) && DriftBinding !in Next(b, Spawn, 1)
    && DriftBinding !in Next(b, ObserveTree, 1) && DriftBinding !in Next(b, ObserveListener, 2)
    && DriftBinding !in Next(b, ProbeRuntime, 1) && DriftBinding !in Next(b, BindingDigest, 2)
    && DriftBinding !in Next(b, ObserveTree, 2) && DriftBinding !in Next(b, ObserveListener, 3)
  }

  /** The port is free at the occupancy check, and nothing needs a process before there is one. */
  predicate LaunchUndisturbed(b: Backend) {
    && !b.world.listener.Bound()
    && !TouchesListener(Next(b, Resolve, 1)) && !TouchesListener(Next(b, BindingDigest, 1))
    && Runs(b.world, Next(b, ObserveListener, 1))
  }

  /** No restart and no new descendant between the spawn and the second tree snapshot. */
  predicate TreeUndisturbed(b: Backend) {
    && !TouchesTree(Next(b, Spawn, 1)) && !TouchesTree(Next(b, ObserveTree, 1))
    && !TouchesTree(Next(b, ObserveListener, 2)) && !TouchesTree(Next(b, ProbeRuntime, 1))
    && !TouchesTree(Next(b, BindingDigest, 2))
  }

  /** The spawned process owns the listener at its first snapshot after the spawn, and the
      listener does not move until the second one. */
  predicate ListenerUndisturbed(b: Backend) {
    && (match LastMove(Next(b, Spawn, 1) + Next(b, ObserveTree, 1))
        case None => b.autoBind
        case Some(m) => m.BindManagedListener?)
    && !TouchesListener(Next(b, ObserveListener, 2)) && !TouchesListener(Next(b, ProbeRuntime, 1))
    && !TouchesListener(Next(b, BindingDigest, 2)) && !TouchesListener(Next(b, ObserveTree, 2))
  }

  predicate Undisturbed(b: Backend) {
    NoFailures(b) && LaunchUndisturbed(b) && BindingUndisturbed(b) && TreeUndisturbed(b) && ListenerUndisturbed(b)
  }

  // ----- what a list of mutations does to a world

  /** A managed process was born no later than the birth counter says. */
  ghost predicate BornBy(w: World) {
    w.managedRoot.Some? ==> w.managedRoot.value.startToken.Birth? && w.managedRoot.value.startToken.n <= w.birth
  }

  ghost predicate ListenerKnown(w: World) {
    && w.listener.endpoint == ENDPOINT
    && (w.listener.owner.Some? ==> w.listener.token == Some(w.listenerSeq))
    && (w.listener.owner.None? ==> w.listener.token.None? && w.probe.token.None?)
    && (w.listener.owner.Some? ==>
          && w.probe == ProbeObservation(true, Some(MODEL), w.listener.token)
          && (w.listener.owner.value.startToken.Birth? ==> w.listener.owner.value.startToken.n <= w.birth))
  }

  /** What every world a run can reach satisfies. */
  ghost predicate Known(w: World) { BornBy(w) && ListenerKnown(w) }

  /** The net effect of mutations that did not raise. */
  ghost predicate Effect(w: World, ms: seq<Mutation>, w': World) {
    && BornBy(w') && ListenerKnown(w')
    && w'.managedRoot == w.managedRoot && w.birth <= w'.birth
    && w'.binding == (if DriftBinding in ms then DRIFTED else w.binding)
    && ListenerEffect(w, ms, w') && TreeEffect(w, ms, w')
  }

  ghost predicate ListenerEffect(w: World, ms: seq<Mutation>, w': World) {
    && w.listenerSeq <= w'.listenerSeq
    && (LastMove(ms).None? ==> w'.listener == w.listener && w'.listenerSeq == w.listenerSeq)
    && (LastMove(ms).Some? ==>
          w'.listenerSeq > w.listenerSeq && w'.listener.owner.Some?
          && (w.managedRoot.Some? ==>
                (w'.listener.owner == w.managedRoot <==> LastMove(ms) == Some(BindManagedListener))))
  }

  ghost predicate TreeEffect(w: World, ms: seq<Mutation>, w': World) {
    && (RestartRoot !in ms ==> w'.observedRoot == w.observedRoot)
    && (RestartRoot in ms ==>
          w'.observedRoot.Some? && w'.observedRoot.value.startToken.Birth?
          && w.birth < w'.observedRoot.value.startToken.n)
    && (RestartRoot !in ms && AddDescendant !in ms ==> w'.descendants == w.descendants)
    && (RestartRoot !in ms && AddDescendant in ms ==> |w'.descendants| > 0)
    && (RestartRoot !in ms && w.descendants != [] ==> w'.descendants != [])
  }

  lemma {:induction false} LastMoveOfAll(ms: seq<Mutation>)
    ensures LastMove(ms).Some? <==> TouchesListener(ms)
    ensures LastMove(ms).Some? ==> MovesListener(LastMove(ms).value)
  {
    if ms != [] {
      LastMoveOfAll(ms[..|ms| - 1]);
      var front := ms[..|ms| - 1];
      if i :| 0 <= i < |ms| && MovesListener(ms[i]) {
        if i < |front| { assert front[i] == ms[i]; }
      }
    }
  }

  lemma {:induction false} LastMoveAppend(a: seq<Mutation>, b: seq<Mutation>)
    ensures LastMove(a + b) == if LastMove(b).Some? then LastMove(b) else LastMove(a)
  {
    if b == [] {
      assert a + b == a;
    } else {
      LastMoveAppend(a, b[..|b| - 1]);
      assert (a + b)[..|a + b| - 1] == a + b[..|b| - 1];
    }
  }

  lemma {:induction false} OneEffect(w: World, m: Mutation)
    requires BornBy(w) && ListenerKnown(w) && Mutate(w, m).Returned?
    ensures Effect(w, [m], Mutate(w, m).value)
  {
    assert [m][..0] == [];
    assert LastMove([m]) == if MovesListener(m) then Some(m) else None;
  }

  lemma {:induction false} EffectCompose(w: World, a: seq<Mutation>, w1: World, b: seq<Mutation>, w2: World)
    requires Effect(w, a, w1) && Effect(w1, b, w2)
    ensures Effect(w, a + b, w2)
  {
    LastMoveAppend(a, b);
    assert forall m :: m in a + b <==> m in a || m in b;
  }

  lemma {:induction false} NoEffect(w: World)
    requires BornBy(w) && ListenerKnown(w)
    ensures Effect(w, [], w)
  {
  }

  /** A slot raises exactly when it needs a process that does not exist yet. */
  lemma {:induction false} MutateAllEffect(w: World, ms: seq<Mutation>)
    requires BornBy(w) && ListenerKnown(w)
    ensures MutateAll(w, ms).1 <==> w.managedRoot.None? && NeedsProcess(ms)
    ensures !MutateAll(w, ms).1 ==> Effect(w, ms, MutateAll(w, ms).0)
    decreases |ms|
  {
    if ms == [] {
      NoEffect(w);
    } else {
      var m, rest := ms[0], ms[1..];
      assert ms == [m] + rest;
      if Mutate(w, m).Returned? {
        var w1 := Mutate(w, m).value;
        OneEffect(w, m);
        MutateAllEffect(w1, rest);
        if !MutateAll(w1, rest).1 {
          EffectCompose(w, [m], w1, rest, MutateAll(w1, rest).0);
        }
      }
    }
  }

  // ----- one call

  /** How often each stage has been called since. */
  datatype Taken = Taken(resolves: nat, digests: nat, listeners: nat, spawns: nat, trees: nat, probes: nat)
  {
    function Of(s: Stage): nat {
      match s
      case Resolve => resolves
      case BindingDigest => digests
      case ObserveListener => listeners
      case Spawn => spawns
      case ObserveTree => trees
      case ProbeRuntime => probes
      case Terminate => 0
    }
  }

  /** The backend is `b0` after so many successful calls: same failures, the slots ahead are those of
      `b0` behind the used ones. */
  ghost predicate Follows(b: Backend, b0: Backend, t: Taken) {
    && b.failures == b0.failures && b.autoBind == b0.autoBind
    && forall s: Stage, k: nat :: k > 0 ==> Next(b, s, k) == Next(b0, s, t.Of(s) + k)
  }

  ghost predicate At(b: Backend, b0: Backend, t: Taken) { Follows(b, b0, t) && Known(b.world) }

  /** One more call of this stage, and of no other. */
  ghost predicate OneMore(t: Taken, s: Stage, t': Taken) {
    forall u: Stage :: t'.Of(u) == t.Of(u) + if u == s then 1 else 0
  }

  /** A counted call uses up its own slot and no other. */
  lemma {:induction false} CallShifts(b: Backend, s: Stage, w: World)
    requires !Begin(b, s).1
    ensures var b1 := Begin(b, s).0.(world := w);
      && Slot(b1, s, Count(b1.counts, s)) == Next(b, s, 1)
      && forall u: Stage, k: nat :: k > 0 ==>
           Next(Finish(b1, s, Count(b1.counts, s)).0, u, k) == Next(b, u, if u == s then k + 1 else k)
  {
    var n := Count(b.counts, s) + 1;
    var b1 := Begin(b, s).0.(world := w);
    var b2 := Finish(b1, s, n).0;
    forall u: Stage, k: nat | k > 0 ensures Next(b2, u, k) == Next(b, u, if u == s then k + 1 else k) {
      assert (u, Count(b2.counts, u) + k) != (s, n);
      assert Slot(b2, u, Count(b2.counts, u) + k) == Slot(b, u, Count(b2.counts, u) + k);
    }
  }

  lemma {:induction false} FollowsOn(b: Backend, b0: Backend, t: Taken, s: Stage, b2: Backend, t': Taken)
    requires Follows(b, b0, t) && OneMore(t, s, t') && b2.failures == b.failures && b2.autoBind == b.autoBind
    requires forall u: Stage, k: nat :: k > 0 ==> Next(b2, u, k) == Next(b, u, if u == s then k + 1 else k)
    ensures Follows(b2, b0, t')
  {
  }

  /** A call without an injected failure: the slot of this occurrence is applied and used up. */
  lemma {:induction false} CallEffect<T>(
      b: Backend, b0: Backend, t: Taken, s: Stage, w: World, value: T, t': Taken)
    requires Follows(b, b0, t) && Known(w) && OneMore(t, s, t')
    ensures Begin(b, s).1 <==> Count(b0.failures, s) > 0
    ensures !Begin(b, s).1 ==>
      var ms, (b2, r) := Next(b0, s, t.Of(s) + 1), Snapshot(Begin(b, s).0.(world := w), s, value);
      && (r.Returned? <==> Runs(w, ms))
      && (r.Returned? ==> r.value == value && Effect(w, ms, b2.world) && At(b2, b0, t'))
  {
    if !Begin(b, s).1 {
      CallShifts(b, s, w);
      var b1 := Begin(b, s).0.(world := w);
      FollowsOn(b, b0, t, s, Finish(b1, s, Count(b1.counts, s)).0, t');
      MutateAllEffect(w, Next(b, s, 1));
    }
  }

  lemma {:induction false} ResolveCall(b: Backend, b0: Backend, t: Taken)
    requires At(b, b0, t)
    ensures var (b2, r), ms := CallResolve(b), Next(b0, Resolve, t.resolves + 1);
      && (r.Returned? <==> Count(b0.failures, Resolve) == 0 && Runs(b.world, ms))
      && (r.Returned? ==>
            r.value == RESOLVED && Effect(b.world, ms, b2.world) && At(b2, b0, t.(resolves := t.resolves + 1)))
  {
    CallEffect(b, b0, t, Resolve, b.world, RESOLVED, t.(resolves := t.resolves + 1));
  }

  lemma {:induction false} DigestCall(b: Backend, b0: Backend, t: Taken)
    requires At(b, b0, t)
    ensures var (b2, r), ms := CallBindingDigest(b, RESOLVED), Next(b0, BindingDigest, t.digests + 1);
      && (r.Returned? <==> Count(b0.failures, BindingDigest) == 0 && Runs(b.world, ms))
      && (r.Returned? ==>
            r.value == b.world.binding && Effect(b.world, ms, b2.world) && At(b2, b0, t.(digests := t.digests + 1)))
  {
    CallEffect(b, b0, t, BindingDigest, b.world, b.world.binding, t.(digests := t.digests + 1));
  }

  lemma {:induction false} ListenerCall(b: Backend, b0: Backend, t: Taken)
    requires At(b, b0, t)
    ensures var (b2, r), ms := CallObserveListener(b, RESOLVED), Next(b0, ObserveListener, t.listeners + 1);
      && (r.Returned? <==> Count(b0.failures, ObserveListener) == 0 && Runs(b.world, ms))
      && (r.Returned? ==>
            r.value == b.world.listener && Effect(b.world, ms, b2.world)
            && At(b2, b0, t.(listeners := t.listeners + 1)))
  {
    CallEffect(b, b0, t, ObserveListener, b.world, b.world.listener, t.(listeners := t.listeners + 1));
  }

  lemma {:induction false} ProbeCall(b: Backend, b0: Backend, t: Taken)
    requires At(b, b0, t)
    ensures var (b2, r), ms := CallProbe(b, RESOLVED), Next(b0, ProbeRuntime, t.probes + 1);
      && (r.Returned? <==> Count(b0.failures, ProbeRuntime) == 0 && Runs(b.world, ms))
      && (r.Returned? ==>
            r.value == b.world.probe && Effect(b.world, ms, b2.world) && At(b2, b0, t.(probes := t.probes + 1)))
  {
    CallEffect(b, b0, t, ProbeRuntime, b.world, b.world.probe, t.(probes := t.probes + 1));
  }

  lemma {:induction false} TreeCall(b: Backend, b0: Backend, t: Taken, process: Identity)
    requires At(b, b0, t)
    ensures var (b2, r), ms := CallObserveTree(b, process), Next(b0, ObserveTree, t.trees + 1);
      && (r.Returned? <==> Count(b0.failures, ObserveTree) == 0 && Runs(b.world, ms))
      && (r.Returned? ==>
            r.value == SeenTree(b.world, process) && Effect(b.world, ms, b2.world)
            && At(b2, b0, t.(trees := t.trees + 1)))
  {
    var w := b.world.(treeSeq := b.world.treeSeq + 1);
    CallEffect(b, b0, t, ObserveTree, w, SeenTree(b.world, process), t.(trees := t.trees + 1));
  }

  /** Counting the spawn changes nothing else. */
  lemma {:induction false} SpawnCounted(b: Backend, root: Identity, n: nat)
    ensures var (b2, r) := Snapshot(b, Spawn, root);
      Snapshot(b.(spawnCount := n), Spawn, root) == (b2.(spawnCount := n), r)
  {
  }

  lemma {:induction false} AtCounted(b: Backend, b0: Backend, t: Taken, n: nat)
    requires At(b, b0, t)
    ensures At(b.(spawnCount := n), b0, t)
  {
    assert forall s: Stage, k: nat :: Next(b.(spawnCount := n), s, k) == Next(b, s, k);
  }

  lemma {:induction false} SpawnCall(b: Backend, b0: Backend, t: Taken)
    requires At(b, b0, t)
    ensures var (b2, r), ms := CallSpawn(b, RESOLVED), Next(b0, Spawn, t.spawns + 1);
      && (r.Returned? <==> Count(b0.failures, Spawn) == 0)
      && (r.Returned? ==>
            r.value == Identity(4100, Birth(b.world.birth + 1), RUNTIME)
            && Effect(SpawnedWorld(b.world, b0.autoBind), ms, b2.world) && At(b2, b0, t.(spawns := t.spawns + 1)))
  {
    var w, root := SpawnedWorld(b.world, b.autoBind), Identity(4100, Birth(b.world.birth + 1), RUNTIME);
    var b1 := Begin(b, Spawn).0;
    CallEffect(b, b0, t, Spawn, w, root, t.(spawns := t.spawns + 1));
    SpawnCounted(b1.(world := w), root, b1.spawnCount + 1);
    var (b2, r) := Snapshot(b1.(world := w), Spawn, root);
    if !Begin(b, Spawn).1 && r.Returned? { AtCounted(b2, b0, t.(spawns := t.spawns + 1), b1.spawnCount + 1); }
  }

  // ----- before the spawn

  lemma {:induction false} NeedsMeansTouches(ms: seq<Mutation>)
    requires NeedsProcess(ms)
    ensures TouchesListener(ms)
  {
    var m := if BindManagedListener in ms then BindManagedListener else RestartRoot;
    var i :| 0 <= i < |ms| && ms[i] == m;
    assert MovesListener(ms[i]);
  }

  /** From a free port the listener is bound iff some mutation moved it. */
  lemma {:induction false} BoundIffTouched(w: World, ms: seq<Mutation>, w': World)
    requires Effect(w, ms, w') && !w.listener.Bound()
    ensures w'.listener.Bound() <==> TouchesListener(ms)
  {
    LastMoveOfAll(ms);
  }

  lemma {:induction false} StaysBound(w: World, ms: seq<Mutation>, w': World)
    requires Effect(w, ms, w') && w.listener.owner.Some?
    ensures w'.listener.Bound()
  {
    LastMoveOfAll(ms);
  }

  /** Before the spawn, the port is free at the check exactly when it was free at the start and no slot
      so far moved the listener. */
  lemma {:induction false} FreeIffUntouched(w: World, ms1: seq<Mutation>, w1: World, ms2: seq<Mutation>, w2: World)
    requires ListenerKnown(w) && Effect(w, ms1, w1) && Effect(w1, ms2, w2)
    ensures !w2.listener.Bound() <==> !w.listener.Bound() && !TouchesListener(ms1) && !TouchesListener(ms2)
  {
    if w.listener.owner.Some? { StaysBound(w, ms1, w1); } else { BoundIffTouched(w, ms1, w1); }
    if w1.listener.owner.Some? { StaysBound(w1, ms2, w2); } else { BoundIffTouched(w1, ms2, w2); }
  }

  /** The part of the preparation after the resolution. */
  lemma {:induction false} CheckFacts(b: Backend, b1: Backend)
    requires Known(b.world) && At(b1, b, Taken(1, 0, 0, 0, 0, 0)) && Effect(b.world, Next(b, Resolve, 1), b1.world)
    ensures var (b2, r2) := CallBindingDigest(b1, RESOLVED);
      var (b3, r3) := CallObserveListener(b2, RESOLVED);
      && (r2.Returned? && r3.Returned? && !r3.value.Bound() <==>
            Count(b.failures, BindingDigest) == 0 && Count(b.failures, ObserveListener) == 0 && LaunchUndisturbed(b))
      && (r2.Returned? ==> r2.value == b1.world.binding && Effect(b1.world, Next(b, BindingDigest, 1), b2.world))
      && (r2.Returned? && r3.Returned? ==>
            At(b3, b, Taken(1, 1, 1, 0, 0, 0)) && Effect(b2.world, Next(b, ObserveListener, 1), b3.world))
  {
    var ms1, ms2 := Next(b, Resolve, 1), Next(b, BindingDigest, 1);
    if NeedsProcess(ms2) { NeedsMeansTouches(ms2); }
    var (b2, r2) := CallBindingDigest(b1, RESOLVED);
    DigestCall(b1, b, Taken(1, 0, 0, 0, 0, 0));
    if r2.Returned? {
      FreeIffUntouched(b.world, ms1, b1.world, ms2, b2.world);
      ListenerCall(b2, b, Taken(1, 1, 0, 0, 0, 0));
    }
  }

  /** The preparation succeeds exactly when nothing fails, the port is free at the check and no slot
      needs a process when there never was one. */
  lemma {:induction false} PrepareFacts(b: Backend) returns (w1: World, w2: World)
    requires Known(b.world)
    ensures Prepare(b).1.Proceed? <==>
      && Count(b.failures, Resolve) == 0 && Count(b.failures, BindingDigest) == 0
      && Count(b.failures, ObserveListener) == 0 && LaunchUndisturbed(b)
    ensures Prepare(b).1.Proceed? ==>
      var (b3, p) := Prepare(b);
      && p == Proceed(RESOLVED, w1.binding) && At(b3, b, Taken(1, 1, 1, 0, 0, 0))
      && Effect(b.world, Next(b, Resolve, 1), w1) && Effect(w1, Next(b, BindingDigest, 1), w2)
      && Effect(w2, Next(b, ObserveListener, 1), b3.world)
  {
    var (b1, r1) := CallResolve(b);
    assert At(b, b, Taken(0, 0, 0, 0, 0, 0));
    ResolveCall(b, b, Taken(0, 0, 0, 0, 0, 0));
    w1 := b1.world;
    w2 := CallBindingDigest(b1, RESOLVED).0.world;
    if NeedsProcess(Next(b, Resolve, 1)) { NeedsMeansTouches(Next(b, Resolve, 1)); }
    if r1.Returned? { CheckFacts(b, b1); }
  }

  // ----- after the spawn

  /** The worlds right before each snapshot that follows the spawn. */
  datatype Worlds = Worlds(
    atTree1: World, atListener2: World, atProbe: World, atBinding2: World,
    atTree2: World, atListener3: World, atBinding3: World)

  ghost predicate Linked(b: Backend, spawned: World, w: Worlds) {
    && Effect(spawned, Next(b, Spawn, 1), w.atTree1)
    && Effect(w.atTree1, Next(b, ObserveTree, 1), w.atListener2)
    && Effect(w.atListener2, Next(b, ObserveListener, 2), w.atProbe)
    && Effect(w.atProbe, Next(b, ProbeRuntime, 1), w.atBinding2)
    && Effect(w.atBinding2, Next(b, BindingDigest, 2), w.atTree2)
    && Effect(w.atTree2, Next(b, ObserveTree, 2), w.atListener3)
    && Effect(w.atListener3, Next(b, ObserveListener, 3), w.atBinding3)
  }

  function Seen(bindingBefore: Digest, process: Identity, w: Worlds): Observations {
    Observations(RESOLVED, bindingBefore, process, SeenTree(w.atTree1, process), w.atListener2.listener,
                 w.atProbe.probe, w.atBinding2.binding, SeenTree(w.atTree2, process), w.atListener3.listener,
                 w.atBinding3.binding)
  }

  predicate SnapshotsSucceed(b: Backend) {
    Count(b.failures, ObserveTree) == 0 && Count(b.failures, ObserveListener) == 0
    && Count(b.failures, ProbeRuntime) == 0 && Count(b.failures, BindingDigest) == 0
  }

  lemma {:induction false} ObserveFacts(
      b: Backend, b0: Backend, spawned: World, bindingBefore: Digest, process: Identity)
    returns (w: Worlds)
    requires At(b, b0, Taken(1, 1, 1, 1, 0, 0)) && b.world.managedRoot.Some?
    requires Effect(spawned, Next(b0, Spawn, 1), b.world)
    ensures ObserveAll(b, RESOLVED, bindingBefore, process).1.Gathered? <==> SnapshotsSucceed(b0)
    ensures ObserveAll(b, RESOLVED, bindingBefore, process).1.Gathered? ==>
      ObserveAll(b, RESOLVED, bindingBefore, process).1.obs == Seen(bindingBefore, process, w)
      && Linked(b0, spawned, w)
  {
    var (b1, r1) := CallObserveTree(b, process);
    TreeCall(b, b0, Taken(1, 1, 1, 1, 0, 0), process);
    w := Worlds(b.world, b.world, b.world, b.world, b.world, b.world, b.world);
    if r1.Raised? { return; }
    var (b2, r2) := CallObserveListener(b1, RESOLVED);
    ListenerCall(b1, b0, Taken(1, 1, 1, 1, 1, 0));
    if r2.Raised? { return; }
    var (b3, r3) := CallProbe(b2, RESOLVED);
    ProbeCall(b2, b0, Taken(1, 1, 2, 1, 1, 0));
    if r3.Raised? { return; }
    var (b4, r4) := CallBindingDigest(b3, RESOLVED);
    DigestCall(b3, b0, Taken(1, 1, 2, 1, 1, 1));
    if r4.Raised? { return; }
    var (b5, r5) := CallObserveTree(b4, process);
    TreeCall(b4, b0, Taken(1, 2, 2, 1, 1, 1), process);
    if r5.Raised? { return; }
    var (b6, r6) := CallObserveListener(b5, RESOLVED);
    ListenerCall(b5, b0, Taken(1, 2, 2, 1, 2, 1));
    if r6.Raised? { return; }
    DigestCall(b6, b0, Taken(1, 2, 3, 1, 2, 1));
    w := Worlds(b.world, b1.world, b2.world, b3.world, b4.world, b5.world, b6.world);
  }

  // ----- the verdict on what was seen

  lemma {:induction false} ReasonsEmpty(o: Observations)
    ensures Reasons(o) == {} <==>
      BindingReasons(o) == {} && TreeReasons(o) == {} && ListenerReasons(o) == {} && ProbeReasons(o) == {}
  {
    if Reasons(o) == {} {
      assert forall r :: r in BindingReasons(o) ==> r in Reasons(o);
      assert forall r :: r in TreeReasons(o) ==> r in Reasons(o);
      assert forall r :: r in ListenerReasons(o) ==> r in Reasons(o);
      assert forall r :: r in ProbeReasons(o) ==> r in Reasons(o);
    }
  }

  lemma {:induction false} BindingReasonsEmpty(o: Observations)
    ensures BindingReasons(o) == {} <==>
      o.bindingBefore == o.resolved.binding && o.bindingBefore == o.bindingDuring == o.bindingAfter
  {
    if BindingReasons(o) == {} {
      assert BindingMismatch !in BindingReasons(o) && BindingDrift !in BindingReasons(o);
    }
  }

  lemma {:induction false} TreeReasonsEmpty(o: Observations)
    ensures TreeReasons(o) == {} <==>
      && o.treeBefore.root == Some(o.process) == o.treeAfter.root
      && o.treeBefore.Identities() == o.treeAfter.Identities()
      && !HasForeignDescendant(o.treeBefore, o.resolved.allowedDescendants)
      && !HasForeignDescendant(o.treeAfter, o.resolved.allowedDescendants)
  {
    if TreeReasons(o) == {} {
      assert ProcessIdentityChanged !in TreeReasons(o) && ProcessTreeChanged !in TreeReasons(o);
      assert UnexpectedDescendant !in TreeReasons(o);
    }
  }

  lemma {:induction false} ListenerReasonsEmpty(o: Observations)
    ensures ListenerReasons(o) == {} <==>
      && o.listenerStarted.Bound() && o.listenerAfter.Bound()
      && o.listenerStarted.endpoint == o.resolved.endpoint == o.listenerAfter.endpoint
      && InStableTree(o.listenerStarted.owner, o.treeBefore, o.treeAfter)
      && InStableTree(o.listenerAfter.owner, o.treeBefore, o.treeAfter)
      && o.listenerStarted.owner == o.listenerAfter.owner && o.listenerStarted.token == o.listenerAfter.token
  {
    if ListenerReasons(o) == {} {
      assert ListenerMissing !in ListenerReasons(o) && ListenerEndpointChanged !in ListenerReasons(o);
      assert ListenerOwnerMismatch !in ListenerReasons(o) && ListenerSubstituted !in ListenerReasons(o);
    }
  }

  lemma {:induction false} ProbeReasonsEmpty(o: Observations)
    ensures ProbeReasons(o) == {} <==>
      o.probe == ProbeObservation(true, Some(o.resolved.expectedModel), o.listenerStarted.token)
  {
    if ProbeReasons(o) == {} {
      assert ProbeUnhealthy !in ProbeReasons(o) && ModelIdentityMismatch !in ProbeReasons(o);
      assert ProbeListenerMismatch !in ProbeReasons(o);
    }
  }

  lemma {:induction false} BindingVerdict(b: Backend, w1: World, w2: World, w3: World, process: Identity, w: Worlds)
    requires Effect(b.world, Next(b, Resolve, 1), w1) && Effect(w1, Next(b, BindingDigest, 1), w2)
    requires Effect(w2, Next(b, ObserveListener, 1), w3) && Linked(b, SpawnedWorld(w3, b.autoBind), w)
    ensures BindingReasons(Seen(w1.binding, process, w)) == {} <==> BindingUndisturbed(b)
  {
    BindingReasonsEmpty(Seen(w1.binding, process, w));
    assert SpawnedWorld(w3, b.autoBind).binding == w3.binding;
  }

  lemma {:induction false} TreeVerdict(b: Backend, w3: World, bindingBefore: Digest, w: Worlds)
    requires BornBy(w3) && Linked(b, SpawnedWorld(w3, b.autoBind), w)
    ensures var process := Identity(4100, Birth(w3.birth + 1), RUNTIME);
      TreeReasons(Seen(bindingBefore, process, w)) == {} <==> TreeUndisturbed(b)
  {
    var sw, process := SpawnedWorld(w3, b.autoBind), Identity(4100, Birth(w3.birth + 1), RUNTIME);
    var o := Seen(bindingBefore, process, w);
    var later := Next(b, ObserveTree, 1) + Next(b, ObserveListener, 2) + Next(b, ProbeRuntime, 1)
      + Next(b, BindingDigest, 2);
    TreeReasonsEmpty(o);
    LaterEffect(b, w, later);
    assert TreeUndisturbed(b) <==> !TouchesTree(Next(b, Spawn, 1)) && !TouchesTree(later);
    if !TouchesTree(Next(b, Spawn, 1)) && !TouchesTree(later) {
      assert o.treeBefore.Identities() == [process] == o.treeAfter.Identities();
    } else if RestartRoot !in Next(b, Spawn, 1) && RestartRoot !in later {
      if AddDescendant in Next(b, Spawn, 1) {
        assert w.atTree1.descendants[0].executable !in RESOLVED.allowedDescendants;
        assert HasForeignDescendant(o.treeBefore, RESOLVED.allowedDescendants);
      } else {
        assert w.atTree2.descendants[0].executable !in RESOLVED.allowedDescendants;
        assert HasForeignDescendant(o.treeAfter, RESOLVED.allowedDescendants);
      }
    }
  }

  lemma {:induction false} LaterEffect(b: Backend, w: Worlds, later: seq<Mutation>)
    requires Effect(w.atTree1, Next(b, ObserveTree, 1), w.atListener2)
    requires Effect(w.atListener2, Next(b, ObserveListener, 2), w.atProbe)
    requires Effect(w.atProbe, Next(b, ProbeRuntime, 1), w.atBinding2)
    requires Effect(w.atBinding2, Next(b, BindingDigest, 2), w.atTree2)
    requires later == Next(b, ObserveTree, 1) + Next(b, ObserveListener, 2) + Next(b, ProbeRuntime, 1)
      + Next(b, BindingDigest, 2)
    ensures Effect(w.atTree1, later, w.atTree2)
  {
    var s1, s2 := Next(b, ObserveTree, 1), Next(b, ObserveListener, 2);
    EffectCompose(w.atTree1, s1, w.atListener2, s2, w.atProbe);
    EffectCompose(w.atTree1, s1 + s2, w.atProbe, Next(b, ProbeRuntime, 1), w.atBinding2);
    EffectCompose(w.atTree1, s1 + s2 + Next(b, ProbeRuntime, 1), w.atBinding2, Next(b, BindingDigest, 2), w.atTree2);
  }

  lemma {:induction false} ListenerVerdict(b: Backend, w3: World, bindingBefore: Digest, w: Worlds)
    requires BornBy(w3) && ListenerKnown(w3) && Linked(b, SpawnedWorld(w3, b.autoBind), w)
    requires TreeReasons(Seen(bindingBefore, Identity(4100, Birth(w3.birth + 1), RUNTIME), w)) == {}
    requires TreeUndisturbed(b)
    ensures var o := Seen(bindingBefore, Identity(4100, Birth(w3.birth + 1), RUNTIME), w);
      ListenerReasons(o) == {} && ProbeReasons(o) == {} <==> ListenerUndisturbed(b)
  {
    var sw, process := SpawnedWorld(w3, b.autoBind), Identity(4100, Birth(w3.birth + 1), RUNTIME);
    var o := Seen(bindingBefore, process, w);
    var first := Next(b, Spawn, 1) + Next(b, ObserveTree, 1);
    TreeReasonsEmpty(o);
    ListenerReasonsEmpty(o);
    ProbeReasonsEmpty(o);
    StableTreeIsTheProcess(b, w3, bindingBefore, w);
    EffectCompose(sw, Next(b, Spawn, 1), w.atTree1, Next(b, ObserveTree, 1), w.atListener2);
    OwnerAtFirstSnapshot(b, w3, first, w.atListener2);
    MovesBetweenSnapshots(b, w);
  }

  /** With an undisturbed tree both tree snapshots hold exactly the spawned process. */
  lemma {:induction false} StableTreeIsTheProcess(b: Backend, w3: World, bindingBefore: Digest, w: Worlds)
    requires BornBy(w3) && Linked(b, SpawnedWorld(w3, b.autoBind), w) && TreeUndisturbed(b)
    ensures var process := Identity(4100, Birth(w3.birth + 1), RUNTIME);
      var o := Seen(bindingBefore, process, w);
      o.treeBefore.Identities() == [process] && o.treeAfter.Identities() == [process]
  {
    LaterEffect(b, w, Next(b, ObserveTree, 1) + Next(b, ObserveListener, 2) + Next(b, ProbeRuntime, 1)
      + Next(b, BindingDigest, 2));
  }

  lemma {:induction false} OwnerAtFirstSnapshot(b: Backend, w3: World, first: seq<Mutation>, w': World)
    requires BornBy(w3) && ListenerKnown(w3)
    requires Effect(SpawnedWorld(w3, b.autoBind), first, w')
    ensures w'.listener.owner == Some(Identity(4100, Birth(w3.birth + 1), RUNTIME)) <==>
      match LastMove(first) case None => b.autoBind case Some(m) => m.BindManagedListener?
  {
  }

  lemma {:induction false} MovesBetweenSnapshots(b: Backend, w: Worlds)
    requires Effect(w.atListener2, Next(b, ObserveListener, 2), w.atProbe)
    requires Effect(w.atProbe, Next(b, ProbeRuntime, 1), w.atBinding2)
    requires Effect(w.atBinding2, Next(b, BindingDigest, 2), w.atTree2)
    requires Effect(w.atTree2, Next(b, ObserveTree, 2), w.atListener3)
    requires ListenerKnown(w.atListener2)
    ensures var still :=
        !TouchesListener(Next(b, ObserveListener, 2)) && !TouchesListener(Next(b, ProbeRuntime, 1))
        && !TouchesListener(Next(b, BindingDigest, 2)) && !TouchesListener(Next(b, ObserveTree, 2));
      && (still ==> w.atListener3.listener == w.atListener2.listener == w.atProbe.listener)
      && (!still && w.atListener2.listener.owner.Some? ==> w.atListener3.listener.token != w.atListener2.listener.token)
  {
    LastMoveOfAll(Next(b, ObserveListener, 2));
    LastMoveOfAll(Next(b, ProbeRuntime, 1));
    LastMoveOfAll(Next(b, BindingDigest, 2));
    LastMoveOfAll(Next(b, ObserveTree, 2));
  }

  /** Nothing is objected to iff binding, tree and listener were undisturbed. */
  lemma {:induction false} Verdict(b: Backend, w1: World, w2: World, w3: World, w: Worlds)
    requires Effect(b.world, Next(b, Resolve, 1), w1) && Effect(w1, Next(b, BindingDigest, 1), w2)
    requires Effect(w2, Next(b, ObserveListener, 1), w3) && Linked(b, SpawnedWorld(w3, b.autoBind), w)
    ensures Reasons(Seen(w1.binding, Identity(4100, Birth(w3.birth + 1), RUNTIME), w)) == {} <==>
      BindingUndisturbed(b) && TreeUndisturbed(b) && ListenerUndisturbed(b)
  {
    var process := Identity(4100, Birth(w3.birth + 1), RUNTIME);
    var obs := Seen(w1.binding, process, w);
    BindingVerdict(b, w1, w2, w3, process, w);
    TreeVerdict(b, w3, w1.binding, w);
    if TreeReasons(obs) == {} { ListenerVerdict(b, w3, w1.binding, w); }
    ReasonsEmpty(obs);
  }

  /** The phase from the spawn on. */
  lemma {:induction false} LaunchFacts(b: Backend, w1: World, w2: World, b3: Backend)
    requires At(b3, b, Taken(1, 1, 1, 0, 0, 0))
    requires Effect(b.world, Next(b, Resolve, 1), w1) && Effect(w1, Next(b, BindingDigest, 1), w2)
    requires Effect(w2, Next(b, ObserveListener, 1), b3.world)
    ensures var (b4, r) := CallSpawn(b3, RESOLVED);
      && (r.Returned? <==> Count(b.failures, Spawn) == 0)
      && (r.Returned? ==>
            var g := ObserveAll(b4, RESOLVED, w1.binding, r.value).1;
            && (g.Gathered? <==> SnapshotsSucceed(b))
            && (g.Gathered? ==>
                  (Reasons(g.obs) == {} <==> BindingUndisturbed(b) && TreeUndisturbed(b) && ListenerUndisturbed(b))))
  {
    var (b4, r) := CallSpawn(b3, RESOLVED);
    SpawnCall(b3, b, Taken(1, 1, 1, 0, 0, 0));
    if r.Returned? {
      var w := ObserveFacts(b4, b, SpawnedWorld(b3.world, b.autoBind), w1.binding, r.value);
      if SnapshotsSucceed(b) { Verdict(b, w1, w2, b3.world, w); }
    }
  }

  /** The snapshot phase completes iff nothing fails and the launch is undisturbed. */
  lemma {:induction false} GatherFacts(b: Backend)
    requires Known(b.world)
    ensures Gather(b).1.Gathered? <==> NoFailures(b) && LaunchUndisturbed(b)
    ensures Gather(b).1.Gathered? ==>
      (Reasons(Gather(b).1.obs) == {} <==> BindingUndisturbed(b) && TreeUndisturbed(b) && ListenerUndisturbed(b))
  {
    var w1, w2 := PrepareFacts(b);
    FailureFree(b);
    var (b3, p) := Prepare(b);
    if p.Proceed? { LaunchFacts(b, w1, w2, b3); }
  }

  /** The main result: a start reports ready iff the world it finds has a free port and its binding,
      the schedule leaves binding, process tree and listener undisturbed where it matters, and no
      snapshot fails. */
  lemma {:induction false} ReadyIffUndisturbed(o: Oracle, b: Backend)
    requires !o.sticky && Known(b.world)
    ensures Start(o, b).2.ready <==> Undisturbed(b)
  {
    GatherFacts(b);
    if Gather(b).1.Gathered? {
      ReadyIffNoReasons(o, b, Gather(b).1.obs);
    } else {
      NotGatheredNotReady(o, b);
    }
  }

  lemma {:induction false} FailureFree(b: Backend)
    ensures NoFailures(b) <==>
      Count(b.failures, Resolve) == 0 && Count(b.failures, Spawn) == 0 && SnapshotsSucceed(b)
  {
  }

  lemma {:induction false} ReadyIffNoReasons(o: Oracle, b: Backend, obs: Observations)
    requires !o.sticky && Gather(b).1 == Gathered(obs)
    ensures Start(o, b).2.ready <==> Reasons(obs) == {}
  {
  }

  lemma {:induction false} NotGatheredNotReady(o: Oracle, b: Backend)
    requires !o.sticky && !Gather(b).1.Gathered?
    ensures !Start(o, b).2.ready
  {
  }

  lemma {:induction false} NothingScheduled(b: Backend)
    requires b.scheduled == map[] && b.failures == map[] && b.autoBind
    ensures Undisturbed(b) <==> !b.world.listener.Bound() && b.world.binding == BINDING
  {
    assert Next(b, Spawn, 1) + Next(b, ObserveTree, 1) == [];
  }

  /** With nothing left scheduled, a start is ready iff it finds the port free and the binding its own. */
  lemma {:induction false} EmptyScheduleReadyIff(o: Oracle, b: Backend)
    requires !o.sticky && Known(b.world) && b.scheduled == map[] && b.failures == map[] && b.autoBind
    ensures Start(o, b).2.ready <==> !b.world.listener.Bound() && b.world.binding == BINDING
  {
    NothingScheduled(b);
    ReadyIffUndisturbed(o, b);
  }

  // ----- every start of every run

  lemma {:induction false} MutationKeepsKnown(w: World, m: Mutation)
    requires Known(w) && Mutate(w, m).Returned?
    ensures Known(Mutate(w, m).value)
  {
  }

  /** No slot leads out of the known worlds, even one that raises half-way. */
  lemma {:induction false} MutationsKeepKnown(w: World, ms: seq<Mutation>)
    requires Known(w)
    ensures Known(MutateAll(w, ms).0)
    decreases |ms|
  {
    if ms != [] && Mutate(w, ms[0]).Returned? {
      MutationKeepsKnown(w, ms[0]);
      MutationsKeepKnown(Mutate(w, ms[0]).value, ms[1..]);
    }
  }

  lemma {:induction false} SnapshotKeepsKnown<T>(b: Backend, s: Stage, value: T)
    requires Known(b.world)
    ensures Known(Snapshot(b, s, value).0.world)
  {
    MutationsKeepKnown(b.world, Slot(b, s, Count(b.counts, s)));
  }

  lemma {:induction false} ResolveKeepsKnown(b: Backend)
    requires Known(b.world)
    ensures Known(CallResolve(b).0.world)
  {
    SnapshotKeepsKnown(Begin(b, Resolve).0, Resolve, RESOLVED);
  }

  lemma {:induction false} DigestKeepsKnown(b: Backend, r: Resolved)
    requires Known(b.world)
    ensures Known(CallBindingDigest(b, r).0.world)
  {
    SnapshotKeepsKnown(Begin(b, BindingDigest).0, BindingDigest, b.world.binding);
  }

  lemma {:induction false} ListenerKeepsKnown(b: Backend, r: Resolved)
    requires Known(b.world)
    ensures Known(CallObserveListener(b, r).0.world)
  {
    SnapshotKeepsKnown(Begin(b, ObserveListener).0, ObserveListener, b.world.listener);
  }

  lemma {:induction false} ProbeKeepsKnown(b: Backend, r: Resolved)
    requires Known(b.world)
    ensures Known(CallProbe(b, r).0.world)
  {
    SnapshotKeepsKnown(Begin(b, ProbeRuntime).0, ProbeRuntime, b.world.probe);
  }

  lemma {:induction false} TreeKeepsKnown(b: Backend, p: Identity)
    requires Known(b.world)
    ensures Known(CallObserveTree(b, p).0.world)
  {
    var b1 := Begin(b, ObserveTree).0;
    SnapshotKeepsKnown(b1.(world := b1.world.(treeSeq := b1.world.treeSeq + 1)), ObserveTree, SeenTree(b.world, p));
  }

  lemma {:induction false} SpawnKeepsKnown(b: Backend, r: Resolved)
    requires Known(b.world)
    ensures Known(CallSpawn(b, r).0.world)
  {
    var b1 := Begin(b, Spawn).0;
    var b2 := b1.(world := SpawnedWorld(b1.world, b1.autoBind), spawnCount := b1.spawnCount + 1);
    SnapshotKeepsKnown(b2, Spawn, Identity(4100, Birth(b1.world.birth + 1), RUNTIME));
  }

  lemma {:induction false} TerminateKeepsKnown(b: Backend, p: Identity)
    requires Known(b.world)
    ensures Known(CallTerminate(b, p).0.world)
  {
    var b1 := Begin(b, Terminate).0;
    SnapshotKeepsKnown(b1, Terminate, CleanupObservation(false, Members(b1.world), {CleanupUnverified}));
    SnapshotKeepsKnown(
      b1.(world := TerminatedWorld(b1.world, p)), Terminate, CleanupObservation(true, [], {}));
  }

  lemma {:induction false} PrepareKeepsKnown(b: Backend)
    requires Known(b.world)
    ensures Known(Prepare(b).0.world)
  {
    ResolveKeepsKnown(b);
    var (b1, r) := CallResolve(b);
    if r.Raised? { return; }
    DigestKeepsKnown(b1, r.value);
    var (b2, d) := CallBindingDigest(b1, r.value);
    if d.Raised? { return; }
    ListenerKeepsKnown(b2, r.value);
  }

  lemma {:induction false} ObserveKeepsKnown(b: Backend, r: Resolved, before: Digest, p: Identity)
    requires Known(b.world)
    ensures Known(ObserveAll(b, r, before, p).0.world)
  {
    var b2 := CallObserveListener(CallObserveTree(b, p).0, r).0;
    var b4 := CallBindingDigest(CallProbe(b2, r).0, r).0;
    FirstKeepsKnown(b, r, p);
    MiddleKeepsKnown(b2, r);
    LaterKeepsKnown(b4, r, p);
  }

  lemma {:induction false} FirstKeepsKnown(b: Backend, r: Resolved, p: Identity)
    requires Known(b.world)
    ensures var b1 := CallObserveTree(b, p).0; Known(b1.world) && Known(CallObserveListener(b1, r).0.world)
  {
    TreeKeepsKnown(b, p);
    ListenerKeepsKnown(CallObserveTree(b, p).0, r);
  }

  lemma {:induction false} MiddleKeepsKnown(b2: Backend, r: Resolved)
    requires Known(b2.world)
    ensures var b3 := CallProbe(b2, r).0; Known(b3.world) && Known(CallBindingDigest(b3, r).0.world)
  {
    ProbeKeepsKnown(b2, r);
    DigestKeepsKnown(CallProbe(b2, r).0, r);
  }

  lemma {:induction false} LaterKeepsKnown(b4: Backend, r: Resolved, p: Identity)
    requires Known(b4.world)
    ensures var b5 := CallObserveTree(b4, p).0;
      var b6 := CallObserveListener(b5, r).0;
      Known(b5.world) && Known(b6.world) && Known(CallBindingDigest(b6, r).0.world)
  {
    TreeKeepsKnown(b4, p);
    var b5 := CallObserveTree(b4, p).0;
    ListenerKeepsKnown(b5, r);
    DigestKeepsKnown(CallObserveListener(b5, r).0, r);
  }

  lemma {:induction false} GatherKeepsKnown(b: Backend)
    requires Known(b.world)
    ensures Known(Gather(b).0.world)
  {
    PrepareKeepsKnown(b);
    var (b1, p) := Prepare(b);
    if p.Proceed? {
      SpawnKeepsKnown(b1, p.resolved);
      var (b2, r) := CallSpawn(b1, p.resolved);
      if r.Returned? { ObserveKeepsKnown(b2, p.resolved, p.bindingBefore, r.value); }
    }
  }

  lemma {:induction false} StartKeepsKnown(o: Oracle, b: Backend)
    requires Known(b.world)
    ensures Known(Start(o, b).1.world)
  {
    GatherKeepsKnown(b);
    var (b1, g) := Gather(b);
    if MustTerminate(g).Some? { TerminateKeepsKnown(b1, MustTerminate(g).value); }
  }

  lemma {:induction false} StopKeepsKnown(o: Oracle, b: Backend)
    requires Known(b.world)
    ensures Known(Stop(o, b).1.world)
  {
    if o.process.Some? { TerminateKeepsKnown(b, o.process.value); }
  }

  lemma {:induction false} RunsKeepKnown(o: Oracle, b: Backend, commands: seq<Command>)
    requires Known(b.world)
    ensures Known(RunWorld(o, b, commands).1.world)
    decreases |commands|
  {
    if commands != [] {
      StartKeepsKnown(o, b);
      StopKeepsKnown(o, b);
      var (o1, b1, _) := if commands[0].DoStart? then Start(o, b) else Stop(o, b);
      RunsKeepKnown(o1, b1, commands[1..]);
    }
  }

  /** After every run on a fresh world, whatever is scheduled and injected, a further start reports
      ready iff the supervisor is not blocked and nothing disturbs that start. */
  lemma {:induction false} EveryStartReadyIffUndisturbed(o: Oracle, b: Backend, commands: seq<Command>)
    requires b.world == FRESH_WORLD
    ensures var (o1, b1) := RunWorld(o, b, commands);
      Start(o1, b1).2.ready <==> !o1.sticky && Undisturbed(b1)
  {
    RunsKeepKnown(o, b, commands);
    var (o1, b1) := RunWorld(o, b, commands);
    if !o1.sticky { ReadyIffUndisturbed(o1, b1); }
  }
}
