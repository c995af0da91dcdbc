/**
 What an outcome says: its status and the supervisor's state agree and tell ready apart from
 everything else, and every reason code stands for its own event, read off the world the start
 found and the mutations scheduled for its calls.
 */
module SupervisorReasons {
  import opened Basics
  import opened SupervisorWorld
  import opened SupervisorOracle
  import opened SupervisorRuns
  import opened SupervisorReadiness

  // ----- status and state

  /** Something was spawned by this call and is not vouched for. */
  predicate Unvouched(g: Gathering) {
    (g.Failed? && g.spawned.Some?) || (g.Gathered? && Reasons(g.obs) != {})
  }

  /** The process this call spawned, if it got that far. */
  function SpawnedAs(g: Gathering): Option<Identity> {
    if g.Gathered? then Some(g.obs.process) else if g.Failed? then g.spawned else None
  }

  predicate CleanedUp(answer: Attempt<CleanupObservation>) { answer.Returned? && answer.value.complete }

  /** A start ends ready exactly when it gathered everything without a reason, blocked exactly when it
      was blocked or could not clean up, and revoked otherwise; the state is always the status. */
  lemma {:induction false} StartStatus(o: Oracle, g: Gathering, answer: Attempt<CleanupObservation>)
    requires Consistent(o)
    ensures var (o1, outcome) := StartStep(o, g, answer);
      && o1.state == outcome.status
      && (outcome.status == Ready <==> outcome.ready)
      && (outcome.ready <==> !o.sticky && g.Gathered? && Reasons(g.obs) == {})
      && (outcome.status == UnknownBlocking <==> o.sticky || (Unvouched(g) && !CleanedUp(answer)))
      && (outcome.status == Revoked <==> !outcome.ready && outcome.status != UnknownBlocking)
      && outcome.sticky == o1.sticky == (outcome.status == UnknownBlocking)
      && (outcome.cleanupComplete == Some(false) <==> outcome.status == UnknownBlocking)
      && (outcome.cleanupComplete == Some(true) <==> !o.sticky && Unvouched(g) && CleanedUp(answer))
      && outcome.process == (if outcome.cleanupComplete == Some(true) then SpawnedAs(g) else o1.process)
      && outcome.processStarted == outcome.process.Some?
  {
  }

  /** A stop ends blocked exactly when it was blocked or could not clean up, and stopped otherwise. */
  lemma {:induction false} StopStatus(o: Oracle, answer: Attempt<CleanupObservation>)
    requires Consistent(o)
    ensures var (o1, outcome) := StopStep(o, answer);
      && o1.state == outcome.status && !outcome.ready
      && (outcome.status == UnknownBlocking <==> o.sticky || (o.process.Some? && !CleanedUp(answer)))
      && (outcome.status == Stopped <==> outcome.status != UnknownBlocking)
      && outcome.sticky == o1.sticky == (outcome.status == UnknownBlocking)
      && outcome.cleanupComplete == Some(outcome.status == Stopped)
      && outcome.process == o.process && outcome.processStarted == o.process.Some?
      && o1.process == (if outcome.status == Stopped then None else o.process)
  {
  }

  lemma {:induction false} StepStatus(o: Oracle, c: Call)
    requires Consistent(o)
    ensures var (o1, outcome) := Step(o, c);
      && Consistent(o1) && o1.state == outcome.status
      && (outcome.status == Ready <==> outcome.ready) && (outcome.ready ==> c.StartCall?)
  {
    match c
    case StartCall(g, answer) => StartStatus(o, g, answer);
    case StopCall(answer) => StopStatus(o, answer);
  }

  /** Over every run: after each call the state is the reported status, and it is ready exactly when
      that call was a start that reported ready. */
  lemma {:induction false} StateIsStatus(o: Oracle, calls: seq<Call>)
    requires Consistent(o)
    ensures |Run(o, calls).1| == |calls|
    ensures forall i | 0 <= i < |calls| ::
      var outcome, o1 := Run(o, calls).1[i], Run(o, calls[..i + 1]).0;
      && o1.state == outcome.status
      && (outcome.status == Ready <==> outcome.ready) && (outcome.ready ==> calls[i].StartCall?)
    decreases |calls|
  {
    if calls != [] {
      var (o1, outcome) := Step(o, calls[0]);
      StepStatus(o, calls[0]);
      StateIsStatus(o1, calls[1..]);
      var outcomes := Run(o, calls).1;
      forall i | 0 <= i < |calls|
        ensures Run(o, calls[..i + 1]).0.state == outcomes[i].status
        ensures (outcomes[i].status == Ready <==> outcomes[i].ready) && (outcomes[i].ready ==> calls[i].StartCall?)
      {
        assert calls[..i + 1][0] == calls[0];
        if i > 0 {
          assert calls[..i + 1][1..] == calls[1..][..i];
          assert outcomes[i] == Run(o1, calls[1..]).1[i - 1];
        } else {
          assert calls[..1][1..] == [];
        }
      }
    }
  }

  // ----- the world after a list of mutations

  function Then(w: World, ms: seq<Mutation>): World { MutateAll(w, ms).0 }

  /** The same but for the number of tree snapshots taken. */
  predicate Alike(w: World, v: World) { w == v.(treeSeq := w.treeSeq) }

  lemma {:induction false} MutateTreeSeq(w: World, n: nat, m: Mutation)
    ensures Mutate(w.(treeSeq := n), m)
      == if Mutate(w, m).Raised? then Raised else Returned(Mutate(w, m).value.(treeSeq := n))
  {
  }

  lemma {:induction false} TreeSeqApart(w: World, n: nat, ms: seq<Mutation>)
    ensures MutateAll(w.(treeSeq := n), ms) == (Then(w, ms).(treeSeq := n), MutateAll(w, ms).1)
    decreases |ms|
  {
    if ms != [] {
      MutateTreeSeq(w, n, ms[0]);
      if Mutate(w, ms[0]).Returned? { TreeSeqApart(Mutate(w, ms[0]).value, n, ms[1..]); }
    }
  }

  lemma {:induction false} ThenAppend(w: World, a: seq<Mutation>, b: seq<Mutation>)
    requires !MutateAll(w, a).1
    ensures MutateAll(w, a + b) == MutateAll(Then(w, a), b)
    decreases |a|
  {
    if a == [] {
      assert a + b == b;
    } else {
      assert (a + b)[0] == a[0] && (a + b)[1..] == a[1..] + b;
      ThenAppend(Mutate(w, a[0]).value, a[1..], b);
    }
  }

  /** The last mutation acts on the world that the others leave. */
  lemma {:induction false} ThenLast(w: World, ms: seq<Mutation>)
    requires ms != [] && !MutateAll(w, ms).1
    ensures var front := ms[..|ms| - 1];
      && !MutateAll(w, front).1 && Mutate(Then(w, front), ms[|ms| - 1]) == Returned(Then(w, ms))
    decreases |ms|
  {
    var front, last := ms[..|ms| - 1], ms[|ms| - 1];
    if |ms| > 1 {
      var w1 := Mutate(w, ms[0]).value;
      ThenLast(w1, ms[1..]);
      assert ms[1..][..|ms| - 2] == front[1..] && front[0] == ms[0];
    } else {
      assert front == [] && ms[1..] == [];
    }
  }

  // ----- reading a list

  /** A descendant was added and no restart followed it. */
  predicate LeavesDescendant(ms: seq<Mutation>) {
    exists i | 0 <= i < |ms| :: ms[i] == AddDescendant && RestartRoot !in ms[i + 1..]
  }

  lemma {:induction false} LeavesDescendantSnoc(front: seq<Mutation>, m: Mutation)
    ensures LeavesDescendant(front + [m]) <==> m == AddDescendant || (m != RestartRoot && LeavesDescendant(front))
  {
    var ms := front + [m];
    if m == AddDescendant { assert ms[|front|] == m && ms[|front| + 1..] == []; }
    if i :| 0 <= i < |ms| && ms[i] == AddDescendant && RestartRoot !in ms[i + 1..] {
      if i < |front| {
        assert ms[i + 1..] == front[i + 1..] + [m];
        assert front[i] == AddDescendant;
      }
    }
    if m != RestartRoot && LeavesDescendant(front) {
      var i :| 0 <= i < |front| && front[i] == AddDescendant && RestartRoot !in front[i + 1..];
      assert ms[i] == AddDescendant && ms[i + 1..] == front[i + 1..] + [m];
    }
  }

  lemma {:induction false} MemberSnoc(ms: seq<Mutation>, m: Mutation)
    requires ms != []
    ensures m in ms <==> m in ms[..|ms| - 1] || m == ms[|ms| - 1]
  {
    assert ms == ms[..|ms| - 1] + [ms[|ms| - 1]];
  }

  /** Binding, managed process and ambiguity after a list of mutations. */
  lemma {:induction false} PlainAfter(w: World, ms: seq<Mutation>)
    requires !MutateAll(w, ms).1
    ensures var v := Then(w, ms);
      && v.managedRoot == w.managedRoot && w.birth <= v.birth
      && v.binding == (if DriftBinding in ms then DRIFTED else w.binding)
      && (v.cleanupAmbiguous <==> w.cleanupAmbiguous || MakeCleanupAmbiguous in ms)
    decreases |ms|
  {
    if ms != [] {
      ThenLast(w, ms);
      PlainAfter(w, ms[..|ms| - 1]);
      MemberSnoc(ms, DriftBinding);
      MemberSnoc(ms, MakeCleanupAmbiguous);
    }
  }

  /** Descendants are told apart from every root by their executable, and were born after the spawn. */
  ghost predicate DescendantsKnown(w: World, birth: nat) {
    forall i | 0 <= i < |w.descendants| ::
      var d := w.descendants[i]; d.executable != RUNTIME && d.startToken.Birth? && d.startToken.n > birth
  }

  lemma {:induction false} DescendantsAfter(w: World, ms: seq<Mutation>, birth: nat)
    requires !MutateAll(w, ms).1 && DescendantsKnown(w, birth) && birth <= w.birth
    ensures DescendantsKnown(Then(w, ms), birth)
    decreases |ms|
  {
    if ms != [] {
      DescendantIsNoRuntime();
      ThenLast(w, ms);
      PlainAfter(w, ms[..|ms| - 1]);
      DescendantsAfter(w, ms[..|ms| - 1], birth);
    }
  }

  lemma {:induction false} DescendantIsNoRuntime()
    ensures Sha256("unexpected-descendant") != RUNTIME
  {
    assert "unexpected-descendant"[0] != "runtime-executable-v1"[0];
  }

  /** The observed root is a restarted process, born after this world. */
  ghost predicate Reborn(w: World, v: World) {
    && w.managedRoot.Some? && v.observedRoot.Some? && v.observedRoot.value.startToken.Birth?
    && w.birth < v.observedRoot.value.startToken.n <= v.birth
    && v.observedRoot.value == Identity(w.managedRoot.value.pid, v.observedRoot.value.startToken, RUNTIME)
  }

  /** What a list of mutations makes of the root and the descendants. */
  ghost predicate TreeIs(w: World, ms: seq<Mutation>, v: World) {
    && v.managedRoot == w.managedRoot && w.birth <= v.birth
    && (RestartRoot !in ms ==> v.observedRoot == w.observedRoot)
    && (RestartRoot in ms ==> Reborn(w, v))
    && (v.descendants != [] <==> LeavesDescendant(ms) || (RestartRoot !in ms && w.descendants != []))
    && (RestartRoot !in ms ==>
          && |w.descendants| <= |v.descendants| && (|w.descendants| < |v.descendants| <==> AddDescendant in ms)
          && (AddDescendant !in ms ==> v.descendants == w.descendants))
  }

  lemma {:induction false} TreeStep(w: World, front: seq<Mutation>, v0: World, m: Mutation, v: World)
    requires w.managedRoot.Some? && TreeIs(w, front, v0) && Mutate(v0, m) == Returned(v)
    ensures TreeIs(w, front + [m], v)
  {
    LeavesDescendantSnoc(front, m);
    assert forall x :: x in front + [m] <==> x in front || x == m;
  }

  lemma {:induction false} TreeAfter(w: World, ms: seq<Mutation>)
    requires !MutateAll(w, ms).1 && w.managedRoot.Some?
    ensures TreeIs(w, ms, Then(w, ms))
    decreases |ms|
  {
    if ms == [] {
      TreeUntouched(w);
    } else {
      var front, last := ms[..|ms| - 1], ms[|ms| - 1];
      assert ms == front + [last];
      ThenLast(w, ms);
      TreeAfter(w, front);
      TreeStep(w, front, Then(w, front), last, Then(w, ms));
    }
  }

  lemma {:induction false} TreeUntouched(w: World)
    ensures TreeIs(w, [], w)
  {
  }

  /** What the last move makes of the listener and the probe. */
  ghost predicate ListenerIs(w: World, last: Option<Mutation>, v: World) {
    && v.managedRoot == w.managedRoot && w.listenerSeq <= v.listenerSeq
    && (last.None? ==> v.listener == w.listener && v.probe == w.probe && v.listenerSeq == w.listenerSeq)
    && (last.Some? ==>
          && v.listenerSeq > w.listenerSeq && v.listener.owner.Some?
          && v.listener.endpoint == ENDPOINT && v.listener.token == Some(v.listenerSeq)
          && v.probe == ProbeObservation(true, Some(MODEL), v.listener.token))
    && (last == Some(BindManagedListener) ==> v.listener.owner == w.managedRoot)
    && (last == Some(RestartRoot) ==> v.listener.owner == v.observedRoot)
    && (last == Some(OccupyPort) || last == Some(SubstituteListener) ==>
          v.listener.owner.value.startToken.ForeignBirth?)
  }

  lemma {:induction false} ListenerStep(w: World, last: Option<Mutation>, v0: World, m: Mutation, v: World)
    requires ListenerIs(w, last, v0) && Mutate(v0, m) == Returned(v)
    ensures ListenerIs(w, if MovesListener(m) then Some(m) else last, v)
  {
  }

  lemma {:induction false} ListenerAfter(w: World, ms: seq<Mutation>)
    requires !MutateAll(w, ms).1
    ensures ListenerIs(w, LastMove(ms), Then(w, ms))
    decreases |ms|
  {
    if ms != [] {
      var front := ms[..|ms| - 1];
      ThenLast(w, ms);
      ListenerAfter(w, front);
      ListenerStep(w, LastMove(front), Then(w, front), ms[|ms| - 1], Then(w, ms));
    }
  }

  // ----- the worlds a start passes through

  /** The mutations scheduled for the calls of the next start, in the order of the calls. */
  datatype Slots = Slots(
    resolve: seq<Mutation>, digest1: seq<Mutation>, listener1: seq<Mutation>, spawn: seq<Mutation>,
    tree1: seq<Mutation>, listener2: seq<Mutation>, probe: seq<Mutation>, digest2: seq<Mutation>,
    tree2: seq<Mutation>, listener3: seq<Mutation>)

  function SlotsOf(b: Backend): Slots {
    Slots(Next(b, Resolve, 1), Next(b, BindingDigest, 1), Next(b, ObserveListener, 1), Next(b, Spawn, 1),
          Next(b, ObserveTree, 1), Next(b, ObserveListener, 2), Next(b, ProbeRuntime, 1), Next(b, BindingDigest, 2),
          Next(b, ObserveTree, 2), Next(b, ObserveListener, 3))
  }

  /** These mutations lead from one world to the other without raising. */
  predicate Reached(w: World, ms: seq<Mutation>, v: World) { !MutateAll(w, ms).1 && Alike(v, Then(w, ms)) }

  lemma {:induction false} ReachedOn(w: World, a: seq<Mutation>, v: World, b: seq<Mutation>, u: World)
    requires Reached(w, a, v) && Reached(v, b, u)
    ensures Reached(w, a + b, u)
  {
    var exact := Then(w, a);
    assert v == exact.(treeSeq := v.treeSeq);
    TreeSeqApart(exact, v.treeSeq, b);
    ThenAppend(w, a, b);
  }

  /** The world after a counted call whose slot ran. */
  lemma {:induction false} SnapshotReached<T>(b: Backend, s: Stage, w: World, value: T)
    requires !Begin(b, s).1 && Snapshot(Begin(b, s).0.(world := w), s, value).1.Returned?
    ensures Reached(w, Next(b, s, 1), Snapshot(Begin(b, s).0.(world := w), s, value).0.world)
  {
    CallShifts(b, s, w);
  }

  lemma {:induction false} ResolveReached(b: Backend)
    requires CallResolve(b).1.Returned?
    ensures Reached(b.world, Next(b, Resolve, 1), CallResolve(b).0.world)
  {
    SnapshotReached(b, Resolve, b.world, RESOLVED);
  }

  lemma {:induction false} DigestReached(b: Backend)
    requires CallBindingDigest(b, RESOLVED).1.Returned?
    ensures Reached(b.world, Next(b, BindingDigest, 1), CallBindingDigest(b, RESOLVED).0.world)
    ensures CallBindingDigest(b, RESOLVED).1.value == b.world.binding
  {
    SnapshotReached(b, BindingDigest, b.world, b.world.binding);
  }

  lemma {:induction false} ListenerReached(b: Backend)
    requires CallObserveListener(b, RESOLVED).1.Returned?
    ensures Reached(b.world, Next(b, ObserveListener, 1), CallObserveListener(b, RESOLVED).0.world)
    ensures CallObserveListener(b, RESOLVED).1.value == b.world.listener
  {
    SnapshotReached(b, ObserveListener, b.world, b.world.listener);
  }

  lemma {:induction false} ProbeReached(b: Backend)
    requires CallProbe(b, RESOLVED).1.Returned?
    ensures Reached(b.world, Next(b, ProbeRuntime, 1), CallProbe(b, RESOLVED).0.world)
    ensures CallProbe(b, RESOLVED).1.value == b.world.probe
  {
    SnapshotReached(b, ProbeRuntime, b.world, b.world.probe);
  }

  lemma {:induction false} TreeReached(b: Backend, p: Identity)
    requires CallObserveTree(b, p).1.Returned?
    ensures Reached(b.world, Next(b, ObserveTree, 1), CallObserveTree(b, p).0.world)
    ensures CallObserveTree(b, p).1.value == SeenTree(b.world, p)
  {
    var w := b.world.(treeSeq := b.world.treeSeq + 1);
    SnapshotReached(b, ObserveTree, w, SeenTree(b.world, p));
    TreeSeqApart(b.world, b.world.treeSeq + 1, Next(b, ObserveTree, 1));
  }

  lemma {:induction false} SpawnReached(b: Backend)
    requires CallSpawn(b, RESOLVED).1.Returned?
    ensures Reached(SpawnedWorld(b.world, b.autoBind), Next(b, Spawn, 1), CallSpawn(b, RESOLVED).0.world)
    ensures CallSpawn(b, RESOLVED).1.value == Identity(4100, Birth(b.world.birth + 1), RUNTIME)
  {
    var w, root := SpawnedWorld(b.world, b.autoBind), Identity(4100, Birth(b.world.birth + 1), RUNTIME);
    var b1 := Begin(b, Spawn).0;
    SpawnCounted(b1.(world := w), root, b1.spawnCount + 1);
    SnapshotReached(b, Spawn, w, root);
  }

  // Each call in its place: what was seen, where the world went, and what is left of the schedule.

  lemma {:induction false} DigestStep(b: Backend, b0: Backend, t: Taken)
    requires At(b, b0, t) && CallBindingDigest(b, RESOLVED).1.Returned?
    ensures var (b2, r) := CallBindingDigest(b, RESOLVED);
      && r.value == b.world.binding && At(b2, b0, t.(digests := t.digests + 1))
      && Reached(b.world, Next(b0, BindingDigest, t.digests + 1), b2.world)
  {
    DigestCall(b, b0, t);
    DigestReached(b);
    assert Next(b, BindingDigest, 1) == Next(b0, BindingDigest, t.Of(BindingDigest) + 1);
  }

  lemma {:induction false} ListenerSeen(b: Backend, b0: Backend, t: Taken)
    requires At(b, b0, t) && CallObserveListener(b, RESOLVED).1.Returned?
    ensures var (b2, r) := CallObserveListener(b, RESOLVED);
      && r.value == b.world.listener && At(b2, b0, t.(listeners := t.listeners + 1))
      && Reached(b.world, Next(b0, ObserveListener, t.listeners + 1), b2.world)
  {
    ListenerCall(b, b0, t);
    ListenerReached(b);
    assert Next(b, ObserveListener, 1) == Next(b0, ObserveListener, t.Of(ObserveListener) + 1);
  }

  lemma {:induction false} ProbeSeen(b: Backend, b0: Backend, t: Taken)
    requires At(b, b0, t) && CallProbe(b, RESOLVED).1.Returned?
    ensures var (b2, r) := CallProbe(b, RESOLVED);
      && r.value == b.world.probe && At(b2, b0, t.(probes := t.probes + 1))
      && Reached(b.world, Next(b0, ProbeRuntime, t.probes + 1), b2.world)
  {
    ProbeCall(b, b0, t);
    ProbeReached(b);
    assert Next(b, ProbeRuntime, 1) == Next(b0, ProbeRuntime, t.Of(ProbeRuntime) + 1);
  }

  lemma {:induction false} TreeSeen(b: Backend, b0: Backend, t: Taken, p: Identity)
    requires At(b, b0, t) && CallObserveTree(b, p).1.Returned?
    ensures var (b2, r) := CallObserveTree(b, p);
      && r.value == SeenTree(b.world, p) && At(b2, b0, t.(trees := t.trees + 1))
      && Reached(b.world, Next(b0, ObserveTree, t.trees + 1), b2.world)
  {
    TreeCall(b, b0, t, p);
    TreeReached(b, p);
    assert Next(b, ObserveTree, 1) == Next(b0, ObserveTree, t.Of(ObserveTree) + 1);
  }

  lemma {:induction false} ResolveSeen(b: Backend)
    requires Known(b.world) && CallResolve(b).1.Returned?
    ensures var (b1, r) := CallResolve(b);
      r.value == RESOLVED && At(b1, b, Taken(1, 0, 0, 0, 0, 0)) && Reached(b.world, Next(b, Resolve, 1), b1.world)
  {
    assert At(b, b, Taken(0, 0, 0, 0, 0, 0));
    ResolveCall(b, b, Taken(0, 0, 0, 0, 0, 0));
    ResolveReached(b);
  }

  lemma {:induction false} CheckReached(b: Backend, b1: Backend)
    requires At(b1, b, Taken(1, 0, 0, 0, 0, 0)) && Reached(b.world, Next(b, Resolve, 1), b1.world)
    requires CallBindingDigest(b1, RESOLVED).1.Returned?
    requires CallObserveListener(CallBindingDigest(b1, RESOLVED).0, RESOLVED).1.Returned?
    ensures var (b2, r2), sl := CallBindingDigest(b1, RESOLVED), SlotsOf(b);
      var (b3, r3) := CallObserveListener(b2, RESOLVED);
      && r2.value == Then(b.world, sl.resolve).binding && At(b3, b, Taken(1, 1, 1, 0, 0, 0))
      && Reached(b.world, sl.resolve + sl.digest1, b2.world) && r3.value == b2.world.listener
      && Reached(b.world, sl.resolve + sl.digest1 + sl.listener1, b3.world)
  {
    var sl := SlotsOf(b);
    DigestStep(b1, b, Taken(1, 0, 0, 0, 0, 0));
    var b2 := CallBindingDigest(b1, RESOLVED).0;
    ListenerSeen(b2, b, Taken(1, 1, 0, 0, 0, 0));
    var b3 := CallObserveListener(b2, RESOLVED).0;
    ReachedOn(b.world, sl.resolve, b1.world, sl.digest1, b2.world);
    ReachedOn(b.world, sl.resolve + sl.digest1, b2.world, sl.listener1, b3.world);
  }

  /** From the first calls to the spawn. */
  lemma {:induction false} PrepareReached(b: Backend)
    requires Known(b.world) && Prepare(b).1.Proceed?
    ensures var (b3, p), sl := Prepare(b), SlotsOf(b);
      && p == Proceed(RESOLVED, Then(b.world, sl.resolve).binding) && At(b3, b, Taken(1, 1, 1, 0, 0, 0))
      && Reached(b.world, sl.resolve + sl.digest1 + sl.listener1, b3.world)
      && !Then(b.world, sl.resolve + sl.digest1).listener.Bound() && !MutateAll(b.world, sl.resolve + sl.digest1).1
      && !MutateAll(b.world, sl.resolve).1
  {
    ResolveSeen(b);
    CheckReached(b, CallResolve(b).0);
  }

  /** Neighbouring worlds of the snapshots after the spawn. */
  ghost predicate Chained(sl: Slots, w: Worlds) {
    && Reached(w.atTree1, sl.tree1, w.atListener2) && Reached(w.atListener2, sl.listener2, w.atProbe)
    && Reached(w.atProbe, sl.probe, w.atBinding2) && Reached(w.atBinding2, sl.digest2, w.atTree2)
    && Reached(w.atTree2, sl.tree2, w.atListener3) && Reached(w.atListener3, sl.listener3, w.atBinding3)
  }

  lemma {:induction false} FirstReached(b: Backend, b0: Backend, p: Identity, b4: Backend) returns (w: Worlds)
    requires At(b, b0, Taken(1, 1, 1, 1, 0, 0))
    requires var (b1, r1) := CallObserveTree(b, p);
      var (b2, r2) := CallObserveListener(b1, RESOLVED);
      var (b3, r3) := CallProbe(b2, RESOLVED);
      var (b5, r4) := CallBindingDigest(b3, RESOLVED);
      r1.Returned? && r2.Returned? && r3.Returned? && r4.Returned? && b5 == b4
    ensures var sl := SlotsOf(b0);
      && Reached(b.world, sl.tree1, w.atListener2) && Reached(w.atListener2, sl.listener2, w.atProbe)
      && Reached(w.atProbe, sl.probe, w.atBinding2) && Reached(w.atBinding2, sl.digest2, w.atTree2)
      && w.atTree1 == b.world && w.atTree2 == b4.world && At(b4, b0, Taken(1, 2, 2, 1, 1, 1))
    ensures var (b1, r1) := CallObserveTree(b, p);
      var (b2, r2) := CallObserveListener(b1, RESOLVED);
      var (b3, r3) := CallProbe(b2, RESOLVED);
      var (b5, r4) := CallBindingDigest(b3, RESOLVED);
      && r1.value == SeenTree(w.atTree1, p) && r2.value == w.atListener2.listener
      && r3.value == w.atProbe.probe && r4.value == w.atBinding2.binding
  {
    TreeSeen(b, b0, Taken(1, 1, 1, 1, 0, 0), p);
    var b1 := CallObserveTree(b, p).0;
    ListenerSeen(b1, b0, Taken(1, 1, 1, 1, 1, 0));
    var b2 := CallObserveListener(b1, RESOLVED).0;
    ProbeSeen(b2, b0, Taken(1, 1, 2, 1, 1, 0));
    var b3 := CallProbe(b2, RESOLVED).0;
    DigestStep(b3, b0, Taken(1, 1, 2, 1, 1, 1));
    w := Worlds(b.world, b1.world, b2.world, b3.world, b4.world, b4.world, b4.world);
  }

  lemma {:induction false} SecondReached(b4: Backend, b0: Backend, p: Identity) returns (w5: World, w6: World)
    requires At(b4, b0, Taken(1, 2, 2, 1, 1, 1))
    requires var (b5, r5) := CallObserveTree(b4, p);
      var (b6, r6) := CallObserveListener(b5, RESOLVED);
      r5.Returned? && r6.Returned? && CallBindingDigest(b6, RESOLVED).1.Returned?
    ensures var sl := SlotsOf(b0);
      Reached(b4.world, sl.tree2, w5) && Reached(w5, sl.listener3, w6)
    ensures var (b5, r5) := CallObserveTree(b4, p);
      var (b6, r6) := CallObserveListener(b5, RESOLVED);
      && r5.value == SeenTree(b4.world, p) && r6.value == w5.listener
      && CallBindingDigest(b6, RESOLVED).1.value == w6.binding
  {
    TreeSeen(b4, b0, Taken(1, 2, 2, 1, 1, 1), p);
    var b5 := CallObserveTree(b4, p).0;
    ListenerSeen(b5, b0, Taken(1, 2, 2, 1, 2, 1));
    var b6 := CallObserveListener(b5, RESOLVED).0;
    DigestReached(b6);
    w5, w6 := b5.world, b6.world;
  }

  /** From the spawn to the last snapshot. */
  lemma {:induction false} ObserveReached(b: Backend, b0: Backend, before: Digest, p: Identity) returns (w: Worlds)
    requires At(b, b0, Taken(1, 1, 1, 1, 0, 0))
    requires ObserveAll(b, RESOLVED, before, p).1.Gathered?
    ensures ObserveAll(b, RESOLVED, before, p).1.obs == Seen(before, p, w)
    ensures w.atTree1 == b.world && Chained(SlotsOf(b0), w)
  {
    var b3 := CallProbe(CallObserveListener(CallObserveTree(b, p).0, RESOLVED).0, RESOLVED).0;
    var b4 := CallBindingDigest(b3, RESOLVED).0;
    w := FirstReached(b, b0, p, b4);
    var w5, w6 := SecondReached(b4, b0, p);
    w := w.(atListener3 := w5, atBinding3 := w6);
  }

  /** The process a start spawns in this world. */
  function Spawned(w: World): Identity { Identity(4100, Birth(w.birth + 1), RUNTIME) }

  /** Everything a start that took all its snapshots passed through; `before` is the world it spawned in. */
  ghost predicate Passed(b: Backend, before: World, w: Worlds) {
    var sl := SlotsOf(b);
    && Known(before) && !MutateAll(b.world, sl.resolve).1 && !MutateAll(b.world, sl.resolve + sl.digest1).1
    && !Then(b.world, sl.resolve + sl.digest1).listener.Bound()
    && Reached(b.world, sl.resolve + sl.digest1 + sl.listener1, before)
    && Reached(SpawnedWorld(before, b.autoBind), sl.spawn, w.atTree1) && Chained(sl, w)
  }

  lemma {:induction false} SpawnSeen(b3: Backend, b: Backend)
    requires At(b3, b, Taken(1, 1, 1, 0, 0, 0)) && CallSpawn(b3, RESOLVED).1.Returned?
    ensures var (b4, r) := CallSpawn(b3, RESOLVED);
      && r.value == Spawned(b3.world) && At(b4, b, Taken(1, 1, 1, 1, 0, 0))
      && Reached(SpawnedWorld(b3.world, b.autoBind), Next(b, Spawn, 1), b4.world)
  {
    SpawnCall(b3, b, Taken(1, 1, 1, 0, 0, 0));
    SpawnReached(b3);
    assert Next(b3, Spawn, 1) == Next(b, Spawn, Taken(1, 1, 1, 0, 0, 0).Of(Spawn) + 1);
  }

  lemma {:induction false} GatherReached(b: Backend) returns (before: World, w: Worlds)
    requires Known(b.world) && Gather(b).1.Gathered?
    ensures Passed(b, before, w)
    ensures Gather(b).1.obs == Seen(Then(b.world, SlotsOf(b).resolve).binding, Spawned(before), w)
  {
    PrepareReached(b);
    var (b3, p) := Prepare(b);
    SpawnSeen(b3, b);
    var (b4, r) := CallSpawn(b3, RESOLVED);
    before := b3.world;
    w := ObserveReached(b4, b, p.bindingBefore, r.value);
  }

  // ----- binding codes

  lemma {:induction false} ReachedPlain(w: World, ms: seq<Mutation>, v: World)
    requires Reached(w, ms, v)
    ensures v.managedRoot == w.managedRoot && w.birth <= v.birth
    ensures v.binding == if DriftBinding in ms then DRIFTED else w.binding
    ensures v.cleanupAmbiguous <==> w.cleanupAmbiguous || MakeCleanupAmbiguous in ms
  {
    PlainAfter(w, ms);
  }

  lemma {:induction false} DriftedIsNotBinding()
    ensures DRIFTED != BINDING
  {
    assert |"resolved-runtime-binding-v1"| != |"resolved-runtime-binding-drifted"|;
  }

  /** A drift fell between the first and the last digest of the start. */
  predicate DriftsMeanwhile(sl: Slots) {
    || DriftBinding in sl.digest1 || DriftBinding in sl.listener1 || DriftBinding in sl.spawn
    || DriftBinding in sl.tree1 || DriftBinding in sl.listener2 || DriftBinding in sl.probe
    || DriftBinding in sl.digest2 || DriftBinding in sl.tree2 || DriftBinding in sl.listener3
  }

  /** The binding has drifted by the time of the first digest. */
  predicate DriftedBefore(b: Backend) { b.world.binding == DRIFTED || DriftBinding in SlotsOf(b).resolve }

  lemma {:induction false} BindingsSeen(b: Backend, before: World, w: Worlds)
    requires Passed(b, before, w)
    ensures var sl := SlotsOf(b);
      var d1, d3 := DriftBinding in sl.resolve, DriftBinding in sl.resolve || DriftsMeanwhile(sl);
      && Then(b.world, sl.resolve).binding == (if d1 then DRIFTED else b.world.binding)
      && w.atBinding3.binding == (if d3 then DRIFTED else b.world.binding)
      && w.atBinding2.binding in {Then(b.world, sl.resolve).binding, w.atBinding3.binding}
  {
    var sl := SlotsOf(b);
    var pre := sl.resolve + sl.digest1 + sl.listener1;
    PlainAfter(b.world, sl.resolve);
    ReachedPlain(b.world, pre, before);
    assert DriftBinding in pre <==>
      DriftBinding in sl.resolve || DriftBinding in sl.digest1 || DriftBinding in sl.listener1;
    ReachedPlain(SpawnedWorld(before, b.autoBind), sl.spawn, w.atTree1);
    assert SpawnedWorld(before, b.autoBind).binding == before.binding;
    ReachedPlain(w.atTree1, sl.tree1, w.atListener2);
    ReachedPlain(w.atListener2, sl.listener2, w.atProbe);
    ReachedPlain(w.atProbe, sl.probe, w.atBinding2);
    ReachedPlain(w.atBinding2, sl.digest2, w.atTree2);
    ReachedPlain(w.atTree2, sl.tree2, w.atListener3);
    ReachedPlain(w.atListener3, sl.listener3, w.atBinding3);
  }

  lemma {:induction false} BindingCodes(b: Backend, before: World, w: Worlds, p: Identity)
    requires Passed(b, before, w)
    ensures var codes := BindingReasons(Seen(Then(b.world, SlotsOf(b).resolve).binding, p, w));
      && (BindingMismatch in codes <==> b.world.binding != BINDING || DriftBinding in SlotsOf(b).resolve)
      && (BindingDrift in codes <==> !DriftedBefore(b) && DriftsMeanwhile(SlotsOf(b)))
      && codes <= {BindingMismatch, BindingDrift}
  {
    BindingsSeen(b, before, w);
    DriftedIsNotBinding();
  }

  // ----- tree codes

  lemma {:induction false} ReachedTree(w: World, ms: seq<Mutation>, v: World)
    requires Reached(w, ms, v) && w.managedRoot.Some?
    ensures TreeIs(w, ms, v)
  {
    TreeAfter(w, ms);
  }

  /** The mutations between the two tree snapshots. */
  function BetweenTrees(sl: Slots): seq<Mutation> { sl.tree1 + sl.listener2 + sl.probe + sl.digest2 }

  lemma {:induction false} TreesReached(b: Backend, before: World, w: Worlds)
    requires Passed(b, before, w)
    ensures var sl, sp := SlotsOf(b), SpawnedWorld(before, b.autoBind);
      && TreeIs(sp, sl.spawn, w.atTree1) && Reached(w.atTree1, BetweenTrees(sl), w.atTree2)
      && TreeIs(w.atTree1, BetweenTrees(sl), w.atTree2)
  {
    var sl, sp := SlotsOf(b), SpawnedWorld(before, b.autoBind);
    ReachedTree(sp, sl.spawn, w.atTree1);
    ReachedOn(w.atTree1, sl.tree1, w.atListener2, sl.listener2, w.atProbe);
    ReachedOn(w.atTree1, sl.tree1 + sl.listener2, w.atProbe, sl.probe, w.atBinding2);
    ReachedOn(w.atTree1, sl.tree1 + sl.listener2 + sl.probe, w.atBinding2, sl.digest2, w.atTree2);
    ReachedTree(w.atTree1, BetweenTrees(sl), w.atTree2);
  }

  lemma {:induction false} ForeignIffAny(w: World, p: Identity)
    ensures HasForeignDescendant(SeenTree(w, p), []) <==> w.descendants != []
  {
    if w.descendants != [] { assert w.descendants[0].executable !in []; }
  }

  lemma {:induction false} TreeCodes(b: Backend, before: World, w: Worlds, binding: Digest)
    requires Passed(b, before, w)
    ensures var codes, sl := TreeReasons(Seen(binding, Spawned(before), w)), SlotsOf(b);
      && (ProcessIdentityChanged in codes <==> RestartRoot in sl.spawn || RestartRoot in BetweenTrees(sl))
      && (ProcessTreeChanged in codes <==> TouchesTree(BetweenTrees(sl)))
      && (UnexpectedDescendant in codes <==> LeavesDescendant(sl.spawn) || LeavesDescendant(BetweenTrees(sl)))
      && codes <= {ProcessIdentityChanged, ProcessTreeChanged, UnexpectedDescendant}
  {
    RootsSeen(b, before, w);
    TreesDiffer(b, before, w);
    DescendantsLeft(b, before, w);
  }

  lemma {:induction false} TreesDiffer(b: Backend, before: World, w: Worlds)
    requires Passed(b, before, w)
    ensures var p := Spawned(before);
      SeenTree(w.atTree1, p).Identities() != SeenTree(w.atTree2, p).Identities()
      <==> TouchesTree(BetweenTrees(SlotsOf(b)))
  {
    TreesReached(b, before, w);
    RootsSeen(b, before, w);
    IdentitiesDiffer(SeenTree(w.atTree1, Spawned(before)), SeenTree(w.atTree2, Spawned(before)));
  }

  lemma {:induction false} DescendantsLeft(b: Backend, before: World, w: Worlds)
    requires Passed(b, before, w)
    ensures var p, sl := Spawned(before), SlotsOf(b);
      HasForeignDescendant(SeenTree(w.atTree1, p), []) || HasForeignDescendant(SeenTree(w.atTree2, p), [])
      <==> LeavesDescendant(sl.spawn) || LeavesDescendant(BetweenTrees(sl))
  {
    TreesReached(b, before, w);
    ForeignIffAny(w.atTree1, Spawned(before));
    ForeignIffAny(w.atTree2, Spawned(before));
  }

  /** Both snapshots show a root under the spawned process id. */
  lemma {:induction false} RootsSeen(b: Backend, before: World, w: Worlds)
    requires Passed(b, before, w)
    ensures var p, sl := Spawned(before), SlotsOf(b);
      var r1, r2 := SeenTree(w.atTree1, p).root, SeenTree(w.atTree2, p).root;
      && r1 == w.atTree1.observedRoot && r2 == w.atTree2.observedRoot && r1.Some? && r2.Some?
      && (r1 == Some(p) <==> RestartRoot !in sl.spawn) && (r1 == r2 <==> RestartRoot !in BetweenTrees(sl))
      && (r2 == Some(p) <==> RestartRoot !in sl.spawn && RestartRoot !in BetweenTrees(sl))
      && r1.value.executable == RUNTIME && r2.value.executable == RUNTIME
      && r1.value.startToken.Birth? && r2.value.startToken.Birth?
  {
    TreesReached(b, before, w);
  }

  lemma {:induction false} IdentitiesDiffer(t: TreeObservation, u: TreeObservation)
    requires t.root.Some? && u.root.Some?
    ensures t.Identities() == u.Identities() <==> t.root == u.root && t.descendants == u.descendants
  {
    if t.Identities() == u.Identities() {
      assert t.Identities()[0] == u.Identities()[0];
      assert t.Identities()[1..] == t.descendants && u.Identities()[1..] == u.descendants;
    }
  }

  // ----- listener and probe codes

  function UpToListener(sl: Slots): seq<Mutation> { sl.spawn + sl.tree1 }

  /** The mutations between the two listener snapshots. */
  function BetweenListeners(sl: Slots): seq<Mutation> { sl.listener2 + sl.probe + sl.digest2 + sl.tree2 }

  lemma {:induction false} ReachedListener(w: World, ms: seq<Mutation>, v: World)
    requires Reached(w, ms, v)
    ensures ListenerIs(w, LastMove(ms), v)
  {
    ListenerAfter(w, ms);
  }

  lemma {:induction false} ListenersReached(b: Backend, before: World, w: Worlds)
    requires Passed(b, before, w)
    ensures var sl, sp := SlotsOf(b), SpawnedWorld(before, b.autoBind);
      && ListenerIs(sp, LastMove(UpToListener(sl)), w.atListener2)
      && ListenerIs(w.atListener2, LastMove(sl.listener2), w.atProbe)
      && ListenerIs(w.atListener2, LastMove(BetweenListeners(sl)), w.atListener3)
      && Reached(sp, UpToListener(sl) + BetweenListeners(sl), w.atListener3)
      && ListenerIs(sp, LastMove(UpToListener(sl) + BetweenListeners(sl)), w.atListener3)
  {
    var sl, sp := SlotsOf(b), SpawnedWorld(before, b.autoBind);
    ReachedOn(sp, sl.spawn, w.atTree1, sl.tree1, w.atListener2);
    ReachedListener(sp, UpToListener(sl), w.atListener2);
    ReachedListener(w.atListener2, sl.listener2, w.atProbe);
    ReachedOn(w.atListener2, sl.listener2, w.atProbe, sl.probe, w.atBinding2);
    ReachedOn(w.atListener2, sl.listener2 + sl.probe, w.atBinding2, sl.digest2, w.atTree2);
    ReachedOn(w.atListener2, sl.listener2 + sl.probe + sl.digest2, w.atTree2, sl.tree2, w.atListener3);
    ReachedListener(w.atListener2, BetweenListeners(sl), w.atListener3);
    ReachedOn(sp, UpToListener(sl), w.atListener2, BetweenListeners(sl), w.atListener3);
    ReachedListener(sp, UpToListener(sl) + BetweenListeners(sl), w.atListener3);
  }

  /** Nothing listens before the spawn unless it came after the occupancy check. */
  lemma {:induction false} BeforeSpawn(b: Backend, before: World, w: Worlds)
    requires Passed(b, before, w) && Known(b.world)
    ensures var sl := SlotsOf(b);
      && (before.listener.owner.None? <==> LastMove(sl.listener1).None?)
      && (LastMove(sl.listener1).None? ==> before.listener.token.None? && before.probe == b.world.probe)
      && before.listener.endpoint == ENDPOINT
  {
    var sl := SlotsOf(b);
    var pre := sl.resolve + sl.digest1;
    ListenerAfter(b.world, pre);
    ThenAppend(b.world, pre, sl.listener1);
    ListenerAfter(Then(b.world, pre), sl.listener1);
  }

  /** Nobody listens by the time of these mutations: no listener came with the spawn or was moved. */
  predicate NobodyListens(b: Backend, ms: seq<Mutation>) {
    !b.autoBind && !TouchesListener(SlotsOf(b).listener1) && !TouchesListener(ms)
  }

  lemma {:induction false} UnboundIff(b: Backend, before: World, w: Worlds)
    requires Passed(b, before, w) && Known(b.world)
    ensures var sl := SlotsOf(b);
      && (!w.atListener2.listener.Bound() <==> NobodyListens(b, UpToListener(sl)))
      && (!w.atListener3.listener.Bound() ==> !w.atListener2.listener.Bound())
      && w.atListener2.listener.endpoint == ENDPOINT && w.atListener3.listener.endpoint == ENDPOINT
      && (w.atListener2.listener.owner.None? <==> !w.atListener2.listener.Bound())
  {
    var sl := SlotsOf(b);
    ListenersReached(b, before, w);
    BeforeSpawn(b, before, w);
    LastMoveOfAll(UpToListener(sl));
    LastMoveOfAll(BetweenListeners(sl));
    LastMoveOfAll(sl.listener1);
  }

  /** By the last move the listener belongs to the root of the first tree snapshot. */
  predicate Owned(last: Option<Mutation>, autoBind: bool, restarted: bool) {
    match last
    case None => autoBind
    case Some(m) => m == RestartRoot || (m == BindManagedListener && !restarted)
  }

  /** The listener belongs, at both snapshots, to one root that both tree snapshots show. */
  predicate OwnerStays(b: Backend) {
    var sl := SlotsOf(b);
    var first, last := LastMove(UpToListener(sl)), LastMove(UpToListener(sl) + BetweenListeners(sl));
    && RestartRoot !in BetweenTrees(sl)
    && Owned(first, b.autoBind, RestartRoot in sl.spawn) && Owned(last, b.autoBind, RestartRoot in sl.spawn)
    && !(last == Some(RestartRoot) && RestartRoot in sl.tree2)
  }

  /** An owner that is no descendant is in both snapshots exactly as their common root. */
  lemma {:induction false} StableOwner(owner: Option<Identity>, t: TreeObservation, u: TreeObservation)
    requires t.root.Some? && u.root.Some?
    requires owner.Some? ==> owner.value !in t.descendants
    requires t.root.value !in u.descendants
    ensures InStableTree(owner, t, u) <==> owner == t.root == u.root
  {
    assert forall x :: x in t.Identities() <==> x == t.root.value || x in t.descendants;
    assert forall x :: x in u.Identities() <==> x == u.root.value || x in u.descendants;
  }

  lemma {:induction false} NoDescendant(w: World, birth: nat, p: Identity)
    requires DescendantsKnown(w, birth)
    requires p.startToken.ForeignBirth? || p.executable == RUNTIME || p.startToken.n <= birth
    ensures p !in w.descendants
  {
  }

  lemma {:induction false} DescendantsSeen(b: Backend, before: World, w: Worlds)
    requires Passed(b, before, w)
    ensures DescendantsKnown(w.atTree1, before.birth) && DescendantsKnown(w.atTree2, before.birth)
  {
    var sl, sp := SlotsOf(b), SpawnedWorld(before, b.autoBind);
    DescendantsAfter(sp, sl.spawn, before.birth);
    TreesReached(b, before, w);
    DescendantsAfter(w.atTree1, BetweenTrees(sl), before.birth);
  }

  /** What kind of process an owner can be after the spawn. */
  ghost predicate OwnerKnown(owner: Option<Identity>, birth: nat) {
    owner.Some? ==>
      owner.value.startToken.ForeignBirth? || owner.value.executable == RUNTIME || owner.value.startToken.n <= birth
  }

  lemma {:induction false} OwnerAfterSpawn(
      before: World, autoBind: bool, ms: seq<Mutation>, v: World)
    requires Known(before) && Reached(SpawnedWorld(before, autoBind), ms, v)
    ensures OwnerKnown(v.listener.owner, before.birth)
    ensures LastMove(ms).None? && !autoBind ==> v.listener.owner != Some(Spawned(before))
    ensures LastMove(ms).None? && autoBind ==> v.listener.owner == Some(Spawned(before))
    ensures LastMove(ms).Some? ==> !(LastMove(ms).value.OccupyPort? || LastMove(ms).value.SubstituteListener?) ==>
      v.listener.owner == if LastMove(ms) == Some(RestartRoot) then v.observedRoot else Some(Spawned(before))
  {
    var sp := SpawnedWorld(before, autoBind);
    ReachedListener(sp, ms, v);
    ReachedTree(sp, ms, v);
    LastMoveOfAll(ms);
    if LastMove(ms) == Some(RestartRoot) { LastMoveIn(ms); }
  }

  lemma {:induction false} LastMoveIn(ms: seq<Mutation>)
    requires LastMove(ms).Some?
    ensures LastMove(ms).value in ms
  {
    if !MovesListener(ms[|ms| - 1]) { LastMoveIn(ms[..|ms| - 1]); }
  }

  lemma {:induction false} NoRestartThere(a: seq<Mutation>, b: seq<Mutation>)
    ensures RestartRoot in a + b <==> RestartRoot in a || RestartRoot in b
  {
  }

  lemma {:induction false} NoMoveNoRestart(ms: seq<Mutation>)
    requires LastMove(ms).None?
    ensures RestartRoot !in ms
  {
    LastMoveOfAll(ms);
  }

  /** The root seen first was born no later than the second tree snapshot was taken. */
  lemma {:induction false} RootBorn(b: Backend, before: World, w: Worlds)
    requires Passed(b, before, w)
    ensures var r1 := w.atTree1.observedRoot;
      r1.Some? && r1.value.startToken.Birth? && r1.value.startToken.n <= w.atTree2.birth
  {
    TreesReached(b, before, w);
  }

  lemma {:induction false} FirstOwner(b: Backend, before: World, w: Worlds)
    requires Passed(b, before, w) && RestartRoot !in BetweenTrees(SlotsOf(b))
    ensures w.atListener2.listener.owner == w.atTree1.observedRoot <==>
      Owned(LastMove(UpToListener(SlotsOf(b))), b.autoBind, RestartRoot in SlotsOf(b).spawn)
    ensures OwnerKnown(w.atListener2.listener.owner, before.birth)
  {
    var sl, sp := SlotsOf(b), SpawnedWorld(before, b.autoBind);
    var first := UpToListener(sl);
    ReachedOn(sp, sl.spawn, w.atTree1, sl.tree1, w.atListener2);
    OwnerAfterSpawn(before, b.autoBind, first, w.atListener2);
    ReachedListener(sp, first, w.atListener2);
    RootsSeen(b, before, w);
    TreesReached(b, before, w);
    ReachedTree(w.atTree1, sl.tree1, w.atListener2);
    NoRestartThere(sl.tree1 + sl.listener2 + sl.probe, sl.digest2);
    NoRestartThere(sl.tree1 + sl.listener2, sl.probe);
    NoRestartThere(sl.tree1, sl.listener2);
    LastMoveOfAll(first);
    if LastMove(first).None? {
      NoMoveNoRestart(first);
      NoRestartThere(sl.spawn, sl.tree1);
    }
  }

  lemma {:induction false} LastOwner(b: Backend, before: World, w: Worlds)
    requires Passed(b, before, w) && RestartRoot !in BetweenTrees(SlotsOf(b))
    ensures var sl := SlotsOf(b);
      var last := LastMove(UpToListener(sl) + BetweenListeners(sl));
      w.atListener3.listener.owner == w.atTree1.observedRoot <==>
        Owned(last, b.autoBind, RestartRoot in sl.spawn) && !(last == Some(RestartRoot) && RestartRoot in sl.tree2)
    ensures OwnerKnown(w.atListener3.listener.owner, before.birth)
  {
    var sl, sp := SlotsOf(b), SpawnedWorld(before, b.autoBind);
    var all := UpToListener(sl) + BetweenListeners(sl);
    ListenersReached(b, before, w);
    OwnerAfterSpawn(before, b.autoBind, all, w.atListener3);
    RootsSeen(b, before, w);
    RootBorn(b, before, w);
    TreesReached(b, before, w);
    ReachedTree(w.atTree2, sl.tree2, w.atListener3);
    LastMoveOfAll(all);
    if LastMove(all).None? {
      NoMoveNoRestart(all);
      NoRestartThere(UpToListener(sl), BetweenListeners(sl));
      NoRestartThere(sl.spawn, sl.tree1);
    }
  }

  lemma {:induction false} OwnerCode(b: Backend, before: World, w: Worlds)
    requires Passed(b, before, w)
    ensures var t, u := SeenTree(w.atTree1, Spawned(before)), SeenTree(w.atTree2, Spawned(before));
      InStableTree(w.atListener2.listener.owner, t, u) && InStableTree(w.atListener3.listener.owner, t, u)
      <==> OwnerStays(b)
  {
    var sl, sp, p := SlotsOf(b), SpawnedWorld(before, b.autoBind), Spawned(before);
    var t, u := SeenTree(w.atTree1, p), SeenTree(w.atTree2, p);
    RootsSeen(b, before, w);
    DescendantsSeen(b, before, w);
    OwnersKnown(b, before, w);
    NoDescendant(w.atTree2, before.birth, t.root.value);
    if w.atListener2.listener.owner.Some? {
      NoDescendant(w.atTree1, before.birth, w.atListener2.listener.owner.value);
    }
    if w.atListener3.listener.owner.Some? {
      NoDescendant(w.atTree1, before.birth, w.atListener3.listener.owner.value);
    }
    StableOwner(w.atListener2.listener.owner, t, u);
    StableOwner(w.atListener3.listener.owner, t, u);
    if RestartRoot !in BetweenTrees(sl) {
      FirstOwner(b, before, w);
      LastOwner(b, before, w);
    }
  }

  lemma {:induction false} OwnersKnown(b: Backend, before: World, w: Worlds)
    requires Passed(b, before, w)
    ensures OwnerKnown(w.atListener2.listener.owner, before.birth)
    ensures OwnerKnown(w.atListener3.listener.owner, before.birth)
  {
    var sl, sp := SlotsOf(b), SpawnedWorld(before, b.autoBind);
    ReachedOn(sp, sl.spawn, w.atTree1, sl.tree1, w.atListener2);
    OwnerAfterSpawn(before, b.autoBind, UpToListener(sl), w.atListener2);
    ListenersReached(b, before, w);
    OwnerAfterSpawn(before, b.autoBind, UpToListener(sl) + BetweenListeners(sl), w.atListener3);
  }

  /** Each listener code stands for its own event; the endpoint never changes. */
  lemma {:induction false} ListenerCodes(b: Backend, before: World, w: Worlds, binding: Digest)
    requires Passed(b, before, w) && Known(b.world)
    ensures var codes, sl := ListenerReasons(Seen(binding, Spawned(before), w)), SlotsOf(b);
      && (ListenerMissing in codes <==> NobodyListens(b, UpToListener(sl)))
      && (ListenerOwnerMismatch in codes <==> !OwnerStays(b))
      && (ListenerSubstituted in codes <==> TouchesListener(BetweenListeners(sl)))
      && codes <= {ListenerMissing, ListenerOwnerMismatch, ListenerSubstituted}
  {
    var sl := SlotsOf(b);
    UnboundIff(b, before, w);
    OwnerCode(b, before, w);
    SubstitutedIff(b, before, w);
  }

  lemma {:induction false} SubstitutedIff(b: Backend, before: World, w: Worlds)
    requires Passed(b, before, w) && Known(b.world)
    ensures w.atListener2.listener.owner != w.atListener3.listener.owner
         || w.atListener2.listener.token != w.atListener3.listener.token
         <==> TouchesListener(BetweenListeners(SlotsOf(b)))
  {
    var sl := SlotsOf(b);
    ListenersReached(b, before, w);
    BeforeSpawn(b, before, w);
    LastMoveOfAll(BetweenListeners(sl));
    TokenAtMost(b, before, w);
  }

  lemma {:induction false} TokenAtMost(b: Backend, before: World, w: Worlds)
    requires Passed(b, before, w)
    ensures w.atListener2.listener.token.Some? ==> w.atListener2.listener.token.value <= w.atListener2.listenerSeq
  {
    ListenersReached(b, before, w);
  }

  /** Each probe code stands for its own event: only a probe that finds nobody listening can fail. */
  lemma {:induction false} ProbeCodes(b: Backend, before: World, w: Worlds, binding: Digest)
    requires Passed(b, before, w) && Known(b.world)
    ensures var codes, sl := ProbeReasons(Seen(binding, Spawned(before), w)), SlotsOf(b);
      var nobody := NobodyListens(b, UpToListener(sl)) && !TouchesListener(sl.listener2);
      && (ProbeUnhealthy in codes <==> nobody && !b.world.probe.healthy)
      && (ModelIdentityMismatch in codes <==> nobody && b.world.probe.modelId != Some(MODEL))
      && (ProbeListenerMismatch in codes <==> TouchesListener(sl.listener2))
      && codes <= {ProbeUnhealthy, ModelIdentityMismatch, ProbeListenerMismatch}
  {
    var sl := SlotsOf(b);
    ListenersReached(b, before, w);
    BeforeSpawn(b, before, w);
    TokenAtMost(b, before, w);
    LastMoveOfAll(sl.listener2);
    LastMoveOfAll(UpToListener(sl));
    LastMoveOfAll(sl.listener1);
    ProbeAtListener(b, before, w);
  }

  lemma {:induction false} ProbeAtListener(b: Backend, before: World, w: Worlds)
    requires Passed(b, before, w) && Known(b.world)
    ensures var v := w.atListener2;
      && v.probe.token == v.listener.token
      && (NobodyListens(b, UpToListener(SlotsOf(b))) ==> v.probe == b.world.probe)
      && (!NobodyListens(b, UpToListener(SlotsOf(b))) ==> v.probe.healthy && v.probe.modelId == Some(MODEL))
  {
    var sl := SlotsOf(b);
    ListenersReached(b, before, w);
    BeforeSpawn(b, before, w);
    LastMoveOfAll(UpToListener(sl));
    LastMoveOfAll(sl.listener1);
  }

  // ----- what the outcome of a start says

  /** A call before the occupancy check fails, by injection or because its slot raises. */
  predicate FailsEarly(b: Backend) {
    var sl := SlotsOf(b);
    || Count(b.failures, Resolve) > 0 || !Runs(b.world, sl.resolve)
    || Count(b.failures, BindingDigest) > 0 || !Runs(b.world, sl.digest1)
    || Count(b.failures, ObserveListener) > 0 || !Runs(b.world, sl.listener1)
  }

  /** The port is bound when the start looks. */
  predicate BoundAtCheck(b: Backend) {
    b.world.listener.Bound() || TouchesListener(SlotsOf(b).resolve) || TouchesListener(SlotsOf(b).digest1)
  }

  lemma {:induction false} CheckEnds(b: Backend, b1: Backend)
    requires Known(b.world) && At(b1, b, Taken(1, 0, 0, 0, 0, 0)) && Effect(b.world, Next(b, Resolve, 1), b1.world)
    ensures var sl := SlotsOf(b);
      var (b2, r2) := CallBindingDigest(b1, RESOLVED);
      var (b3, r3) := CallObserveListener(b2, RESOLVED);
      && (r2.Returned? <==> Count(b.failures, BindingDigest) == 0 && Runs(b.world, sl.digest1))
      && (r2.Returned? ==>
            && (r3.Returned? <==> Count(b.failures, ObserveListener) == 0 && Runs(b.world, sl.listener1))
            && (r3.Returned? ==> (r3.value.Bound() <==> BoundAtCheck(b))))
  {
    var sl := SlotsOf(b);
    DigestCall(b1, b, Taken(1, 0, 0, 0, 0, 0));
    var (b2, r2) := CallBindingDigest(b1, RESOLVED);
    if r2.Returned? {
      FreeIffUntouched(b.world, sl.resolve, b1.world, sl.digest1, b2.world);
      ListenerCall(b2, b, Taken(1, 1, 0, 0, 0, 0));
    }
  }

  lemma {:induction false} ResolveEnds(b: Backend)
    requires Known(b.world)
    ensures var (b1, r) := CallResolve(b);
      && (r.Returned? <==> Count(b.failures, Resolve) == 0 && Runs(b.world, Next(b, Resolve, 1)))
      && (r.Returned? ==>
            r.value == RESOLVED && At(b1, b, Taken(1, 0, 0, 0, 0, 0)) && Effect(b.world, Next(b, Resolve, 1), b1.world))
  {
    assert At(b, b, Taken(0, 0, 0, 0, 0, 0));
    ResolveCall(b, b, Taken(0, 0, 0, 0, 0, 0));
  }

  /** How the preparation ends. */
  lemma {:induction false} PrepareEnds(b: Backend)
    requires Known(b.world)
    ensures Prepare(b).1 == EndsHere(Failed(None)) <==> FailsEarly(b)
    ensures Prepare(b).1 == EndsHere(PortTaken) <==> !FailsEarly(b) && BoundAtCheck(b)
  {
    ResolveEnds(b);
    if CallResolve(b).1.Returned? { CheckEnds(b, CallResolve(b).0); }
  }

  /** How the snapshot phase ends. */
  lemma {:induction false} GatherEnds(b: Backend)
    requires Known(b.world)
    ensures Gather(b).1 == PortTaken <==> !FailsEarly(b) && BoundAtCheck(b)
    ensures Gather(b).1.Gathered? <==>
      !FailsEarly(b) && !BoundAtCheck(b) && Count(b.failures, Spawn) == 0 && SnapshotsSucceed(b)
  {
    PrepareEnds(b);
    GatherFacts(b);
    FailureFree(b);
    EarlyMeans(b);
  }

  lemma {:induction false} EarlyMeans(b: Backend)
    ensures !FailsEarly(b) && !BoundAtCheck(b) <==>
      Count(b.failures, Resolve) == 0 && Count(b.failures, BindingDigest) == 0
      && Count(b.failures, ObserveListener) == 0 && LaunchUndisturbed(b)
  {
    var sl := SlotsOf(b);
    if NeedsProcess(sl.resolve) { NeedsMeansTouches(sl.resolve); }
    if NeedsProcess(sl.digest1) { NeedsMeansTouches(sl.digest1); }
  }

  /** Codes that come from comparing snapshots. */
  predicate Observed(r: Reason) {
    !r.PortOccupied? && !r.BackendFailure? && !r.CleanupUnverified? && !r.StickyAmbiguity? && !r.BackendReason?
  }

  /** The reasons of one start, given how its snapshots ended and what cleanup answered. */
  lemma {:induction false} StepReasons(o: Oracle, g: Gathering, answer: Attempt<CleanupObservation>)
    requires !o.sticky && (answer.Returned? ==> answer.value.reasons <= {CleanupUnverified})
    ensures var (_, outcome) := StartStep(o, g, answer);
      && (PortOccupied in outcome.reasons <==> g.PortTaken?) && (BackendFailure in outcome.reasons <==> g.Failed?)
      && (CleanupUnverified in outcome.reasons <==> outcome.status == UnknownBlocking)
      && StickyAmbiguity !in outcome.reasons
      && (forall r | Observed(r) :: r in outcome.reasons <==> g.Gathered? && r in Reasons(g.obs))
  {
    if g.Gathered? { ReasonsAreObserved(g.obs); }
  }

  lemma {:induction false} StartIsStep(o: Oracle, b: Backend) returns (answer: Attempt<CleanupObservation>)
    requires !o.sticky
    ensures Start(o, b).2 == StartStep(o, Gather(b).1, answer).1
    ensures answer.Returned? ==> answer.value.reasons <= {CleanupUnverified}
  {
    var (b1, g) := Gather(b);
    answer := Raised;
    if MustTerminate(g).Some? {
      TerminateReasons(b1, MustTerminate(g).value);
      answer := CallTerminate(b1, MustTerminate(g).value).1;
    }
  }

  /** The reasons of a start against the world: those of its snapshots, or one for why there are none,
      and an unverified cleanup exactly when the start ends blocked. */
  lemma {:induction false} StartReasons(o: Oracle, b: Backend)
    requires !o.sticky && Known(b.world)
    ensures var outcome := Start(o, b).2;
      && (PortOccupied in outcome.reasons <==> !FailsEarly(b) && BoundAtCheck(b))
      && (BackendFailure in outcome.reasons <==>
            FailsEarly(b) || (!BoundAtCheck(b) && (Count(b.failures, Spawn) > 0 || !SnapshotsSucceed(b))))
      && (CleanupUnverified in outcome.reasons <==> outcome.status == UnknownBlocking)
      && StickyAmbiguity !in outcome.reasons
      && (forall r | Observed(r) ::
            r in outcome.reasons <==> Gather(b).1.Gathered? && r in Reasons(Gather(b).1.obs))
  {
    GatherEnds(b);
    var answer := StartIsStep(o, b);
    StepReasons(o, Gather(b).1, answer);
  }

  lemma {:induction false} ReasonsAreObserved(o: Observations)
    ensures forall r | r in Reasons(o) :: Observed(r)
  {
    GroupsAreObserved(o);
    assert forall r | r in Reasons(o) ::
      r in BindingReasons(o) || r in TreeReasons(o) || r in ListenerReasons(o) || r in ProbeReasons(o);
  }

  lemma {:induction false} GroupsAreObserved(o: Observations)
    ensures forall r | r in BindingReasons(o) :: Observed(r)
    ensures forall r | r in TreeReasons(o) :: Observed(r)
    ensures forall r | r in ListenerReasons(o) :: Observed(r)
    ensures forall r | r in ProbeReasons(o) :: Observed(r)
  {
  }

  lemma {:induction false} TerminateReasons(b: Backend, p: Identity)
    ensures var cleanup := CleanupOf(p, CallTerminate(b, p).1);
      cleanup.reasons <= {CleanupUnverified} && (cleanup.complete ==> cleanup.reasons == {})
  {
  }

  /** What each code of a start that took all its snapshots stands for, on the world it found and the
      mutations scheduled for its calls. */
  lemma {:induction false} CodesMean(b: Backend)
    requires Known(b.world) && Gather(b).1.Gathered?
    ensures var codes, sl := Reasons(Gather(b).1.obs), SlotsOf(b);
      var nobody := NobodyListens(b, UpToListener(sl));
      && (BindingMismatch in codes <==> b.world.binding != BINDING || DriftBinding in sl.resolve)
      && (BindingDrift in codes <==> !DriftedBefore(b) && DriftsMeanwhile(sl))
      && (ProcessIdentityChanged in codes <==> RestartRoot in sl.spawn || RestartRoot in BetweenTrees(sl))
      && (ProcessTreeChanged in codes <==> TouchesTree(BetweenTrees(sl)))
      && (UnexpectedDescendant in codes <==> LeavesDescendant(sl.spawn) || LeavesDescendant(BetweenTrees(sl)))
      && (ListenerMissing in codes <==> nobody)
      && ListenerEndpointChanged !in codes
      && (ListenerOwnerMismatch in codes <==> !OwnerStays(b))
      && (ListenerSubstituted in codes <==> TouchesListener(BetweenListeners(sl)))
      && (ProbeUnhealthy in codes <==> nobody && !TouchesListener(sl.listener2) && !b.world.probe.healthy)
      && (ModelIdentityMismatch in codes <==>
            nobody && !TouchesListener(sl.listener2) && b.world.probe.modelId != Some(MODEL))
      && (ProbeListenerMismatch in codes <==> TouchesListener(sl.listener2))
  {
    var before, w := GatherReached(b);
    var binding := Then(b.world, SlotsOf(b).resolve).binding;
    var obs := Seen(binding, Spawned(before), w);
    BindingCodes(b, before, w, Spawned(before));
    TreeCodes(b, before, w, binding);
    ListenerCodes(b, before, w, binding);
    ProbeCodes(b, before, w, binding);
    InGroups(BindingReasons(obs), TreeReasons(obs), ListenerReasons(obs), ProbeReasons(obs));
  }

  /** The groups of codes do not overlap. */
  lemma {:induction false} InGroups(a: set<Reason>, b: set<Reason>, c: set<Reason>, d: set<Reason>)
    requires a <= {BindingMismatch, BindingDrift}
    requires b <= {ProcessIdentityChanged, ProcessTreeChanged, UnexpectedDescendant}
    requires c <= {ListenerMissing, ListenerOwnerMismatch, ListenerSubstituted}
    requires d <= {ProbeUnhealthy, ModelIdentityMismatch, ProbeListenerMismatch}
    ensures var all := a + b + c + d;
      && (BindingMismatch in all <==> BindingMismatch in a) && (BindingDrift in all <==> BindingDrift in a)
      && (ProcessIdentityChanged in all <==> ProcessIdentityChanged in b)
      && (ProcessTreeChanged in all <==> ProcessTreeChanged in b)
      && (UnexpectedDescendant in all <==> UnexpectedDescendant in b)
      && (ListenerMissing in all <==> ListenerMissing in c) && ListenerEndpointChanged !in all
      && (ListenerOwnerMismatch in all <==> ListenerOwnerMismatch in c)
      && (ListenerSubstituted in all <==> ListenerSubstituted in c)
      && (ProbeUnhealthy in all <==> ProbeUnhealthy in d)
      && (ModelIdentityMismatch in all <==> ModelIdentityMismatch in d)
      && (ProbeListenerMismatch in all <==> ProbeListenerMismatch in d)
  {
  }

  /** A cleanup of a process the world once managed is complete exactly when no failure is injected for
      it and the world does not hide it. */
  lemma {:induction false} CleanupCompleteIff(b: Backend, p: Identity)
    requires b.world.managedRoot.Some?
    ensures CleanupOf(p, CallTerminate(b, p).1).complete <==>
      Count(b.failures, Terminate) == 0 && !b.world.cleanupAmbiguous
  {
    var b1 := Begin(b, Terminate).0;
    NeverRaises(b1.world, Slot(b1, Terminate, Count(b1.counts, Terminate)));
    NeverRaises(TerminatedWorld(b1.world, p), Slot(b1, Terminate, Count(b1.counts, Terminate)));
  }

  lemma {:induction false} NeverRaises(w: World, ms: seq<Mutation>)
    requires w.managedRoot.Some?
    ensures !MutateAll(w, ms).1
    decreases |ms|
  {
    if ms != [] { NeverRaises(Mutate(w, ms[0]).value, ms[1..]); }
  }
}
