/**
 The fail-closed supervisor: `start` gathers interleaved snapshots, `stop` cleans up, and any
 cleanup it cannot verify becomes a sticky ambiguity.
 The `...Step` functions describe one call against an arbitrary backend, whose answers are
 parameters; the class runs the same protocol against the deterministic world.
 */
module SupervisorOracle {
  import opened Basics
  import opened SupervisorWorld

  datatype Phase = Prepared | Starting | Ready | Revoked | Stopping | Stopped | UnknownBlocking

  datatype Outcome = Outcome(
    status: Phase, ready: bool, reasons: set<Reason>, process: Option<Identity>,
    processStarted: bool, cleanupComplete: Option<bool>, sticky: bool)

  datatype Oracle = Oracle(process: Option<Identity>, sticky: bool, state: Phase)

  const FRESH_ORACLE: Oracle := Oracle(None, false, Prepared)

  /** What a start that reached the end of its snapshots has seen. */
  datatype Observations = Observations(
    resolved: Resolved, bindingBefore: Digest, process: Identity,
    treeBefore: TreeObservation, listenerStarted: ListenerObservation, probe: ProbeObservation,
    bindingDuring: Digest, treeAfter: TreeObservation, listenerAfter: ListenerObservation,
    bindingAfter: Digest)

  /** How the snapshot phase of a start can end. */
  datatype Gathering =
    | Gathered(obs: Observations)
    | PortTaken
    | Failed(spawned: Option<Identity>)

  function When(condition: bool, reason: Reason): set<Reason> { if condition then {reason} else {} }

  predicate HasForeignDescendant(tree: TreeObservation, allowed: seq<Digest>) {
    exists i | 0 <= i < |tree.descendants| :: tree.descendants[i].executable !in allowed
  }

  /** The owner is one of the processes seen in both tree snapshots. */
  predicate InStableTree(owner: Option<Identity>, before: TreeObservation, after: TreeObservation) {
    owner.Some? && owner.value in before.Identities() && owner.value in after.Identities()
  }

  function BindingReasons(o: Observations): set<Reason> {
    When(o.bindingBefore != o.resolved.binding, BindingMismatch)
    + When(!(o.bindingBefore == o.bindingDuring == o.bindingAfter), BindingDrift)
  }

  function TreeReasons(o: Observations): set<Reason> {
    When(o.treeBefore.root != Some(o.process) || o.treeAfter.root != Some(o.process), ProcessIdentityChanged)
    + When(o.treeBefore.Identities() != o.treeAfter.Identities(), ProcessTreeChanged)
    + When(HasForeignDescendant(o.treeBefore, o.resolved.allowedDescendants)
           || HasForeignDescendant(o.treeAfter, o.resolved.allowedDescendants), UnexpectedDescendant)
  }

  function ListenerReasons(o: Observations): set<Reason> {
    When(!o.listenerStarted.Bound() || !o.listenerAfter.Bound(), ListenerMissing)
    + When(o.listenerStarted.endpoint != o.resolved.endpoint || o.listenerAfter.endpoint != o.resolved.endpoint,
           ListenerEndpointChanged)
    + When(!InStableTree(o.listenerStarted.owner, o.treeBefore, o.treeAfter)
           || !InStableTree(o.listenerAfter.owner, o.treeBefore, o.treeAfter), ListenerOwnerMismatch)
    + When(o.listenerStarted.owner != o.listenerAfter.owner || o.listenerStarted.token != o.listenerAfter.token,
           ListenerSubstituted)
  }

  function ProbeReasons(o: Observations): set<Reason> {
    When(!o.probe.healthy, ProbeUnhealthy)
    + When(o.probe.modelId != Some(o.resolved.expectedModel), ModelIdentityMismatch)
    + When(o.probe.token != o.listenerStarted.token, ProbeListenerMismatch)
  }

  function Reasons(o: Observations): set<Reason> {
    BindingReasons(o) + TreeReasons(o) + ListenerReasons(o) + ProbeReasons(o)
  }

  function Sticky(o: Oracle): Outcome {
    Outcome(UnknownBlocking, false, {StickyAmbiguity}, o.process, o.process.Some?, Some(false), true)
  }

  function Unverified(process: Identity): CleanupObservation {
    CleanupObservation(false, [process], {CleanupUnverified})
  }

  function CleanupOf(process: Identity, answer: Attempt<CleanupObservation>): CleanupObservation {
    if answer.Raised? then Unverified(process) else answer.value
  }

  /** Fail after a process was spawned: terminate it, or block for good. */
  function FailStep(o: Oracle, process: Identity, reasons: set<Reason>, answer: Attempt<CleanupObservation>)
    : (Oracle, Outcome)
  {
    var cleanup := CleanupOf(process, answer);
    if !cleanup.complete then
      (o.(sticky := true, state := UnknownBlocking),
       Outcome(UnknownBlocking, false, reasons + cleanup.reasons + {CleanupUnverified},
               o.process, o.process.Some?, Some(false), true))
    else
      (o.(process := None, state := Revoked),
       Outcome(Revoked, false, reasons, Some(process), true, Some(true), o.sticky))
  }

  /** One `start` call, given everything the backend answered. */
  function StartStep(o: Oracle, g: Gathering, answer: Attempt<CleanupObservation>): (Oracle, Outcome) {
    if o.sticky then (o, Sticky(o))
    else
      match g
      case PortTaken =>
        (o.(state := Revoked), Outcome(Revoked, false, {PortOccupied}, o.process, o.process.Some?, None, false))
      case Failed(None) =>
        (o.(state := Revoked), Outcome(Revoked, false, {BackendFailure}, o.process, o.process.Some?, None, false))
      case Failed(Some(p)) =>
        FailStep(o.(process := Some(p), state := Starting), p, {BackendFailure}, answer)
      case Gathered(obs) =>
        var o1 := o.(process := Some(obs.process), state := Starting);
        if Reasons(obs) != {} then FailStep(o1, obs.process, Reasons(obs), answer)
        else (o1.(state := Ready), Outcome(Ready, true, {}, Some(obs.process), true, None, false))
  }

  /** One `stop` call. */
  function StopStep(o: Oracle, answer: Attempt<CleanupObservation>): (Oracle, Outcome) {
    if o.sticky then (o, Sticky(o))
    else if o.process.None? then
      (o.(state := Stopped), Outcome(Stopped, false, {}, None, false, Some(true), false))
    else
      var p := o.process.value;
      var cleanup := CleanupOf(p, answer);
      if !cleanup.complete then
        (o.(sticky := true, state := UnknownBlocking),
         Outcome(UnknownBlocking, false, cleanup.reasons + {CleanupUnverified}, Some(p), true, Some(false), true))
      else
        (o.(process := None, state := Stopped), Outcome(Stopped, false, {}, Some(p), true, Some(true), false))
  }

  // ----- against the deterministic world

  /** The snapshots taken after the spawn. */
  function ObserveAll(b: Backend, resolved: Resolved, bindingBefore: Digest, process: Identity)
    : (r: (Backend, Gathering))
    ensures r.1 == Failed(Some(process)) || (r.1.Gathered? && r.1.obs.process == process)
  {
    var (b1, treeBefore) := CallObserveTree(b, process);
    if treeBefore.Raised? then (b1, Failed(Some(process))) else
    var (b2, listenerStarted) := CallObserveListener(b1, resolved);
    if listenerStarted.Raised? then (b2, Failed(Some(process))) else
    var (b3, probe) := CallProbe(b2, resolved);
    if probe.Raised? then (b3, Failed(Some(process))) else
    var (b4, bindingDuring) := CallBindingDigest(b3, resolved);
    if bindingDuring.Raised? then (b4, Failed(Some(process))) else
    var (b5, treeAfter) := CallObserveTree(b4, process);
    if treeAfter.Raised? then (b5, Failed(Some(process))) else
    var (b6, listenerAfter) := CallObserveListener(b5, resolved);
    if listenerAfter.Raised? then (b6, Failed(Some(process))) else
    var (b7, bindingAfter) := CallBindingDigest(b6, resolved);
    if bindingAfter.Raised? then (b7, Failed(Some(process))) else
    (b7, Gathered(Observations(
      resolved, bindingBefore, process, treeBefore.value, listenerStarted.value, probe.value,
      bindingDuring.value, treeAfter.value, listenerAfter.value, bindingAfter.value)))
  }

  /** The checks before the spawn: either the launch material, or why the start ends there. */
  datatype Preparation = Proceed(resolved: Resolved, bindingBefore: Digest) | EndsHere(g: Gathering)

  function Prepare(b: Backend): (r: (Backend, Preparation))
    ensures r.1.EndsHere? ==> r.1.g == PortTaken || r.1.g == Failed(None)
  {
    var (b1, resolved) := CallResolve(b);
    if resolved.Raised? then (b1, EndsHere(Failed(None))) else
    var (b2, bindingBefore) := CallBindingDigest(b1, resolved.value);
    if bindingBefore.Raised? then (b2, EndsHere(Failed(None))) else
    var (b3, listenerBefore) := CallObserveListener(b2, resolved.value);
    if listenerBefore.Raised? then (b3, EndsHere(Failed(None))) else
    if listenerBefore.value.Bound() then (b3, EndsHere(PortTaken)) else
    (b3, Proceed(resolved.value, bindingBefore.value))
  }

  /** The whole snapshot phase of a start. */
  function Gather(b: Backend): (Backend, Gathering) {
    var (b1, prepared) := Prepare(b);
    match prepared
    case EndsHere(g) => (b1, g)
    case Proceed(resolved, bindingBefore) =>
      var (b2, process) := CallSpawn(b1, resolved);
      if process.Raised? then (b2, Failed(None)) else
      ObserveAll(b2, resolved, bindingBefore, process.value)
  }

  /** The process a failed start must clean up, if any. */
  function MustTerminate(g: Gathering): Option<Identity> {
    match g
    case PortTaken => None
    case Failed(spawned) => spawned
    case Gathered(obs) => if Reasons(obs) != {} then Some(obs.process) else None
  }

  /** A whole start call: new oracle state, new backend state, outcome. */
  function Start(o: Oracle, b: Backend): (Oracle, Backend, Outcome) {
    if o.sticky then (o, b, Sticky(o))
    else
      var (b1, g) := Gather(b);
      var p := MustTerminate(g);
      if p.Some? then
        var (b2, answer) := CallTerminate(b1, p.value);
        var (o2, outcome) := StartStep(o, g, answer);
        (o2, b2, outcome)
      else
        var (o1, outcome) := StartStep(o, g, Raised);
        (o1, b1, outcome)
  }

  function Stop(o: Oracle, b: Backend): (Oracle, Backend, Outcome) {
    if o.sticky || o.process.None? then
      var (o1, outcome) := StopStep(o, Raised);
      (o1, b, outcome)
    else
      var (b1, answer) := CallTerminate(b, o.process.value);
      var (o1, outcome) := StopStep(o, answer);
      (o1, b1, outcome)
  }

  /** A set display of three values has one element exactly when they are equal. */
  lemma {:induction false} OneDigest<T>(a: T, b: T, c: T)
    ensures |{a, b, c}| == 1 <==> a == b == c
  {
    if a == b == c {
      assert {a, b, c} == {a};
    } else {
      var rest := {a, b, c} - {a};
      assert rest != {} by { assert b in rest || c in rest; }
      assert |{a, b, c}| == |rest| + 1;
    }
  }

  class FailClosedSupervisor {
    var process: Option<Identity>
    var stickyAmbiguity: bool
    var state: Phase

    ghost function View(): Oracle
      reads this
    {
      Oracle(process, stickyAmbiguity, state)
    }

    constructor ()
      ensures View() == FRESH_ORACLE
    {
      process, stickyAmbiguity, state := None, false, Prepared;
    }

    /** Snapshots after the spawn; the process is already held. */
    method Observe(backend: FakeBackend, resolved: Resolved, bindingBefore: Digest, spawned: Identity)
      returns (g: Gathering)
      modifies backend
      ensures (backend.State(), g) == ObserveAll(old(backend.State()), resolved, bindingBefore, spawned)
    {
      var treeBefore := backend.SnapshotTree(spawned);
      if treeBefore.Raised? { return Failed(Some(spawned)); }
      var listenerStarted := backend.SnapshotListener(resolved);
      if listenerStarted.Raised? { return Failed(Some(spawned)); }
      var probe := backend.Probe(resolved);
      if probe.Raised? { return Failed(Some(spawned)); }
      var bindingDuring := backend.ReadBindingDigest(resolved);
      if bindingDuring.Raised? { return Failed(Some(spawned)); }
      var treeAfter := backend.SnapshotTree(spawned);
      if treeAfter.Raised? { return Failed(Some(spawned)); }
      var listenerAfter := backend.SnapshotListener(resolved);
      if listenerAfter.Raised? { return Failed(Some(spawned)); }
      var bindingAfter := backend.ReadBindingDigest(resolved);
      if bindingAfter.Raised? { return Failed(Some(spawned)); }
      g := Gathered(Observations(
        resolved, bindingBefore, spawned, treeBefore.value, listenerStarted.value, probe.value,
        bindingDuring.value, treeAfter.value, listenerAfter.value, bindingAfter.value));
    }

    method Check(backend: FakeBackend) returns (p: Preparation)
      modifies backend
      ensures (backend.State(), p) == Prepare(old(backend.State()))
    {
      var resolved := backend.ResolveRuntime();
      if resolved.Raised? { return EndsHere(Failed(None)); }
      var bindingBefore := backend.ReadBindingDigest(resolved.value);
      if bindingBefore.Raised? { return EndsHere(Failed(None)); }
      var listenerBefore := backend.SnapshotListener(resolved.value);
      if listenerBefore.Raised? { return EndsHere(Failed(None)); }
      if listenerBefore.value.Bound() { return EndsHere(PortTaken); }
      p := Proceed(resolved.value, bindingBefore.value);
    }

    /** The guarded part of `start`: everything up to the last snapshot. */
    method Collect(backend: FakeBackend) returns (g: Gathering)
      modifies this, backend
      ensures (backend.State(), g) == Gather(old(backend.State()))
      ensures stickyAmbiguity == old(stickyAmbiguity)
      ensures g.PortTaken? ==> process == old(process)
      ensures g.Failed? && g.spawned.None? ==> process == old(process)
      ensures g.Failed? && g.spawned.Some? ==> process == g.spawned && state == Starting
      ensures g.Gathered? ==> process == Some(g.obs.process) && state == Starting
    {
      var prepared := Check(backend);
      if prepared.EndsHere? {
        return prepared.g;
      }
      state := Starting;
      var spawned := backend.SpawnProcess(prepared.resolved);
      if spawned.Raised? { return Failed(None); }
      process := Some(spawned.value);
      g := Observe(backend, prepared.resolved, prepared.bindingBefore, spawned.value);
    }

    method JudgeBinding(o: Observations) returns (reasons: set<Reason>)
      ensures reasons == BindingReasons(o)
    {
      reasons := {};
      if o.bindingBefore != o.resolved.binding { reasons := reasons + {BindingMismatch}; }
      if |{o.bindingBefore, o.bindingDuring, o.bindingAfter}| != 1 { reasons := reasons + {BindingDrift}; }
      OneDigest(o.bindingBefore, o.bindingDuring, o.bindingAfter);
    }

    method JudgeTree(o: Observations) returns (reasons: set<Reason>)
      ensures reasons == TreeReasons(o)
    {
      reasons := {};
      if o.treeBefore.root != Some(o.process) || o.treeAfter.root != Some(o.process) {
        reasons := reasons + {ProcessIdentityChanged};
      }
      if o.treeBefore.Identities() != o.treeAfter.Identities() { reasons := reasons + {ProcessTreeChanged}; }
      if HasForeignDescendant(o.treeBefore, o.resolved.allowedDescendants)
         || HasForeignDescendant(o.treeAfter, o.resolved.allowedDescendants) {
        reasons := reasons + {UnexpectedDescendant};
      }
    }

    method JudgeListener(o: Observations) returns (reasons: set<Reason>)
      ensures reasons == ListenerReasons(o)
    {
      reasons := {};
      if !o.listenerStarted.Bound() || !o.listenerAfter.Bound() { reasons := reasons + {ListenerMissing}; }
      if o.listenerStarted.endpoint != o.resolved.endpoint || o.listenerAfter.endpoint != o.resolved.endpoint {
        reasons := reasons + {ListenerEndpointChanged};
      }
      if !InStableTree(o.listenerStarted.owner, o.treeBefore, o.treeAfter)
         || !InStableTree(o.listenerAfter.owner, o.treeBefore, o.treeAfter) {
        reasons := reasons + {ListenerOwnerMismatch};
      }
      if o.listenerStarted.owner != o.listenerAfter.owner || o.listenerStarted.token != o.listenerAfter.token {
        reasons := reasons + {ListenerSubstituted};
      }
    }

    method JudgeProbe(o: Observations) returns (reasons: set<Reason>)
      ensures reasons == ProbeReasons(o)
    {
      reasons := {};
      if !o.probe.healthy { reasons := reasons + {ProbeUnhealthy}; }
      if o.probe.modelId != Some(o.resolved.expectedModel) { reasons := reasons + {ModelIdentityMismatch}; }
      if o.probe.token != o.listenerStarted.token { reasons := reasons + {ProbeListenerMismatch}; }
    }

    method FailAfterObservation(backend: FakeBackend, spawned: Identity, reasons: set<Reason>)
      returns (outcome: Outcome)
      modifies this, backend
      ensures backend.State() == CallTerminate(old(backend.State()), spawned).0
      ensures (View(), outcome)
        == FailStep(old(View()), spawned, reasons, CallTerminate(old(backend.State()), spawned).1)
    {
      var answer := backend.TerminateProcess(spawned);
      var cleanup := if answer.Raised? then Unverified(spawned) else answer.value;
      if !cleanup.complete {
        stickyAmbiguity := true;
        state := UnknownBlocking;
        return Outcome(UnknownBlocking, false, reasons + cleanup.reasons + {CleanupUnverified},
                       process, process.Some?, Some(false), stickyAmbiguity);
      }
      process := None;
      state := Revoked;
      return Outcome(Revoked, false, reasons, Some(spawned), true, Some(true), stickyAmbiguity);
    }

    method StartRuntime(backend: FakeBackend) returns (outcome: Outcome)
      modifies this, backend
      ensures (View(), backend.State(), outcome) == Start(old(View()), old(backend.State()))
    {
      if stickyAmbiguity {
        return Outcome(UnknownBlocking, false, {StickyAmbiguity}, process, process.Some?, Some(false), true);
      }
      var g := Collect(backend);
      match g
      case PortTaken =>
        state := Revoked;
        return Outcome(Revoked, false, {PortOccupied}, process, process.Some?, None, stickyAmbiguity);
      case Failed(spawned) =>
        if spawned.None? {
          state := Revoked;
          return Outcome(Revoked, false, {BackendFailure}, process, process.Some?, None, stickyAmbiguity);
        }
        outcome := FailAfterObservation(backend, spawned.value, {BackendFailure});
      case Gathered(obs) =>
        var binding := JudgeBinding(obs);
        var tree := JudgeTree(obs);
        var listener := JudgeListener(obs);
        var probe := JudgeProbe(obs);
        var reasons := binding + tree + listener + probe;
        if reasons != {} {
          outcome := FailAfterObservation(backend, obs.process, reasons);
        } else {
          state := Ready;
          outcome := Outcome(Ready, true, {}, process, process.Some?, None, stickyAmbiguity);
        }
    }

    method StopRuntime(backend: FakeBackend) returns (outcome: Outcome)
      modifies this, backend
      ensures (View(), backend.State(), outcome) == Stop(old(View()), old(backend.State()))
    {
      if stickyAmbiguity {
        return Outcome(UnknownBlocking, false, {StickyAmbiguity}, process, process.Some?, Some(false), true);
      }
      if process.None? {
        state := Stopped;
        return Outcome(Stopped, false, {}, None, false, Some(true), stickyAmbiguity);
      }
      var held := process.value;
      state := Stopping;
      var answer := backend.TerminateProcess(held);
      var cleanup := if answer.Raised? then Unverified(held) else answer.value;
      if !cleanup.complete {
        stickyAmbiguity := true;
        state := UnknownBlocking;
        return Outcome(UnknownBlocking, false, cleanup.reasons + {CleanupUnverified}, process, process.Some?,
                       Some(false), stickyAmbiguity);
      }
      process := None;
      state := Stopped;
      return Outcome(Stopped, false, {}, Some(held), true, Some(true), stickyAmbiguity);
    }
  }
}
