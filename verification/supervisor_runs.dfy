/**
 Whole runs of the supervisor against arbitrary backends: any sequence of start and stop calls,
 with any answers, including raised ones.
 */
module SupervisorRuns {
  import opened Basics
  import opened SupervisorWorld
  import opened SupervisorOracle

  /** One call together with everything the backend would answer during it. */
  datatype Call =
    | StartCall(g: Gathering, answer: Attempt<CleanupObservation>)
    | StopCall(answer: Attempt<CleanupObservation>)

  function Step(o: Oracle, c: Call): (Oracle, Outcome) {
    match c
    case StartCall(g, answer) => StartStep(o, g, answer)
    case StopCall(answer) => StopStep(o, answer)
  }

  function Run(o: Oracle, calls: seq<Call>): (Oracle, seq<Outcome>)
    decreases |calls|
  {
    if calls == [] then (o, [])
    else
      var (o1, outcome) := Step(o, calls[0]);
      var (o2, rest) := Run(o1, calls[1..]);
      (o2, [outcome] + rest)
  }

  /** Sticky exactly while blocked, and a blocked supervisor still holds its process. */
  ghost predicate Consistent(o: Oracle) {
    (o.sticky <==> o.state == UnknownBlocking) && (o.sticky ==> o.process.Some?)
  }

  /** Every run from a fresh supervisor stays consistent, and ready outcomes name the held process. */
  lemma {:induction false} RunsStayConsistent(o: Oracle, calls: seq<Call>)
    requires Consistent(o)
    ensures Consistent(Run(o, calls).0)
    ensures |Run(o, calls).1| == |calls|
    ensures forall i | 0 <= i < |calls| ::
      Run(o, calls).1[i].ready ==>
        Run(o, calls).1[i].status == Ready && Run(o, calls).1[i].reasons == {} && !Run(o, calls).1[i].sticky
        && Run(o, calls[..i + 1]).0 == Oracle(Run(o, calls).1[i].process, false, Ready)
    decreases |calls|
  {
    if calls != [] {
      var (o1, outcome) := Step(o, calls[0]);
      RunsStayConsistent(o1, calls[1..]);
      var outcomes := Run(o, calls).1;
      forall i | 0 <= i < |calls|
        ensures outcomes[i].ready ==>
          outcomes[i].status == Ready && outcomes[i].reasons == {} && !outcomes[i].sticky
          && Run(o, calls[..i + 1]).0 == Oracle(outcomes[i].process, false, Ready)
      {
        assert calls[..i + 1][0] == calls[0];
        if i > 0 {
          assert calls[..i + 1][1..] == calls[1..][..i];
          assert outcomes[i] == Run(o1, calls[1..]).1[i - 1];
        } else {
          assert calls[..1][1..] == [];
        }
      }
    }
  }

  /** Once ambiguous, no further call changes anything, whatever the backend would answer. */
  lemma {:induction false} AmbiguityIsSticky(o: Oracle, calls: seq<Call>)
    requires o.sticky
    ensures Run(o, calls).0 == o
    ensures |Run(o, calls).1| == |calls|
    ensures forall i | 0 <= i < |calls| :: Run(o, calls).1[i] == Sticky(o) && !Run(o, calls).1[i].ready
    decreases |calls|
  {
    if calls != [] { AmbiguityIsSticky(o, calls[1..]); }
  }

  // ----- the same against the world: a sticky supervisor never calls the backend

  datatype Command = DoStart | DoStop

  function RunWorld(o: Oracle, b: Backend, commands: seq<Command>): (Oracle, Backend)
    decreases |commands|
  {
    if commands == [] then (o, b)
    else
      var (o1, b1, _) := if commands[0].DoStart? then Start(o, b) else Stop(o, b);
      RunWorld(o1, b1, commands[1..])
  }

  /** No call is logged, nothing is spawned and no scheduled mutation is consumed any more. */
  lemma {:induction false} StickyNeverTouchesBackend(o: Oracle, b: Backend, commands: seq<Command>)
    requires o.sticky
    ensures RunWorld(o, b, commands) == (o, b)
    decreases |commands|
  {
    if commands != [] { StickyNeverTouchesBackend(o, b, commands[1..]); }
  }

  // ----- conservation of processes

  function Held(o: Oracle): multiset<Identity> {
    if o.process.Some? then multiset{o.process.value} else multiset{}
  }

  /** The process a call spawned, if it got that far. */
  function SpawnedBy(o: Oracle, c: Call): multiset<Identity> {
    match c
    case StopCall(_) => multiset{}
    case StartCall(g, _) =>
      if o.sticky then multiset{}
      else match g
        case PortTaken => multiset{}
        case Failed(None) => multiset{}
        case Failed(Some(p)) => multiset{p}
        case Gathered(obs) => multiset{obs.process}
  }

  /** The process a call reported as completely terminated. */
  function TerminatedBy(o: Oracle, c: Call): multiset<Identity> {
    var outcome := Step(o, c).1;
    if outcome.cleanupComplete == Some(true) && outcome.process.Some? then multiset{outcome.process.value}
    else multiset{}
  }

  /** The process a call forgot: a spawning start replaces the one still held. */
  function ForgottenBy(o: Oracle, c: Call): multiset<Identity> {
    if SpawnedBy(o, c) == multiset{} then multiset{} else Held(o)
  }

  function Total(o: Oracle, calls: seq<Call>, part: (Oracle, Call) -> multiset<Identity>): multiset<Identity>
    decreases |calls|
  {
    if calls == [] then multiset{}
    else part(o, calls[0]) + Total(Step(o, calls[0]).0, calls[1..], part)
  }

  lemma {:induction false} FailConserves(
      o: Oracle, p: Identity, reasons: set<Reason>, answer: Attempt<CleanupObservation>)
    requires o.process == Some(p)
    ensures var (o1, outcome) := FailStep(o, p, reasons, answer);
      if outcome.cleanupComplete == Some(true) then o1.process.None? && outcome.process == Some(p)
      else o1.process == Some(p)
  {
  }

  /** What a non-sticky start does to the held process, and which process it reports. */
  lemma {:induction false} StartEffect(o: Oracle, g: Gathering, answer: Attempt<CleanupObservation>)
    requires !o.sticky
    ensures var (o1, outcome) := StartStep(o, g, answer);
      var spawned := if g.Gathered? then Some(g.obs.process) else if g.Failed? then g.spawned else None;
      if spawned.None? then o1.process == o.process && outcome.cleanupComplete.None?
      else if outcome.cleanupComplete == Some(true) then o1.process.None? && outcome.process == spawned
      else o1.process == spawned
  {
    if g.Gathered? {
      var reasons := Reasons(g.obs);
      FailConserves(o.(process := Some(g.obs.process), state := Starting), g.obs.process, reasons, answer);
    } else if g.Failed? && g.spawned.Some? {
      FailConserves(o.(process := g.spawned, state := Starting), g.spawned.value, {BackendFailure}, answer);
    }
  }

  lemma {:induction false} StopEffect(o: Oracle, answer: Attempt<CleanupObservation>)
    ensures var (o1, outcome) := StopStep(o, answer);
      if outcome.cleanupComplete == Some(true) then o1.process.None? && outcome.process == o.process
      else o1.process == o.process
  {
  }

  lemma {:induction false} StepConserves(o: Oracle, c: Call)
    ensures Held(o) + SpawnedBy(o, c) == Held(Step(o, c).0) + TerminatedBy(o, c) + ForgottenBy(o, c)
  {
    var (o1, outcome) := Step(o, c);
    if c.StopCall? {
      StopEffect(o, c.answer);
    } else if !o.sticky {
      StartEffect(o, c.g, c.answer);
      var spawned := if c.g.Gathered? then Some(c.g.obs.process) else if c.g.Failed? then c.g.spawned else None;
      assert SpawnedBy(o, c) == if spawned.None? then multiset{} else multiset{spawned.value};
      Balance(Held(o), spawned, o1.process, outcome.cleanupComplete == Some(true), outcome.process);
    }
  }

  lemma {:induction false} Balance(
      held: multiset<Identity>, spawned: Option<Identity>, now: Option<Identity>, done: bool, named: Option<Identity>)
    requires spawned.Some? ==> if done then now.None? && named == spawned else now == spawned
    ensures spawned.Some? ==>
      held + multiset{spawned.value}
      == (if now.Some? then multiset{now.value} else multiset{})
         + (if done && named.Some? then multiset{named.value} else multiset{}) + held
  {
  }

  lemma {:induction false} Regroup(
      h0: multiset<Identity>, s: multiset<Identity>, h1: multiset<Identity>, t: multiset<Identity>,
      f: multiset<Identity>, ss: multiset<Identity>, h2: multiset<Identity>, tt: multiset<Identity>,
      ff: multiset<Identity>)
    requires h0 + s == h1 + t + f && h1 + ss == h2 + tt + ff
    ensures h0 + (s + ss) == h2 + (t + tt) + (f + ff)
  {
    assert h0 + (s + ss) == (h0 + s) + ss;
    assert (h1 + t + f) + ss == (h1 + ss) + t + f;
    assert (h2 + tt + ff) + t + f == h2 + (t + tt) + (f + ff);
  }

  /** Over every run: processes held or spawned are still held, reported terminated, or were
      forgotten by a later start. */
  lemma {:induction false} ProcessesAreConserved(o: Oracle, calls: seq<Call>)
    ensures Held(o) + Total(o, calls, SpawnedBy)
            == Held(Run(o, calls).0) + Total(o, calls, TerminatedBy) + Total(o, calls, ForgottenBy)
    decreases |calls|
  {
    if calls != [] {
      var c, rest, o1 := calls[0], calls[1..], Step(o, calls[0]).0;
      StepConserves(o, c);
      ProcessesAreConserved(o1, rest);
      Regroup(Held(o), SpawnedBy(o, c), Held(o1), TerminatedBy(o, c), ForgottenBy(o, c),
              Total(o1, rest, SpawnedBy), Held(Run(o1, rest).0), Total(o1, rest, TerminatedBy),
              Total(o1, rest, ForgottenBy));
    }
  }

  /** Start is only called while no process is held. */
  ghost predicate Disciplined(o: Oracle, calls: seq<Call>)
    decreases |calls|
  {
    calls == [] ||
    ((calls[0].StartCall? ==> o.process.None?) && Disciplined(Step(o, calls[0]).0, calls[1..]))
  }

  /** Under that discipline nothing is forgotten. */
  lemma {:induction false} DisciplineForgetsNothing(o: Oracle, calls: seq<Call>)
    requires Disciplined(o, calls)
    ensures Total(o, calls, ForgottenBy) == multiset{}
    ensures Held(o) + Total(o, calls, SpawnedBy) == Held(Run(o, calls).0) + Total(o, calls, TerminatedBy)
    decreases |calls|
  {
    if calls != [] {
      DisciplineForgetsNothing(Step(o, calls[0]).0, calls[1..]);
      assert ForgottenBy(o, calls[0]) == multiset{};
    }
    ProcessesAreConserved(o, calls);
  }

  /** Some start of the run spawned while a process was held. */
  ghost predicate SpawnsWhileHolding(o: Oracle, calls: seq<Call>)
    decreases |calls|
  {
    calls != [] &&
    ((!o.sticky && o.process.Some? && calls[0].StartCall?
      && (calls[0].g.Gathered? || (calls[0].g.Failed? && calls[0].g.spawned.Some?)))
     || SpawnsWhileHolding(Step(o, calls[0]).0, calls[1..]))
  }

  /** A process is forgotten exactly by a start that spawns while one is held. */
  lemma {:induction false} ForgetsIffSpawnsWhileHolding(o: Oracle, calls: seq<Call>)
    ensures Total(o, calls, ForgottenBy) != multiset{} <==> SpawnsWhileHolding(o, calls)
    decreases |calls|
  {
    if calls != [] {
      ForgetsIffSpawnsWhileHolding(Step(o, calls[0]).0, calls[1..]);
      var now, later := ForgottenBy(o, calls[0]), Total(Step(o, calls[0]).0, calls[1..], ForgottenBy);
      assert |now + later| == |now| + |later|;
    }
  }

  /** Concretely: a second successful start loses the first process. */
  lemma {:induction false} SecondStartLosesTheFirst(first: Observations, second: Observations)
    requires Reasons(first) == {} && Reasons(second) == {}
    ensures var calls := [StartCall(Gathered(first), Raised), StartCall(Gathered(second), Raised),
                          StopCall(Returned(CleanupObservation(true, [], {})))];
      Run(FRESH_ORACLE, calls).0.process.None?
      && Total(FRESH_ORACLE, calls, TerminatedBy) == multiset{second.process}
      && Total(FRESH_ORACLE, calls, ForgottenBy) == multiset{first.process}
  {
    var a, b, c := StartCall(Gathered(first), Raised), StartCall(Gathered(second), Raised),
                   StopCall(Returned(CleanupObservation(true, [], {})));
    var calls := [a, b, c];
    var o1 := Step(FRESH_ORACLE, a).0;
    var o2 := Step(o1, b).0;
    var o3 := Step(o2, c).0;
    assert calls[1..] == [b, c] && [b, c][1..] == [c] && [c][1..] == [];
    assert Run(o2, [c]).0 == o3 && Run(o1, [b, c]).0 == o3 && Run(FRESH_ORACLE, calls).0 == o3;
    assert Total(o2, [c], TerminatedBy) == multiset{second.process};
    assert Total(o1, [b, c], TerminatedBy) == multiset{second.process};
    assert Total(o2, [c], ForgottenBy) == multiset{};
    assert Total(o1, [b, c], ForgottenBy) == multiset{first.process};
  }
}
