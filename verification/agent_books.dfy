/**
 The books of an agent run as values: the invariant that ties its lists and counters to its
 rounds, how each step keeps it, and what the result of a run reports.
 */
module AgentBooks {
  import opened Basics
  import opened JsonSchema
  import opened AgentTools
  import opened AgentCalls
  import opened AgentTranscript

  datatype Budget = Budget(
    maxModelTurns: int, maxToolCalls: int, maxProposedPerTurn: int, maxResultChars: int, maxTaskChars: int,
    maxArgumentChars: int, softWallTime: real)
  {
    predicate Valid() {
      && maxModelTurns >= 1 && maxToolCalls >= 1 && 1 <= maxProposedPerTurn <= 256
      && maxResultChars >= 512 && maxTaskChars >= 1 && maxArgumentChars >= 2 && softWallTime > 0.0
    }
  }

  datatype ModelOutput = ModelOutput(calls: seq<ToolCall>, finalAnswer: Option<string>, assistantContent: string)

  /** Where the harness itself raises while a tool is executed. */
  datatype Fault = NoFault | BeforeExecute | AfterExecute

  /** `redact` and `clean` are text redaction, without and with reasoning removal. */
  datatype Environment = Environment(
    text: TextOps, redact: string -> string, clean: string -> string, argumentSize: Json -> nat, render: Render,
    faults: nat -> Fault, handler: Option<Handler>)

  /** Data the harness itself writes: nothing, a truncation mark, or the mark with a size. */
  predicate PlainData(data: Json) {
    data == Obj([]) || data == Truncated([])
    || (data.Obj? && |data.fields| == 2 && data.fields[1].value.Int?
        && data == Truncated([Field("original_chars", data.fields[1].value)]))
  }

  /** Results that carry only harness data always serialize. */
  ghost predicate RendersPlain(render: Render) { forall r: ToolResult | PlainData(r.data) :: render(r).Returned? }

  /** The replacement for an unserializable result always fits the fallback path. */
  lemma {:induction false} PlainResultBounds(result: ToolResult, maxChars: nat, render: Render)
    requires RendersPlain(render) && result.data == Obj([])
    ensures BoundResult(result, maxChars, render).Returned?
  {
    var first := Compacted(result, |render(result).value|);
    assert PlainData(result.data) && PlainData(first.data);
    assert PlainData(Shortened(first).data) && PlainData(Minimal(result).data);
  }

  ghost predicate Monotone(reading: nat -> real) { forall i, j | i <= j :: reading(i) <= reading(j) }

  datatype Status = Completed | AwaitingApproval | Stopped | Failed

  datatype Reason =
    | FinalAnswer | ApprovalNeeded | WallTimeExceeded | BudgetExceeded | ModelError | TooManyToolCalls
    | InvalidModelOutput | ModelTurnsExceeded

  datatype RunResult = RunResult(
    status: Status, reason: Reason, finalAnswer: Option<string>, correlationId: string, modelTurns: nat,
    toolCalls: nat, results: seq<ToolResult>, approvalRequests: seq<ApprovalRequest>, groundedIds: seq<string>)

  // ----- what a run keeps, as relations between values

  /** The lists and counters are those of the rounds. */
  ghost predicate Recorded(rounds: seq<Round>, results: seq<ToolResult>, requests: seq<ApprovalRequest>, used: nat,
                           runs: int)
  {
    var observations := Observations(rounds);
    results == Results(observations) && requests == Requests(observations) && used == Used(observations)
    && runs == Executions(observations)
  }

  /** Every successful result belongs to a call that was allowed to run. */
  ghost predicate Earned(rounds: seq<Round>, allowed: ToolCall -> bool) {
    forall k, i | 0 <= k < |rounds| && 0 <= i < |rounds[k].observations| && i < |rounds[k].calls| ::
      rounds[k].observations[i].result.status == "success" ==> allowed(rounds[k].calls[i])
  }

  ghost predicate AllBlocked(round: Round) { forall o | o in round.observations :: o.permission.BudgetBlocked? }

  /** No call of the last permitted turn is executed. */
  ghost predicate LastTurnBlocked(rounds: seq<Round>, maxTurns: int) {
    forall k | 0 <= k < |rounds| && k + 1 >= maxTurns :: AllBlocked(rounds[k])
  }

  ghost predicate AnyBlocked(observations: seq<Observation>) {
    exists i | 0 <= i < |observations| :: observations[i].permission.BudgetBlocked?
  }

  ghost predicate Pausing(observations: seq<Observation>) {
    exists i | 0 <= i < |observations| :: observations[i].pause
  }

  lemma {:induction false} FlagsGrow(observations: seq<Observation>, o: Observation)
    ensures Pausing(observations + [o]) <==> Pausing(observations) || o.pause
    ensures AnyBlocked(observations + [o]) <==> AnyBlocked(observations) || o.permission.BudgetBlocked?
  {
    var all := observations + [o];
    assert all[|observations|] == o;
    assert forall i | 0 <= i < |observations| :: all[i] == observations[i];
  }

  ghost predicate AllHarmless(rounds: seq<Round>) { forall k | 0 <= k < |rounds| :: rounds[k].Harmless() }

  lemma {:induction false} RecordedObserve(
      rounds: seq<Round>, o: Observation, results: seq<ToolResult>, requests: seq<ApprovalRequest>, used: nat,
      runs: int, more: int)
    requires rounds != [] && AllWellFormed(rounds) && rounds[|rounds| - 1].Open()
    requires Recorded(rounds, results, requests, used, runs) && more == if o.Ran() then 1 else 0
    ensures Recorded(Observed(rounds, o), results + [o.result],
                     requests + (if o.request.Some? then [o.request.value] else []),
                     used + (if o.permission.BudgetBlocked? then 0 else 1), runs + more)
  {
    ObservedFacts(rounds, o);
    TalliesGrow(Observations(rounds), o);
  }

  lemma {:induction false} EarnedObserve(rounds: seq<Round>, o: Observation, allowed: ToolCall -> bool)
    requires rounds != [] && AllWellFormed(rounds) && rounds[|rounds| - 1].Open() && Earned(rounds, allowed)
    requires var last := rounds[|rounds| - 1];
      o.result.status == "success" ==> allowed(last.calls[|last.observations|])
    ensures Earned(Observed(rounds, o), allowed)
  {
    var n, grown := |rounds| - 1, Observed(rounds, o);
    forall k, i | 0 <= k < |grown| && 0 <= i < |grown[k].observations| && i < |grown[k].calls|
      ensures grown[k].observations[i].result.status == "success" ==> allowed(grown[k].calls[i])
    {
      if k < n {
        assert grown[k] == rounds[k];
        assert grown[k].observations[i] == rounds[k].observations[i];
      } else if i < |rounds[n].observations| {
        assert grown[k].observations[i] == rounds[n].observations[i];
      } else {
        assert grown[k].observations[i] == o;
      }
    }
  }

  lemma {:induction false} LastTurnObserve(rounds: seq<Round>, o: Observation, maxTurns: int)
    requires rounds != [] && LastTurnBlocked(rounds, maxTurns)
    requires |rounds| >= maxTurns ==> o.permission.BudgetBlocked?
    ensures LastTurnBlocked(Observed(rounds, o), maxTurns)
  {
    var grown := Observed(rounds, o);
    forall k | 0 <= k < |grown| && k + 1 >= maxTurns ensures AllBlocked(grown[k]) {
      assert AllBlocked(rounds[k]);
    }
  }

  lemma {:induction false} EarnedOpen(rounds: seq<Round>, round: Round, allowed: ToolCall -> bool, maxTurns: int)
    requires Earned(rounds, allowed) && LastTurnBlocked(rounds, maxTurns) && round.observations == []
    ensures Earned(rounds + [round], allowed) && LastTurnBlocked(rounds + [round], maxTurns)
  {
    var grown := rounds + [round];
    forall k, i | 0 <= k < |grown| && 0 <= i < |grown[k].observations| && i < |grown[k].calls|
      ensures grown[k].observations[i].result.status == "success" ==> allowed(grown[k].calls[i])
    {
      assert grown[k] == rounds[k];
      assert grown[k].observations[i] == rounds[k].observations[i];
    }
    forall k | 0 <= k < |grown| && k + 1 >= maxTurns ensures AllBlocked(grown[k]) {
      if k < |rounds| { assert AllBlocked(rounds[k]); }
    }
  }

  /** Some budget is used up: turns, calls, or the time of one of the readings so far. */
  ghost predicate Spent(budget: Budget, turns: nat, used: nat, ticks: nat, reading: nat -> real, deadline: real) {
    turns >= budget.maxModelTurns || used >= budget.maxToolCalls
    || exists t | 0 <= t < ticks :: reading(t) >= deadline
  }

  lemma {:induction false} SpentGrows(
      budget: Budget, turns: nat, used: nat, used': nat, ticks: nat, ticks': nat, reading: nat -> real,
      deadline: real)
    requires used <= used' && ticks < ticks'
    ensures Spent(budget, turns, used, ticks, reading, deadline) ==>
      Spent(budget, turns, used', ticks', reading, deadline)
    ensures reading(ticks) >= deadline || turns >= budget.maxModelTurns || used >= budget.maxToolCalls ==>
      Spent(budget, turns, used', ticks', reading, deadline)
  {
  }

  /** With a monotone clock a used-up budget refuses every later call. */
  lemma {:induction false} AdmittedObserve(
      observations: seq<Observation>, o: Observation, budget: Budget, turns: nat, used: nat, ticks: nat,
      reading: nat -> real, deadline: real)
    requires AnyBlocked(observations) ==> Spent(budget, turns, used, ticks, reading, deadline)
    requires o.permission.BudgetBlocked? <==>
      reading(ticks) >= deadline || turns >= budget.maxModelTurns || used >= budget.maxToolCalls
    ensures Monotone(reading) && AdmittedFirst(observations) ==> AdmittedFirst(observations + [o])
    ensures AnyBlocked(observations + [o]) ==> AnyBlocked(observations) || o.permission.BudgetBlocked?
  {
    if AnyBlocked(observations + [o]) {
      var i :| 0 <= i < |observations + [o]| && (observations + [o])[i].permission.BudgetBlocked?;
      assert i < |observations| ==> observations[i].permission.BudgetBlocked?;
    }
    if Monotone(reading) && AnyBlocked(observations) {
      if t :| 0 <= t < ticks && reading(t) >= deadline { assert reading(t) <= reading(ticks); }
      assert o.permission.BudgetBlocked?;
    }
  }

  // ----- the books of a run

  /** The mutable state of a run as one value; `runs` counts this run's runner calls. */
  datatype Book = Book(
    messages: seq<Message>, results: seq<ToolResult>, requests: seq<ApprovalRequest>, delivered: seq<string>,
    pending: seq<string>, seenIds: set<string>, used: nat, runs: int, ticks: nat)

  /** What the registry makes of a call: whether it may run, which outcomes it must have, whether
      its validation raises, and the name and risk class it resolves to. */
  datatype Tools = Tools(
    mayRun: ToolCall -> bool, answers: (ToolCall, Execution) -> bool, raises: ToolCall -> bool,
    named: ToolCall -> (string, string))

  /** What does not change during a run. */
  datatype Setting = Setting(
    budget: Budget, env: Environment, prompt: string, user: string, deadline: real, reading: nat -> real,
    tools: Tools)

  // ----- what one observation must be

  /** A result the loop writes itself, without data. */
  ghost predicate Written(r: ToolResult, call: ToolCall, tools: Tools, status: string, code: Code) {
    r == ToolResult(call.id, tools.named(call).0, status, code, Sentence(code), tools.named(call).1, Obj([]))
  }

  /** A call is refused for the first used-up budget, in the order time, turns, calls. */
  ghost predicate BudgetRefused(raw: ToolResult, call: ToolCall, turn: nat, used: nat, now: real, s: Setting) {
    if now >= s.deadline then Written(raw, call, s.tools, "stopped", WallTimeExhausted)
    else if turn >= s.budget.maxModelTurns then Written(raw, call, s.tools, "stopped", ModelTurnsExhausted)
    else used >= s.budget.maxToolCalls && Written(raw, call, s.tools, "stopped", ToolCallsExhausted)
  }

  ghost predicate Exhausted(turn: nat, used: nat, now: real, s: Setting) {
    now >= s.deadline || turn >= s.budget.maxModelTurns || used >= s.budget.maxToolCalls
  }

  /** Everything else is oversized, fails in the harness, or is answered by the registry. */
  ghost predicate Executes(raw: ToolResult, permission: Permission, request: Option<ApprovalRequest>, pause: bool,
                           ran: bool, call: ToolCall, used: nat, s: Setting)
  {
    if s.env.argumentSize(call.arguments) > s.budget.maxArgumentChars then
      permission == ArgumentsTooLarge && Written(raw, call, s.tools, "error", ArgumentsOversized)
      && request.None? && !pause && !ran
    else
      && (ran <==> s.env.faults(used) != BeforeExecute && s.tools.mayRun(call))
      && if s.env.faults(used) != NoFault || s.tools.raises(call) then
           permission == HarnessError && Written(raw, call, s.tools, "error", InternalHarnessError)
           && request.None? && !pause
         else
           permission.Evaluated?
           && s.tools.answers(call, Execution(raw, request, pause, permission.ruling, permission.approval))
  }

  /** The decision on one call, in its turn, with so many calls counted and at this time. */
  ghost predicate DecidedAs(raw: ToolResult, permission: Permission, request: Option<ApprovalRequest>, pause: bool,
                          ran: bool, call: ToolCall, turn: nat, used: nat, now: real, s: Setting)
  {
    && (permission.BudgetBlocked? <==> Exhausted(turn, used, now, s))
    && (Exhausted(turn, used, now, s) ==>
          BudgetRefused(raw, call, turn, used, now, s) && request.None? && !pause && !ran)
    && (!Exhausted(turn, used, now, s) ==> Executes(raw, permission, request, pause, ran, call, used, s))
  }

  /** The recorded result and its text are the bounded decision, or the bounded replacement for one
      that does not serialize; in both cases the text renders the result. */
  ghost predicate Settled(result: ToolResult, content: string, raw: ToolResult, call: ToolCall, s: Setting)
    requires s.budget.Valid()
  {
    var bounded := BoundResult(raw, s.budget.maxResultChars, s.env.render);
    var replacement := ToolResult(call.id, s.tools.named(call).0, "error", ResultSerializationError,
                                  Sentence(ResultSerializationError), raw.riskClass, Obj([]));
    && s.env.render(result) == Returned(content)
    && (if bounded.Returned? then bounded
        else BoundResult(replacement, s.budget.maxResultChars, s.env.render)) == Returned((result, content))
  }

  /** Everything an observation of this call in this turn must be. */
  ghost predicate Judged(o: Observation, call: ToolCall, turn: nat, s: Setting)
    requires s.budget.Valid()
  {
    && DecidedAs(o.raw, o.permission, o.request, o.pause, o.ran, call, turn, o.used, s.reading(o.tick), s)
    && Settled(o.result, o.content, o.raw, call, s)
  }

  /** Every observation is what its call and turn demand. */
  ghost predicate AllJudged(rounds: seq<Round>, s: Setting)
    requires s.budget.Valid()
  {
    forall k, i | 0 <= k < |rounds| && 0 <= i < |rounds[k].observations| && i < |rounds[k].calls| ::
      Judged(rounds[k].observations[i], rounds[k].calls[i], k + 1, s)
  }

  ghost predicate CountsUp(observations: seq<Observation>, i: nat)
    requires i < |observations|
  {
    observations[i].used == Used(observations[..i])
  }

  /** Each observation saw the calls counted before it, and a clock reading of its own. */
  ghost predicate Numbered(observations: seq<Observation>, ticks: nat) {
    && (forall i {:trigger CountsUp(observations, i)} | 0 <= i < |observations| :: CountsUp(observations, i))
    && (forall i | 0 <= i < |observations| :: observations[i].tick < ticks)
    && (forall i, j | 0 <= i < j < |observations| :: observations[i].tick < observations[j].tick)
  }

  lemma {:induction false} NumberedGrows(observations: seq<Observation>, o: Observation, ticks: nat, ticks': nat)
    requires Numbered(observations, ticks) && o.used == Used(observations) && ticks == o.tick < ticks'
    ensures Numbered(observations + [o], ticks')
  {
    var all := observations + [o];
    forall i | 0 <= i < |all| ensures CountsUp(all, i) {
      if i < |observations| {
        assert CountsUp(observations, i);
        assert all[..i] == observations[..i];
        assert all[i] == observations[i];
      } else {
        assert all[..i] == observations;
      }
    }
  }

  lemma {:induction false} JudgedObserve(rounds: seq<Round>, o: Observation, s: Setting)
    requires s.budget.Valid() && rounds != [] && AllWellFormed(rounds) && rounds[|rounds| - 1].Open()
    requires AllJudged(rounds, s)
    requires var last := rounds[|rounds| - 1]; Judged(o, last.calls[|last.observations|], |rounds|, s)
    ensures AllJudged(Observed(rounds, o), s)
  {
    var n, grown := |rounds| - 1, Observed(rounds, o);
    forall k, i | 0 <= k < |grown| && 0 <= i < |grown[k].observations| && i < |grown[k].calls|
      ensures Judged(grown[k].observations[i], grown[k].calls[i], k + 1, s)
    {
      if k < n {
        assert grown[k] == rounds[k];
        assert grown[k].observations[i] == rounds[k].observations[i];
      } else if i < |rounds[n].observations| {
        assert grown[k].observations[i] == rounds[n].observations[i];
      } else {
        assert grown[k].observations[i] == o;
      }
    }
  }

  lemma {:induction false} JudgedOpen(rounds: seq<Round>, round: Round, s: Setting)
    requires s.budget.Valid() && AllJudged(rounds, s) && round.observations == []
    ensures AllJudged(rounds + [round], s)
  {
    var grown := rounds + [round];
    forall k, i | 0 <= k < |grown| && 0 <= i < |grown[k].observations| && i < |grown[k].calls|
      ensures Judged(grown[k].observations[i], grown[k].calls[i], k + 1, s)
    {
      assert grown[k] == rounds[k];
      assert grown[k].observations[i] == rounds[k].observations[i];
    }
  }

  /** The replies of the model, of which a run consumes those from the first on. */
  datatype Replies = Replies(reply: nat -> Attempt<ModelOutput>, first: nat)
  {
    function At(k: nat): Attempt<ModelOutput> { reply(first + k) }

    /** The reply to the last of so many model calls. */
    function Last(turns: nat): Attempt<ModelOutput> { if turns == 0 then Raised else At(turns - 1) }
  }

  ghost predicate TranscriptKept(b: Book, rounds: seq<Round>, s: Setting) {
    AllWellFormed(rounds) && b.messages == Transcript(s.prompt, s.user, rounds)
    && b.delivered + b.pending == SuccessIds(rounds)
  }

  ghost predicate TallyKept(b: Book, rounds: seq<Round>, s: Setting) {
    Recorded(rounds, b.results, b.requests, b.used, b.runs) && b.used <= s.budget.maxToolCalls
  }

  ghost predicate IdsKept(b: Book, rounds: seq<Round>) {
    b.seenIds == SetOf(AllIds(rounds)) && Distinct(AllIds(rounds))
  }

  ghost predicate ControlKept(b: Book, rounds: seq<Round>, s: Setting) {
    && Earned(rounds, s.tools.mayRun) && LastTurnBlocked(rounds, s.budget.maxModelTurns)
    && (AnyBlocked(Observations(rounds)) ==> Spent(s.budget, |rounds|, b.used, b.ticks, s.reading, s.deadline))
    && (Monotone(s.reading) ==> AdmittedFirst(Observations(rounds)))
  }

  ghost predicate HistoryKept(b: Book, rounds: seq<Round>, s: Setting)
    requires s.budget.Valid()
  {
    AllJudged(rounds, s) && Numbered(Observations(rounds), b.ticks)
  }

  /** The invariant of a run. */
  ghost predicate Kept(b: Book, rounds: seq<Round>, s: Setting)
    requires s.budget.Valid()
  {
    && TranscriptKept(b, rounds, s) && TallyKept(b, rounds, s) && IdsKept(b, rounds) && ControlKept(b, rounds, s)
    && HistoryKept(b, rounds, s)
  }

  /** The open round has to answer this call next. */
  ghost predicate Answering(rounds: seq<Round>, call: ToolCall) {
    rounds != [] && var last := rounds[|rounds| - 1]; last.Open() && last.calls[|last.observations|] == call
  }

  /** Deciding a call changes only the counters, and counts it as its permission says. */
  ghost predicate Counted(b: Book, b': Book, o: Observation) {
    && b' == b.(used := b'.used, runs := b'.runs, ticks := b'.ticks)
    && b'.used == b.used + (if o.permission.BudgetBlocked? then 0 else 1)
    && b'.runs == b.runs + (if o.Ran() then 1 else 0)
    && b'.ticks > b.ticks
  }

  /** Recording an observation changes only the lists. */
  ghost function Appended(b: Book, call: ToolCall, o: Observation): Book {
    b.(messages := b.messages + [ToolMessage(call.id, o.content)],
       results := b.results + [o.result],
       requests := b.requests + (if o.request.Some? then [o.request.value] else []),
       pending := b.pending + (if o.result.status == "success" then [call.id] else []))
  }

  /** One observation changes the books in exactly this way. */
  ghost predicate BookObserved(b: Book, b': Book, call: ToolCall, o: Observation) {
    exists counted :: Counted(b, counted, o) && b' == Appended(counted, call, o)
  }

  /** The observation is what the call demands at this point of the run. */
  ghost predicate Lawful(b: Book, turns: nat, s: Setting, call: ToolCall, o: Observation)
    requires s.budget.Valid()
  {
    && o.used == b.used && o.tick == b.ticks && Judged(o, call, turns, s)
    && (o.permission.BudgetBlocked? <==>
          s.reading(b.ticks) >= s.deadline || turns >= s.budget.maxModelTurns || b.used >= s.budget.maxToolCalls)
    && (o.result.status == "success" ==> s.tools.mayRun(call))
  }

  lemma {:induction false} TranscriptObserve(
      b: Book, b': Book, rounds: seq<Round>, s: Setting, call: ToolCall, o: Observation)
    requires TranscriptKept(b, rounds, s) && Answering(rounds, call) && BookObserved(b, b', call, o)
    ensures TranscriptKept(b', Observed(rounds, o), s)
  {
    ObservedMessages(rounds, o, s.prompt, s.user);
    ObservedSuccesses(rounds, o);
  }

  lemma {:induction false} TallyObserve(
      b: Book, b': Book, rounds: seq<Round>, s: Setting, call: ToolCall, o: Observation)
    requires s.budget.Valid() && AllWellFormed(rounds) && TallyKept(b, rounds, s) && Answering(rounds, call)
    requires BookObserved(b, b', call, o) && Lawful(b, |rounds|, s, call, o)
    ensures TallyKept(b', Observed(rounds, o), s)
  {
    RecordedObserve(rounds, o, b.results, b.requests, b.used, b.runs, b'.runs - b.runs);
  }

  lemma {:induction false} ControlObserve(
      b: Book, b': Book, rounds: seq<Round>, s: Setting, call: ToolCall, o: Observation)
    requires s.budget.Valid() && AllWellFormed(rounds) && ControlKept(b, rounds, s) && Answering(rounds, call)
    requires BookObserved(b, b', call, o) && Lawful(b, |rounds|, s, call, o)
    ensures ControlKept(b', Observed(rounds, o), s)
  {
    ObservedFacts(rounds, o);
    EarnedObserve(rounds, o, s.tools.mayRun);
    LastTurnObserve(rounds, o, s.budget.maxModelTurns);
    AdmittedObserve(Observations(rounds), o, s.budget, |rounds|, b.used, b.ticks, s.reading, s.deadline);
    SpentGrows(s.budget, |rounds|, b.used, b'.used, b.ticks, b'.ticks, s.reading, s.deadline);
  }

  lemma {:induction false} HistoryObserve(
      b: Book, b': Book, rounds: seq<Round>, s: Setting, call: ToolCall, o: Observation)
    requires s.budget.Valid() && AllWellFormed(rounds) && HistoryKept(b, rounds, s) && Answering(rounds, call)
    requires b.used == Used(Observations(rounds)) && b'.ticks > b.ticks
    requires Lawful(b, |rounds|, s, call, o)
    ensures HistoryKept(b', Observed(rounds, o), s)
  {
    ObservedFacts(rounds, o);
    JudgedObserve(rounds, o, s);
    NumberedGrows(Observations(rounds), o, b.ticks, b'.ticks);
  }

  /** Every observation keeps the invariant. */
  lemma {:induction false} KeptObserve(
      b: Book, counted: Book, rounds: seq<Round>, s: Setting, call: ToolCall, o: Observation)
    requires s.budget.Valid() && Kept(b, rounds, s) && Answering(rounds, call)
    requires Counted(b, counted, o) && Lawful(b, |rounds|, s, call, o)
    ensures Kept(Appended(counted, call, o), Observed(rounds, o), s)
  {
    var b' := Appended(counted, call, o);
    TranscriptObserve(b, b', rounds, s, call, o);
    TallyObserve(b, b', rounds, s, call, o);
    ControlObserve(b, b', rounds, s, call, o);
    HistoryObserve(b, b', rounds, s, call, o);
    ObservedFacts(rounds, o);
  }

  lemma {:induction false} KeptObserved(
      b: Book, b': Book, rounds: seq<Round>, s: Setting, call: ToolCall, o: Observation)
    requires s.budget.Valid() && Kept(b, rounds, s) && Answering(rounds, call)
    requires BookObserved(b, b', call, o) && Lawful(b, |rounds|, s, call, o)
    ensures Kept(b', Observed(rounds, o), s)
  {
    var counted :| Counted(b, counted, o) && b' == Appended(counted, call, o);
    KeptObserve(b, counted, rounds, s, call, o);
  }

  lemma {:induction false} DistinctConcat(a: seq<string>, b: seq<string>)
    requires Distinct(a) && Distinct(b) && SetOf(a) !! SetOf(b)
    ensures Distinct(a + b) && SetOf(a + b) == SetOf(a) + SetOf(b)
  {
    forall i, j | 0 <= i < j < |a + b| ensures (a + b)[i] != (a + b)[j] {
      if i < |a| <= j { assert a[i] in SetOf(a) && b[j - |a|] in SetOf(b); }
    }
    assert forall x :: x in a + b <==> x in a || x in b;
  }

  /** Opening a round under fresh ids keeps the invariant. */
  lemma {:induction false} KeptOpen(b: Book, rounds: seq<Round>, s: Setting, round: Round)
    requires s.budget.Valid() && Kept(b, rounds, s) && AllHarmless(rounds) && round.observations == []
    requires Distinct(IdsOf(round.calls)) && SetOf(IdsOf(round.calls)) !! b.seenIds
    ensures Kept(b.(messages := b.messages + [Assistant(round.content, round.calls)],
                    seenIds := b.seenIds + SetOf(IdsOf(round.calls))), rounds + [round], s)
  {
    NewRound(rounds, round, s.prompt, s.user);
    DistinctConcat(AllIds(rounds), IdsOf(round.calls));
    EarnedOpen(rounds, round, s.tools.mayRun, s.budget.maxModelTurns);
    HarmlessUnblocked(rounds);
    JudgedOpen(rounds, round, s);
  }

  lemma {:induction false} HarmlessUnblocked(rounds: seq<Round>)
    requires AllHarmless(rounds)
    ensures !AnyBlocked(Observations(rounds))
  {
    if rounds != [] {
      var n := |rounds| - 1;
      var front, last := Observations(rounds[..n]), rounds[n].observations;
      HarmlessUnblocked(rounds[..n]);
      var all := front + last;
      forall i | 0 <= i < |all| ensures !all[i].permission.BudgetBlocked? {
        assert all[i] == if i < |front| then front[i] else last[i - |front|];
      }
    }
  }

  /** Handing the transcript to the model delivers what was pending; reading the clock is free. */
  lemma {:induction false} KeptDeliver(b: Book, rounds: seq<Round>, s: Setting, ticks: nat)
    requires s.budget.Valid() && Kept(b, rounds, s) && ticks >= b.ticks
    ensures Kept(b.(ticks := ticks), rounds, s)
    ensures Kept(b.(ticks := ticks, delivered := b.delivered + b.pending, pending := []), rounds, s)
  {
    assert b.delivered + b.pending + [] == b.delivered + b.pending;
  }

  // ----- reporting

  /** The k-th started model call was handed exactly the first k rounds. */
  ghost predicate HandedOver(handed: seq<seq<Message>>, rounds: seq<Round>, prompt: string, user: string) {
    AllWellFormed(rounds) && |handed| <= |rounds| + 1
    && forall k | 0 <= k < |handed| :: handed[k] == Transcript(prompt, user, rounds[..k])
  }

  /** The grounded ids are the successes visible to the last started model call. */
  ghost predicate Grounded(ids: seq<string>, handed: seq<seq<Message>>, rounds: seq<Round>)
    requires AllWellFormed(rounds) && |handed| <= |rounds| + 1
  {
    if handed == [] then ids == [] else ids == SuccessIds(rounds[..|handed| - 1])
  }

  /** The last round may end the run; all others are harmless, and all are answered. */
  ghost predicate EndsOnlyAtLast(rounds: seq<Round>) {
    AllComplete(rounds) && (rounds != [] ==> AllHarmless(rounds[..|rounds| - 1]))
  }

  /** A round carries out a reply: its calls are the proposed ones, in order, under new ids. */
  ghost predicate CarriesOut(round: Round, reply: Attempt<ModelOutput>, budget: Budget, env: Environment) {
    && reply.Returned? && 0 < |reply.value.calls| <= budget.maxProposedPerTurn
    && SameCalls(round.calls, reply.value.calls, env.text)
    && round.content == env.redact(reply.value.assistantContent)
  }

  /** Every round carries out the reply of its turn. */
  ghost predicate AllCarriedOut(rounds: seq<Round>, replies: Replies, budget: Budget, env: Environment) {
    forall k | 0 <= k < |rounds| :: CarriesOut(rounds[k], replies.At(k), budget, env)
  }

  /** The reply proposes no calls. */
  predicate Closing(reply: Attempt<ModelOutput>) { reply.Returned? && reply.value.calls == [] }

  predicate HasAnswer(reply: Attempt<ModelOutput>) { Closing(reply) && reply.value.finalAnswer.Some? }

  /** The last reading of the clock was at or past the deadline. */
  ghost predicate Late(ticks: nat, s: Setting) { ticks > 0 && s.reading(ticks - 1) >= s.deadline }

  ghost predicate LastPauses(rounds: seq<Round>) { rounds != [] && Pausing(rounds[|rounds| - 1].observations) }

  ghost predicate LastBlocked(rounds: seq<Round>) { rounds != [] && AnyBlocked(rounds[|rounds| - 1].observations) }

  function StatusOf(reason: Reason): Status {
    match reason
    case FinalAnswer => Completed
    case ApprovalNeeded => AwaitingApproval
    case WallTimeExceeded => Stopped
    case BudgetExceeded => Stopped
    case ModelTurnsExceeded => Stopped
    case _ => Failed
  }

  /** Exactly when each reason is given; `asked` says that the last model call opened no round. */
  ghost predicate Explains(r: RunResult, asked: bool, rounds: seq<Round>, reply: Attempt<ModelOutput>, late: bool,
                           budget: Budget, env: Environment)
  {
    && r.status == StatusOf(r.reason) && !r.reason.ModelTurnsExceeded?
    && (r.reason.ApprovalNeeded? <==> LastPauses(rounds))
    && (r.reason.BudgetExceeded? <==> LastBlocked(rounds) && !LastPauses(rounds))
    && (r.reason.ModelError? <==> asked && reply.Raised?)
    && (r.reason.TooManyToolCalls? <==> asked && reply.Returned? && |reply.value.calls| > budget.maxProposedPerTurn)
    && (r.reason.WallTimeExceeded? <==>
          late && !LastPauses(rounds) && !LastBlocked(rounds) && (asked ==> HasAnswer(reply)))
    && (r.reason.InvalidModelOutput? <==>
          asked && Closing(reply)
          && (HasAnswer(reply) ==> !late && env.clean(reply.value.finalAnswer.value) == ""))
    && (r.reason.FinalAnswer? <==> r.finalAnswer.Some?)
    && (r.reason.FinalAnswer? <==>
          asked && HasAnswer(reply) && !late && env.clean(reply.value.finalAnswer.value) != "")
    && (r.finalAnswer.Some? ==> r.finalAnswer.value == env.clean(reply.value.finalAnswer.value))
  }

  ghost predicate Reports(r: RunResult, b: Book, handed: seq<seq<Message>>, rounds: seq<Round>, s: Setting,
                          replies: Replies, env: Environment)
    requires AllWellFormed(rounds) && |handed| <= |rounds| + 1
  {
    && r.modelTurns == |handed| <= s.budget.maxModelTurns && |rounds| <= |handed|
    && EndsOnlyAtLast(rounds) && AllCarriedOut(rounds, replies, s.budget, env)
    && r.results == b.results && r.approvalRequests == b.requests && r.toolCalls == b.used
    && Grounded(r.groundedIds, handed, rounds)
    && Explains(r, |handed| > |rounds|, rounds, replies.Last(|handed|), Late(b.ticks, s), s.budget, env)
  }

  lemma {:induction false} HarmlessFlags(rounds: seq<Round>)
    requires AllHarmless(rounds)
    ensures EndsOnlyAtLast(rounds)
    ensures !LastPauses(rounds) && !LastBlocked(rounds)
  {
    if rounds != [] {
      var observations := rounds[|rounds| - 1].observations;
      assert forall i | 0 <= i < |observations| :: observations[i] in observations;
    }
  }

  /** How a reply that opens no round ends the run. */
  ghost function Verdict(reply: Attempt<ModelOutput>, late: bool, env: Environment): (Reason, Option<string>) {
    if reply.Raised? then (ModelError, None)
    else if reply.value.calls != [] then (TooManyToolCalls, None)
    else if reply.value.finalAnswer.None? then (InvalidModelOutput, None)
    else if late then (WallTimeExceeded, None)
    else
      var answer := env.clean(reply.value.finalAnswer.value);
      if answer == "" then (InvalidModelOutput, None) else (FinalAnswer, Some(answer))
  }

  lemma {:induction false} VerdictExplains(
      r: RunResult, rounds: seq<Round>, reply: Attempt<ModelOutput>, late: bool, budget: Budget, env: Environment)
    requires AllHarmless(rounds) && budget.Valid()
    requires reply.Returned? ==> reply.value.calls == [] || |reply.value.calls| > budget.maxProposedPerTurn
    requires r.status == StatusOf(r.reason) && (r.reason, r.finalAnswer) == Verdict(reply, late, env)
    ensures Explains(r, true, rounds, reply, late, budget, env)
  {
    HarmlessFlags(rounds);
  }

  /** The result carries the books at its end. */
  ghost predicate Carries(r: RunResult, b: Book, turns: nat) {
    r.modelTurns == turns && r.results == b.results && r.approvalRequests == b.requests && r.toolCalls == b.used
    && r.groundedIds == b.delivered
  }

  lemma {:induction false} AskedReports(
      r: RunResult, b: Book, handed: seq<seq<Message>>, rounds: seq<Round>, s: Setting, replies: Replies,
      env: Environment)
    requires AllHarmless(rounds) && AllWellFormed(rounds) && |rounds| + 1 == |handed| <= s.budget.maxModelTurns
    requires AllCarriedOut(rounds, replies, s.budget, env) && b.delivered == SuccessIds(rounds)
    requires Carries(r, b, |handed|) && s.budget.Valid()
    requires var reply := replies.Last(|handed|);
      && (reply.Returned? ==> reply.value.calls == [] || |reply.value.calls| > s.budget.maxProposedPerTurn)
      && r.status == StatusOf(r.reason) && (r.reason, r.finalAnswer) == Verdict(reply, Late(b.ticks, s), env)
    ensures Reports(r, b, handed, rounds, s, replies, env)
  {
    HarmlessFlags(rounds);
    assert rounds[..|rounds|] == rounds;
    VerdictExplains(r, rounds, replies.Last(|handed|), Late(b.ticks, s), s.budget, env);
  }

  /** How a played round ends the run. */
  lemma {:induction false} PlayedReports(
      r: RunResult, b: Book, handed: seq<seq<Message>>, rounds: seq<Round>, s: Setting, replies: Replies,
      env: Environment)
    requires AllWellFormed(rounds) && EndsOnlyAtLast(rounds) && |rounds| == |handed| <= s.budget.maxModelTurns
    requires AllCarriedOut(rounds, replies, s.budget, env) && Grounded(b.delivered, handed, rounds)
    requires Carries(r, b, |handed|) && r.status == StatusOf(r.reason) && r.finalAnswer.None?
    requires
      || (r.reason.ApprovalNeeded? && LastPauses(rounds))
      || (r.reason.BudgetExceeded? && LastBlocked(rounds) && !LastPauses(rounds))
      || (r.reason.WallTimeExceeded? && Late(b.ticks, s) && !LastBlocked(rounds) && !LastPauses(rounds))
    ensures Reports(r, b, handed, rounds, s, replies, env)
  {
  }

  /** An answered round closes a harmless run, and is harmless itself unless it pauses or is blocked. */
  lemma {:induction false} RoundsEnd(before: seq<Round>, rounds: seq<Round>)
    requires AllHarmless(before) && |rounds| == |before| + 1 && rounds[..|before|] == before
    requires rounds[|before|].Complete()
    ensures EndsOnlyAtLast(rounds)
    ensures !Pausing(rounds[|before|].observations) && !AnyBlocked(rounds[|before|].observations) ==>
      AllHarmless(rounds)
  {
    assert forall k | 0 <= k < |before| :: rounds[k] == before[k];
  }

  lemma {:induction false} CarriedOutGrows(
      before: seq<Round>, rounds: seq<Round>, replies: Replies, budget: Budget, env: Environment)
    requires AllCarriedOut(before, replies, budget, env)
    requires |rounds| == |before| + 1 && rounds[..|before|] == before
    requires CarriesOut(rounds[|before|], replies.At(|before|), budget, env)
    ensures AllCarriedOut(rounds, replies, budget, env)
  {
    assert forall k | 0 <= k < |before| :: rounds[k] == before[k];
  }

  /** What a played round adds up to. */
  lemma {:induction false} RoundPlayed(
      before: seq<Round>, rounds: seq<Round>, handed: seq<seq<Message>>, delivered: seq<string>, s: Setting,
      replies: Replies)
    requires AllHarmless(before) && AllCarriedOut(before, replies, s.budget, s.env)
    requires HandedOver(handed, before, s.prompt, s.user) && delivered == SuccessIds(before)
    requires |handed| == |before| + 1 == |rounds| && rounds[..|before|] == before && AllWellFormed(rounds)
    requires CarriesOut(rounds[|before|], replies.At(|before|), s.budget, s.env) && rounds[|before|].Complete()
    requires LastTurnBlocked(rounds, s.budget.maxModelTurns)
    ensures HandedOver(handed, rounds, s.prompt, s.user) && Grounded(delivered, handed, rounds)
    ensures AllCarriedOut(rounds, replies, s.budget, s.env) && EndsOnlyAtLast(rounds)
    ensures !LastPauses(rounds) && !LastBlocked(rounds) ==> AllHarmless(rounds)
    ensures |rounds| >= s.budget.maxModelTurns ==> LastBlocked(rounds)
  {
    HandedKeeps(handed, before, rounds, s.prompt, s.user);
    CarriedOutGrows(before, rounds, replies, s.budget, s.env);
    RoundsEnd(before, rounds);
    var observations := rounds[|before|].observations;
    assert observations[0] in observations;
    assert |rounds| >= s.budget.maxModelTurns ==> AllBlocked(rounds[|before|]);
  }

  lemma {:induction false} Concat(a: seq<seq<Message>>, b: seq<seq<Message>>, c: seq<seq<Message>>)
    ensures a + b + c == a + (b + c)
  {
  }

  lemma {:induction false} ConcatNothing(a: seq<seq<Message>>)
    ensures a + [] == a
  {
  }

  lemma {:induction false} HandedOne(handed: seq<seq<Message>>, rounds: seq<Round>, prompt: string, user: string)
    requires HandedOver(handed, rounds, prompt, user) && |handed| == |rounds|
    ensures HandedOver(handed + [Transcript(prompt, user, rounds)], rounds, prompt, user)
  {
    assert rounds[..|rounds|] == rounds;
  }

  lemma {:induction false} HandedKeeps(
      handed: seq<seq<Message>>, rounds: seq<Round>, rounds': seq<Round>, prompt: string, user: string)
    requires HandedOver(handed, rounds, prompt, user) && AllWellFormed(rounds')
    requires |handed| == |rounds| + 1 == |rounds'| && rounds'[..|rounds|] == rounds
    ensures HandedOver(handed, rounds', prompt, user)
  {
    forall k | 0 <= k < |handed| ensures handed[k] == Transcript(prompt, user, rounds'[..k]) {
      assert rounds'[..k] == rounds[..k];
    }
  }

  // ----- the whole run

  /** What every run guarantees, in terms of its rounds, the model's replies and the transcripts the
      model was handed; `runs` and `ticks` are the runner calls and clock readings at its end. */
  ghost predicate Accounted(r: RunResult, rounds: seq<Round>, handed: seq<seq<Message>>, s: Setting,
                            replies: Replies, env: Environment, runs: int, ticks: nat)
    requires s.budget.Valid()
  {
    var observations := Observations(rounds);
    && HandedOver(handed, rounds, s.prompt, s.user)
    && Distinct(AllIds(rounds)) && EndsOnlyAtLast(rounds)
    && |rounds| <= |handed| == r.modelTurns <= s.budget.maxModelTurns
    && AllCarriedOut(rounds, replies, s.budget, env)
    && r.results == Results(observations) && r.approvalRequests == Requests(observations)
    && runs == Executions(observations) && r.toolCalls == Used(observations) <= s.budget.maxToolCalls
    && Grounded(r.groundedIds, handed, rounds)
    && Earned(rounds, s.tools.mayRun) && LastTurnBlocked(rounds, s.budget.maxModelTurns)
    && (Monotone(s.reading) ==> AdmittedFirst(observations))
    && AllJudged(rounds, s) && Numbered(observations, ticks)
    && Explains(r, |handed| > |rounds|, rounds, replies.Last(|handed|), Late(ticks, s), s.budget, env)
  }

  lemma {:induction false} DoneIsAccounted(
      r: RunResult, b: Book, rounds: seq<Round>, handed: seq<seq<Message>>, s: Setting, replies: Replies,
      env: Environment)
    requires s.budget.Valid() && Kept(b, rounds, s) && HandedOver(handed, rounds, s.prompt, s.user)
    requires Reports(r, b, handed, rounds, s, replies, env)
    ensures Accounted(r, rounds, handed, s, replies, env, b.runs, b.ticks)
  {
  }

  lemma {:induction false} AllIdsPrefix(rounds: seq<Round>, k: nat)
    requires k <= |rounds|
    ensures AllIds(rounds[..k]) <= AllIds(rounds)
  {
    if k == |rounds| {
      assert rounds[..k] == rounds;
    } else {
      var n := |rounds| - 1;
      AllIdsPrefix(rounds[..n], k);
      assert rounds[..n][..k] == rounds[..k];
    }
  }

  /** At every model call of every run, each earlier tool call has exactly one tool message, in
      order, after its call and under an id unique in the run. */
  lemma {:induction false} HandedArePaired(r: RunResult, rounds: seq<Round>, handed: seq<seq<Message>>, s: Setting,
                        replies: Replies, env: Environment, runs: int, ticks: nat, k: nat)
    requires s.budget.Valid() && Accounted(r, rounds, handed, s, replies, env, runs, ticks) && k < |handed|
    ensures Paired(handed[k])
  {
    AllIdsPrefix(rounds, k);
    TranscriptPaired(s.prompt, s.user, rounds[..k]);
  }

  /** On a completed run the answer is grounded in all successful results; the runner was called
      no more often than the call budget allows. */
  lemma {:induction false} CompletedIsFullyGrounded(
      r: RunResult, rounds: seq<Round>, handed: seq<seq<Message>>, s: Setting, replies: Replies, env: Environment,
      runs: int, ticks: nat)
    requires s.budget.Valid() && Accounted(r, rounds, handed, s, replies, env, runs, ticks)
    ensures r.status.Completed? ==> r.groundedIds == SuccessIds(rounds)
    ensures runs == Executions(Observations(rounds)) <= r.toolCalls <= s.budget.maxToolCalls
  {
    assert rounds[..|rounds|] == rounds;
    ExecutionsAreUsed(Observations(rounds));
  }
}
