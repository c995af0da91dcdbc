/**
 The agent loop: model call, tool calls, observations, until a final answer or a control stops
 it. The model, the clock and the harness faults are arbitrary functions of the call number, so
 every statement below is about every environment.
 */
module AgentLoop {
  import opened Basics
  import opened JsonSchema
  import opened AgentTools
  import opened AgentCalls
  import opened AgentTranscript
  import opened AgentBooks

  class Clock {
    const reading: nat -> real
    var ticks: nat

    constructor (reading: nat -> real)
      ensures this.reading == reading && ticks == 0
    {
      this.reading, ticks := reading, 0;
    }

    method Monotonic() returns (t: real)
      modifies this
      ensures ticks == old(ticks) + 1 && t == reading(old(ticks))
    {
      t := reading(ticks);
      ticks := ticks + 1;
    }
  }

  /** A model adapter; it keeps the messages each started call was handed. */
  class Model {
    const replies: nat -> Attempt<ModelOutput>
    var received: seq<seq<Message>>

    constructor (replies: nat -> Attempt<ModelOutput>)
      ensures this.replies == replies && received == []
    {
      this.replies, received := replies, [];
    }

    method Generate(messages: seq<Message>) returns (r: Attempt<ModelOutput>)
      modifies this
      ensures received == old(received) + [messages] && r == replies(|old(received)|)
    {
      r := replies(|received|);
      received := received + [messages];
    }
  }

  // ----- the registry as a run sees it

  ghost predicate Reflects(tools: Tools, registry: ToolRegistry, handler: Option<Handler>) {
    && (forall call {:trigger tools.mayRun(call)} {:trigger registry.MayRun(call, handler)} ::
          tools.mayRun(call) <==> registry.MayRun(call, handler))
    && (forall call, e {:trigger tools.answers(call, e)} {:trigger registry.Answers(call, handler, e)} ::
          tools.answers(call, e) <==> registry.Answers(call, handler, e))
    && (forall call {:trigger tools.raises(call)} {:trigger registry.ValidationRaises(call)} ::
          tools.raises(call) <==> registry.ValidationRaises(call))
    && (forall call {:trigger tools.named(call)} :: tools.named(call) == registry.Label(call))
  }

  ghost function ToolsOf(registry: ToolRegistry, handler: Option<Handler>): Tools {
    Tools((call: ToolCall) => registry.MayRun(call, handler),
          (call: ToolCall, e: Execution) => registry.Answers(call, handler, e),
          (call: ToolCall) => registry.ValidationRaises(call), (call: ToolCall) => registry.Label(call))
  }

  lemma {:induction false} ToolsReflect(registry: ToolRegistry, handler: Option<Handler>)
    ensures Reflects(ToolsOf(registry, handler), registry, handler)
  {
  }

  /** A successful result comes from a call that may run. */
  lemma {:induction false} AnsweredSuccess(
      registry: ToolRegistry, handler: Option<Handler>, call: ToolCall, e: Execution)
    requires registry.Answers(call, handler, e) && e.result.status == "success"
    ensures registry.MayRun(call, handler)
  {
  }

  lemma {:induction false} SuccessMayRun(
      o: Observation, call: ToolCall, turn: nat, s: Setting, registry: ToolRegistry, handler: Option<Handler>)
    requires s.budget.Valid() && Judged(o, call, turn, s) && s.tools == ToolsOf(registry, handler)
    ensures o.result.status == "success" ==> s.tools.mayRun(call)
  {
    ToolsReflect(registry, handler);
    if o.result.status == "success" {
      assert o.raw.status == "success";
      var e := Execution(o.raw, o.request, o.pause, o.permission.ruling, o.permission.approval);
      assert s.tools.answers(call, e);
      AnsweredSuccess(registry, handler, call, e);
    }
  }

  lemma {:induction false} LastReply(replies: Replies, reply: nat -> Attempt<ModelOutput>, n: nat, turn: nat)
    requires replies.reply == reply && turn > 0 && n + 1 == replies.first + turn
    ensures replies.Last(turn) == reply(n)
  {
  }

  /** What a run of this text, started at this time, is bound to. */
  ghost function SettingOf(userText: string, prompt: string, budget: Budget, env: Environment, start: real,
                           reading: nat -> real, registry: ToolRegistry): Setting
  {
    Setting(budget, env, prompt, env.text.strip(userText), start + budget.softWallTime, reading,
            ToolsOf(registry, env.handler))
  }

  // ----- the run

  /** The state of one run; `rounds` is its history, which the real fields must agree with. */
  class AgentRun {
    const budget: Budget
    const env: Environment
    const prompt: string
    const user: string
    const correlationId: string
    const deadline: real
    const model: Model
    const clock: Clock
    const registry: ToolRegistry
    ghost const priorRuns: nat
    ghost const tools: Tools
    ghost const replies: Replies

    var messages: seq<Message>
    var results: seq<ToolResult>
    var approvalRequests: seq<ApprovalRequest>
    var delivered: seq<string>
    var pending: seq<string>
    var seenIds: set<string>
    var modelTurns: nat
    var toolCallsUsed: nat
    ghost var rounds: seq<Round>

    constructor (budget: Budget, env: Environment, prompt: string, user: string, correlationId: string, deadline: real,
                 model: Model, clock: Clock, registry: ToolRegistry, ghost tools: Tools)
      requires budget.Valid() && HexDigests(env.text) && RendersPlain(env.render) && registry.SpecsValid()
      requires tools == ToolsOf(registry, env.handler)
      ensures Ready(1, []) && rounds == []
      ensures this.budget == budget && this.env == env && this.prompt == prompt && this.user == user
      ensures this.correlationId == correlationId && this.deadline == deadline
      ensures this.model == model && this.clock == clock && this.registry == registry
      ensures priorRuns == |registry.runnerCalls| && this.tools == tools
      ensures replies == Replies(model.replies, |model.received|)
    {
      this.budget, this.env, this.prompt, this.user := budget, env, prompt, user;
      this.correlationId, this.deadline := correlationId, deadline;
      this.model, this.clock, this.registry := model, clock, registry;
      priorRuns := |registry.runnerCalls|;
      replies := Replies(model.replies, |model.received|);
      this.tools := tools;
      messages := [System(prompt), User(user)];
      results, approvalRequests, delivered, pending, seenIds := [], [], [], [], {};
      modelTurns, toolCallsUsed, rounds := 0, 0, [];
    }

    /** The environment meets what its own functions promise, and `tools` is what the registry does. */
    ghost predicate Wired() {
      budget.Valid() && HexDigests(env.text) && RendersPlain(env.render) && registry.SpecsValid()
      && tools == ToolsOf(registry, env.handler)
    }

    ghost function Books(): Book
      reads this`messages, this`results, this`approvalRequests, this`delivered, this`pending, this`seenIds
      reads this`toolCallsUsed, registry, clock
    {
      Book(messages, results, approvalRequests, delivered, pending, seenIds, toolCallsUsed,
           |registry.runnerCalls| - priorRuns, clock.ticks)
    }

    ghost function Terms(): Setting { Setting(budget, env, prompt, user, deadline, clock.reading, tools) }

    ghost predicate Valid()
      reads this, registry, clock
    {
      Wired() && Kept(Books(), rounds, Terms())
    }

    // ----- one call

    /** A result the loop writes itself. */
    method Write(call: ToolCall, status: string, code: Code) returns (r: ToolResult)
      requires Wired()
      ensures Written(r, call, tools, status, code)
    {
      ToolsReflect(registry, env.handler);
      var spec := registry.index.Resolve(call.name);
      r := Refused(call, if spec.Some? then spec.value.name else "unknown", status, code, Sentence(code),
                   if spec.Some? then spec.value.riskClass else "unknown");
    }

    /** A call within the budgets: the size test, and then the registry, whose failure is caught. */
    method Attempted(call: ToolCall, used: nat)
      returns (result: ToolResult, permission: Permission, request: Option<ApprovalRequest>, pause: bool, ran: bool)
      requires Wired()
      modifies clock, registry
      ensures clock.ticks >= old(clock.ticks)
      ensures Executes(result, permission, request, pause, ran, call, used, Terms())
      ensures permission.Executed() || permission.ArgumentsTooLarge?
      ensures |registry.runnerCalls| == |old(registry.runnerCalls)| + if ran && permission.Executed() then 1 else 0
    {
      ToolsReflect(registry, env.handler);
      request, pause, ran := None, false, false;
      if env.argumentSize(call.arguments) > budget.maxArgumentChars {
        result := Write(call, "error", ArgumentsOversized);
        permission := ArgumentsTooLarge;
        return;
      }
      var _ := clock.Monotonic();
      result := Write(call, "error", InternalHarnessError);
      permission := HarnessError;
      var fault := env.faults(used);
      if fault == BeforeExecute { return; }
      var calls := |registry.runnerCalls|;
      var attempt := registry.Execute(call, env.handler);
      ran := |registry.runnerCalls| > calls;
      if fault == NoFault && attempt.Returned? {
        var execution := attempt.value;
        result := execution.result;
        permission := Evaluated(execution.permissionDecision, execution.approvalStatus);
        request, pause := execution.request, execution.pauseRequired;
      }
    }

    /** The budget tests, and otherwise the execution, of one call. */
    method Decide(call: ToolCall, turn: nat)
      returns (result: ToolResult, permission: Permission, request: Option<ApprovalRequest>, pause: bool, ran: bool)
      requires Wired() && toolCallsUsed <= budget.maxToolCalls
      modifies this`toolCallsUsed, clock, registry
      ensures clock.ticks > old(clock.ticks)
      ensures DecidedAs(result, permission, request, pause, ran, call, turn, old(toolCallsUsed),
                      clock.reading(old(clock.ticks)), Terms())
      ensures toolCallsUsed == old(toolCallsUsed) + if permission.BudgetBlocked? then 0 else 1
      ensures |registry.runnerCalls| == |old(registry.runnerCalls)| + if ran && permission.Executed() then 1 else 0
    {
      request, pause, ran := None, false, false;
      permission := BudgetBlocked;
      var now := clock.Monotonic();
      if now >= deadline {
        result := Write(call, "stopped", WallTimeExhausted);
      } else if turn >= budget.maxModelTurns {
        result := Write(call, "stopped", ModelTurnsExhausted);
      } else if toolCallsUsed >= budget.maxToolCalls {
        result := Write(call, "stopped", ToolCallsExhausted);
      } else {
        toolCallsUsed := toolCallsUsed + 1;
        result, permission, request, pause, ran := Attempted(call, toolCallsUsed - 1);
      }
    }

    /** Bound a result, replacing it when it does not serialize. */
    method BoundOrReplace(call: ToolCall, result: ToolResult) returns (bounded: ToolResult, content: string)
      requires Wired()
      ensures Settled(bounded, content, result, call, Terms())
    {
      ToolsReflect(registry, env.handler);
      var attempt := BoundResult(result, budget.maxResultChars, env.render);
      if attempt.Returned? { return attempt.value.0, attempt.value.1; }
      var spec := registry.index.Resolve(call.name);
      var plain := Refused(call, if spec.Some? then spec.value.name else "unknown", "error",
                           ResultSerializationError, Sentence(ResultSerializationError), result.riskClass);
      PlainResultBounds(plain, budget.maxResultChars, env.render);
      var second := BoundResult(plain, budget.maxResultChars, env.render);
      return second.value.0, second.value.1;
    }

    /** Decide a call and bound its result. */
    method Answer(call: ToolCall, turn: nat) returns (o: Observation)
      requires Wired() && toolCallsUsed <= budget.maxToolCalls
      modifies this`toolCallsUsed, clock, registry
      ensures Lawful(old(Books()), turn, Terms(), call, o) && Counted(old(Books()), Books(), o)
    {
      var used, tick := toolCallsUsed, clock.ticks;
      ghost var terms := Terms();
      var result, permission, request, pause, ran := Decide(call, turn);
      var bounded, content := BoundOrReplace(call, result);
      o := Observation(bounded, content, permission, request, pause, result, ran, used, tick);
      SuccessMayRun(o, call, turn, terms, registry, env.handler);
    }

    /** Append an observation to the lists of the run. */
    method Append(call: ToolCall, o: Observation)
      modifies this`results, this`approvalRequests, this`pending, this`messages
      ensures Books() == Appended(old(Books()), call, o)
    {
      if o.request.Some? { approvalRequests := approvalRequests + [o.request.value]; }
      results := results + [o.result];
      if o.result.status == "success" { pending := pending + [call.id]; }
      messages := messages + [ToolMessage(call.id, o.content)];
    }

    /** Answer a call and append what was observed. */
    method Take(call: ToolCall, turn: nat) returns (o: Observation)
      requires Wired() && toolCallsUsed <= budget.maxToolCalls
      modifies this`toolCallsUsed, this`results, this`approvalRequests, this`pending, this`messages, clock, registry
      ensures Lawful(old(Books()), turn, Terms(), call, o) && BookObserved(old(Books()), Books(), call, o)
    {
      o := Answer(call, turn);
      ghost var counted := Books();
      Append(call, o);
      assert Books() == Appended(counted, call, o);
    }

    /** One call of a round: decide it, bound the result, and record the observation. */
    method Observe(call: ToolCall, turn: nat) returns (o: Observation)
      requires Valid() && turn == |rounds| && Answering(rounds, call)
      modifies this`toolCallsUsed, this`results, this`approvalRequests, this`pending, this`messages, this`rounds
      modifies clock, registry
      ensures Valid() && rounds == Observed(old(rounds), o)
    {
      ghost var before, past, terms := Books(), rounds, Terms();
      o := Take(call, turn);
      KeptObserved(before, Books(), past, terms, call, o);
      rounds := Observed(past, o);
    }

    method FreshCalls(output: ModelOutput, turn: nat) returns (calls: seq<ToolCall>, seen: set<string>)
      requires HexDigests(env.text)
      ensures SameCalls(calls, output.calls, env.text)
      ensures Distinct(IdsOf(calls)) && SetOf(IdsOf(calls)) !! seenIds && seen == seenIds + SetOf(IdsOf(calls))
    {
      calls, seen := NormalizeCalls(output.calls, correlationId, turn, seenIds, env.text);
    }

    /** Normalize the proposed calls and append the assistant message. */
    method OpenRound(output: ModelOutput, turn: nat) returns (calls: seq<ToolCall>)
      requires Valid() && turn == |rounds| + 1 && AllHarmless(rounds)
      modifies this`seenIds, this`messages, this`rounds
      ensures Valid() && rounds == old(rounds) + [Round(env.redact(output.assistantContent), calls, [])]
      ensures SameCalls(calls, output.calls, env.text)
    {
      ghost var before := Books();
      var seen;
      calls, seen := FreshCalls(output, turn);
      ghost var round := Round(env.redact(output.assistantContent), calls, []);
      KeptOpen(before, rounds, Terms(), round);
      seenIds := seen;
      messages := messages + [Assistant(env.redact(output.assistantContent), calls)];
      rounds := rounds + [round];
    }

    /** Answer every call of the open round, in order. */
    method AnswerAll(calls: seq<ToolCall>, turn: nat) returns (pause: bool, blocked: bool)
      requires Valid() && turn == |rounds| && turn > 0
      requires rounds[turn - 1].calls == calls && rounds[turn - 1].observations == []
      modifies this`toolCallsUsed, this`results, this`approvalRequests, this`pending, this`messages, this`rounds
      modifies clock, registry
      ensures Valid() && |rounds| == turn && rounds[..turn - 1] == old(rounds)[..turn - 1]
      ensures rounds[turn - 1].content == old(rounds)[turn - 1].content && rounds[turn - 1].calls == calls
      ensures rounds[turn - 1].Complete()
      ensures pause == Pausing(rounds[turn - 1].observations) && blocked == AnyBlocked(rounds[turn - 1].observations)
    {
      pause, blocked := false, false;
      for i := 0 to |calls|
        invariant Valid() && |rounds| == turn && rounds[..turn - 1] == old(rounds)[..turn - 1]
        invariant rounds[turn - 1].content == old(rounds)[turn - 1].content && rounds[turn - 1].calls == calls
        invariant |rounds[turn - 1].observations| == i
        invariant pause == Pausing(rounds[turn - 1].observations)
        invariant blocked == AnyBlocked(rounds[turn - 1].observations)
      {
        ghost var before := rounds[turn - 1].observations;
        var o := Observe(calls[i], turn);
        FlagsGrow(before, o);
        pause, blocked := pause || o.pause, blocked || o.permission.BudgetBlocked?;
      }
    }

    /** Before a turn: earlier turns are answered, and their transcripts were handed over. */
    ghost predicate Ready(turn: nat, handed: seq<seq<Message>>)
      reads this, registry, clock
    {
      && Valid() && |rounds| == |handed| == modelTurns && turn == modelTurns + 1 && turn <= budget.maxModelTurns
      && AllHarmless(rounds) && HandedOver(handed, rounds, prompt, user) && Grounded(delivered, handed, rounds)
      && AllCarriedOut(rounds, replies, budget, env)
    }

    /** After the last turn: the result reports the run. */
    ghost predicate Done(r: RunResult, handed: seq<seq<Message>>)
      reads this, registry, clock
    {
      Valid() && HandedOver(handed, rounds, prompt, user)
      && Reports(r, Books(), handed, rounds, Terms(), replies, env)
    }

    method Stop(status: Status, reason: Reason, finalAnswer: Option<string>) returns (r: RunResult)
      ensures r == RunResult(status, reason, finalAnswer, correlationId, modelTurns, toolCallsUsed, results,
                             approvalRequests, delivered)
      ensures Carries(r, Books(), modelTurns)
    {
      r := RunResult(status, reason, finalAnswer, correlationId, modelTurns, toolCallsUsed, results,
                     approvalRequests, delivered);
    }

    /** During a turn, once its model call was started: everything earlier was delivered. */
    ghost predicate Asked(turn: nat, handed: seq<seq<Message>>)
      reads this, registry, clock
    {
      && Valid() && |rounds| + 1 == |handed| == turn && turn <= budget.maxModelTurns
      && AllHarmless(rounds) && HandedOver(handed, rounds, prompt, user) && delivered == SuccessIds(rounds)
      && AllCarriedOut(rounds, replies, budget, env)
    }

    /** End the run on a reply that opens no round. */
    method StopAsked(reason: Reason, finalAnswer: Option<string>, ghost handed: seq<seq<Message>>)
      returns (r: RunResult)
      requires Asked(|handed|, handed) && modelTurns == |handed|
      requires var reply := replies.Last(|handed|);
        && (reply.Returned? ==> reply.value.calls == [] || |reply.value.calls| > budget.maxProposedPerTurn)
        && (reason, finalAnswer) == Verdict(reply, Late(clock.ticks, Terms()), env)
      ensures Done(r, handed)
    {
      r := Stop(StatusOf(reason), reason, finalAnswer);
      AskedReports(r, Books(), handed, rounds, Terms(), replies, env);
    }

    /** End the run before a model call, or on a round that pauses or is blocked. */
    method StopPlayed(reason: Reason, ghost handed: seq<seq<Message>>) returns (r: RunResult)
      requires Valid() && HandedOver(handed, rounds, prompt, user) && Grounded(delivered, handed, rounds)
      requires EndsOnlyAtLast(rounds) && |rounds| == |handed| == modelTurns <= budget.maxModelTurns
      requires AllCarriedOut(rounds, replies, budget, env)
      requires
        || (reason.ApprovalNeeded? && LastPauses(rounds))
        || (reason.BudgetExceeded? && LastBlocked(rounds) && !LastPauses(rounds))
        || (reason.WallTimeExceeded? && Late(clock.ticks, Terms()) && !LastBlocked(rounds) && !LastPauses(rounds))
      ensures Done(r, handed)
    {
      r := Stop(StatusOf(reason), reason, None);
      PlayedReports(r, Books(), handed, rounds, Terms(), replies, env);
    }

    method Deliver()
      requires Valid()
      modifies this`delivered, this`pending
      ensures Valid() && delivered == SuccessIds(rounds)
    {
      ghost var before := Books();
      KeptDeliver(before, rounds, Terms(), clock.ticks);
      if pending != [] {
        delivered := delivered + pending;
        pending := [];
      }
    }

    /** Reading the clock changes nothing else. */
    method Now() returns (t: real)
      requires Valid()
      modifies clock
      ensures Valid() && (t >= deadline <==> Late(clock.ticks, Terms()))
    {
      ghost var before, past, terms := Books(), rounds, Terms();
      KeptDeliver(before, past, terms, before.ticks + 1);
      t := clock.Monotonic();
      assert Books() == before.(ticks := before.ticks + 1);
    }

    /** Deliver what is pending, and read the clock for the time limit of the model call. */
    method Prepare()
      requires Valid()
      modifies this`delivered, this`pending, clock
      ensures Valid() && delivered == SuccessIds(rounds) && messages == Transcript(prompt, user, rounds)
    {
      Deliver();
      var _ := Now();
    }

    /** The messages at hand are the next to hand over. */
    method HandOver(turn: nat, ghost handed: seq<seq<Message>>)
      requires Ready(turn, handed)
      modifies this`delivered, this`pending, clock
      ensures Asked(turn, handed + [messages])
    {
      HandedOne(handed, rounds, prompt, user);
      Prepare();
    }

    /** A reply without calls ends the run. */
    method Conclude(output: ModelOutput, turn: nat, ghost handed: seq<seq<Message>>) returns (r: RunResult)
      requires Asked(turn, handed) && modelTurns == turn && output.calls == []
      requires replies.Last(turn) == Returned(output)
      modifies clock
      ensures Done(r, handed)
    {
      if output.finalAnswer.Some? {
        var now := Now();
        if now >= deadline {
          r := StopAsked(WallTimeExceeded, None, handed);
          return;
        }
        var answer := env.clean(output.finalAnswer.value);
        if answer != "" {
          r := StopAsked(FinalAnswer, Some(answer), handed);
          return;
        }
      }
      r := StopAsked(InvalidModelOutput, None, handed);
    }

    /** Open a round for a reply and answer all its calls. */
    method CarryOut(output: ModelOutput, turn: nat) returns (pause: bool, blocked: bool)
      requires Valid() && turn == |rounds| + 1 && AllHarmless(rounds)
      requires 0 < |output.calls| <= budget.maxProposedPerTurn
      modifies this`seenIds, this`toolCallsUsed, this`results, this`approvalRequests, this`pending, this`messages
      modifies this`rounds, clock, registry
      ensures Valid() && |rounds| == turn && rounds[..turn - 1] == old(rounds)
      ensures CarriesOut(rounds[turn - 1], Returned(output), budget, env) && rounds[turn - 1].Complete()
      ensures pause == LastPauses(rounds) && blocked == LastBlocked(rounds)
    {
      var calls := OpenRound(output, turn);
      pause, blocked := AnswerAll(calls, turn);
    }

    /** A round was opened and answered; without a pause or a refusal the run may go on. */
    ghost predicate Played(turn: nat, handed: seq<seq<Message>>, pause: bool, blocked: bool)
      reads this, registry, clock
    {
      && Valid() && |rounds| == |handed| == modelTurns == turn && turn <= budget.maxModelTurns
      && HandedOver(handed, rounds, prompt, user) && Grounded(delivered, handed, rounds)
      && AllCarriedOut(rounds, replies, budget, env) && EndsOnlyAtLast(rounds)
      && pause == LastPauses(rounds) && blocked == LastBlocked(rounds)
      && (!pause && !blocked ==> AllHarmless(rounds)) && (turn >= budget.maxModelTurns ==> blocked)
    }

    /** Open a round and answer it. */
    method PlayRound(output: ModelOutput, turn: nat, ghost handed: seq<seq<Message>>)
      returns (pause: bool, blocked: bool)
      requires Asked(turn, handed) && modelTurns == turn && 0 < |output.calls| <= budget.maxProposedPerTurn
      requires replies.Last(turn) == Returned(output)
      modifies this`seenIds, this`toolCallsUsed, this`results, this`approvalRequests, this`pending, this`messages
      modifies this`rounds, clock, registry
      ensures Played(turn, handed, pause, blocked) && turn > 0 && rounds[..turn - 1] == old(rounds)
    {
      ghost var before := rounds;
      pause, blocked := CarryOut(output, turn);
      RoundPlayed(before, rounds, handed, delivered, Terms(), replies);
    }

    /** A reply with calls ends the run only on too many calls, a pause or a used-up budget. */
    method CallTools(output: ModelOutput, turn: nat, ghost handed: seq<seq<Message>>) returns (r: Option<RunResult>)
      requires Asked(turn, handed) && modelTurns == turn && output.calls != []
      requires replies.Last(turn) == Returned(output)
      modifies this`seenIds, this`toolCallsUsed, this`results, this`approvalRequests, this`pending, this`messages
      modifies this`rounds, clock, registry
      ensures if r.None? then Ready(turn + 1, handed) else Done(r.value, handed)
    {
      if |output.calls| > budget.maxProposedPerTurn {
        var stopped := StopAsked(TooManyToolCalls, None, handed);
        return Some(stopped);
      }
      r := UseTools(output, turn, handed);
    }

    /** A played round ends the run on a pause or a used-up budget. */
    method UseTools(output: ModelOutput, turn: nat, ghost handed: seq<seq<Message>>) returns (r: Option<RunResult>)
      requires Asked(turn, handed) && modelTurns == turn && 0 < |output.calls| <= budget.maxProposedPerTurn
      requires replies.Last(turn) == Returned(output)
      modifies this`seenIds, this`toolCallsUsed, this`results, this`approvalRequests, this`pending, this`messages
      modifies this`rounds, clock, registry
      ensures if r.None? then Ready(turn + 1, handed) else Done(r.value, handed)
    {
      var pause, blocked := PlayRound(output, turn, handed);
      r := EndOrGoOn(pause, blocked, turn, handed);
    }

    method EndOrGoOn(pause: bool, blocked: bool, turn: nat, ghost handed: seq<seq<Message>>)
      returns (r: Option<RunResult>)
      requires Played(turn, handed, pause, blocked)
      ensures if r.None? then Ready(turn + 1, handed) else Done(r.value, handed)
    {
      if pause || blocked {
        var stopped := StopPlayed(if pause then ApprovalNeeded else BudgetExceeded, handed);
        return Some(stopped);
      }
      return None;
    }

    /** Act on the model's reply. */
    method React(reply: Attempt<ModelOutput>, turn: nat, ghost handed: seq<seq<Message>>) returns (r: Option<RunResult>)
      requires Asked(turn, handed) && reply == replies.Last(turn)
      modifies this`seenIds, this`toolCallsUsed, this`results, this`approvalRequests, this`pending, this`messages
      modifies this`modelTurns, this`rounds, clock, registry
      ensures if r.None? then Ready(turn + 1, handed) else Done(r.value, handed)
    {
      modelTurns := turn;
      if reply.Raised? {
        var failed := StopAsked(ModelError, None, handed);
        return Some(failed);
      }
      if reply.value.calls != [] {
        r := CallTools(reply.value, turn, handed);
      } else {
        var ended := Conclude(reply.value, turn, handed);
        r := Some(ended);
      }
    }

    /** The wall-time test at the head of a turn. */
    method OutOfTime(turn: nat, ghost handed: seq<seq<Message>>) returns (r: Option<RunResult>)
      requires Ready(turn, handed)
      modifies clock
      ensures if r.None? then Ready(turn, handed) else Done(r.value, handed)
    {
      var now := Now();
      if now >= deadline {
        HarmlessFlags(rounds);
        var stopped := StopPlayed(WallTimeExceeded, handed);
        return Some(stopped);
      }
      return None;
    }

    /** Start the model call of this turn. */
    method Consult(turn: nat, ghost handed: seq<seq<Message>>) returns (reply: Attempt<ModelOutput>)
      requires Asked(turn, handed) && turn > 0
      requires replies.reply == model.replies && |model.received| + 1 == replies.first + turn
      modifies model
      ensures Asked(turn, handed) == old(Asked(turn, handed))
      ensures model.received == old(model.received) + [messages] && reply == replies.Last(turn)
    {
      LastReply(replies, model.replies, |model.received|, turn);
      reply := model.Generate(messages);
    }

    /** Hand the transcript to the model and act on its reply. */
    method Ask(turn: nat, ghost handed: seq<seq<Message>>) returns (r: Option<RunResult>)
      requires Ready(turn, handed)
      requires replies.reply == model.replies && |model.received| == replies.first + |handed|
      modifies this`seenIds, this`toolCallsUsed, this`results, this`approvalRequests, this`pending, this`messages
      modifies this`delivered, this`modelTurns, this`rounds, clock, registry, model
      ensures
        var all := handed + [old(messages)];
        if r.None? then Ready(turn + 1, all) else Done(r.value, all)
      ensures model.received == old(model.received) + [old(messages)]
    {
      ghost var all := handed + [messages];
      HandOver(turn, handed);
      var reply := Consult(turn, all);
      r := React(reply, turn, all);
    }

    /** One turn: it returns a result, or leaves the run ready for a turn that still exists. */
    method Turn(turn: nat, ghost handed: seq<seq<Message>>)
      returns (r: Option<RunResult>, ghost sent: seq<seq<Message>>)
      requires Ready(turn, handed)
      requires replies.reply == model.replies && |model.received| == replies.first + |handed|
      modifies this`seenIds, this`toolCallsUsed, this`results, this`approvalRequests, this`pending, this`messages
      modifies this`delivered, this`modelTurns, this`rounds, clock, registry, model
      ensures if r.None? then Ready(turn + 1, handed + sent) else Done(r.value, handed + sent)
      ensures model.received == old(model.received) + sent
    {
      sent := [];
      ConcatNothing(handed);
      ConcatNothing(model.received);
      r := OutOfTime(turn, handed);
      if r.None? {
        sent := [messages];
        r := Ask(turn, handed);
      }
    }

    /** The loop. It ends by returning from inside: no turn beyond the last one is ever reached. */
    method Loop() returns (r: RunResult, ghost handed: seq<seq<Message>>)
      requires Ready(1, []) && replies == Replies(model.replies, |model.received|)
      modifies this`seenIds, this`toolCallsUsed, this`results, this`approvalRequests, this`pending, this`messages
      modifies this`delivered, this`modelTurns, this`rounds, clock, registry, model
      ensures Done(r, handed) && model.received == old(model.received) + handed
    {
      handed := [];
      var turn := 1;
      while turn <= budget.maxModelTurns
        invariant turn <= budget.maxModelTurns && Ready(turn, handed)
        invariant model.received == old(model.received) + handed
      {
        ghost var sent;
        var stopped;
        stopped, sent := Turn(turn, handed);
        Concat(old(model.received), handed, sent);
        handed := handed + sent;
        if stopped.Some? { return stopped.value, handed; }
        turn := turn + 1;
      }
      assert false;
    }

    /** The loop, with everything its result stands for. */
    method Account() returns (r: RunResult, ghost handed: seq<seq<Message>>)
      requires Ready(1, []) && replies == Replies(model.replies, |model.received|)
      modifies this`seenIds, this`toolCallsUsed, this`results, this`approvalRequests, this`pending, this`messages
      modifies this`delivered, this`modelTurns, this`rounds, clock, registry, model
      ensures model.received == old(model.received) + handed
      ensures Accounted(r, rounds, handed, Terms(), replies, env, |registry.runnerCalls| - priorRuns, clock.ticks)
    {
      r, handed := Loop();
      ghost var books, past, terms := Books(), rounds, Terms();
      DoneIsAccounted(r, books, past, handed, terms, replies, env);
    }
  }

  /** Run the loop on a user text; the text is checked before anything is touched. */
  method Run(userText: string, prompt: string, correlationId: string, budget: Budget, env: Environment, model: Model,
             clock: Clock, registry: ToolRegistry)
    returns (r: Attempt<RunResult>, ghost rounds: seq<Round>, ghost handed: seq<seq<Message>>)
    requires budget.Valid() && HexDigests(env.text) && RendersPlain(env.render) && registry.SpecsValid()
    modifies model, clock, registry
    ensures r.Raised? <==> |env.text.strip(userText)| == 0 || |env.text.strip(userText)| > budget.maxTaskChars
    ensures r.Raised? ==> model.received == old(model.received) && registry.runnerCalls == old(registry.runnerCalls)
    ensures r.Returned? ==>
      && model.received == old(model.received) + handed
      && Accounted(
           r.value, rounds, handed,
           SettingOf(userText, prompt, budget, env, clock.reading(old(clock.ticks)), clock.reading, registry),
           Replies(model.replies, |old(model.received)|), env,
           |registry.runnerCalls| - |old(registry.runnerCalls)|, clock.ticks)
  {
    var user := env.text.strip(userText);
    rounds, handed := [], [];
    if |user| == 0 || |user| > budget.maxTaskChars { return Raised, rounds, handed; }
    var result;
    result, rounds, handed := RunText(userText, prompt, correlationId, budget, env, model, clock, registry);
    r := Returned(result);
  }

  /** The run of a text that passed the checks. */
  method RunText(userText: string, prompt: string, correlationId: string, budget: Budget, env: Environment,
                 model: Model, clock: Clock, registry: ToolRegistry)
    returns (result: RunResult, ghost rounds: seq<Round>, ghost handed: seq<seq<Message>>)
    requires budget.Valid() && HexDigests(env.text) && RendersPlain(env.render) && registry.SpecsValid()
    modifies model, clock, registry
    ensures model.received == old(model.received) + handed
    ensures Accounted(
      result, rounds, handed,
      SettingOf(userText, prompt, budget, env, clock.reading(old(clock.ticks)), clock.reading, registry),
      Replies(model.replies, |old(model.received)|), env,
      |registry.runnerCalls| - |old(registry.runnerCalls)|, clock.ticks)
  {
    var user := env.text.strip(userText);
    ghost var replies := Replies(model.replies, |model.received|);
    var start := clock.Monotonic();
    ghost var tools := ToolsOf(registry, env.handler);
    ghost var terms := SettingOf(userText, prompt, budget, env, start, clock.reading, registry);
    var run := new AgentRun(
      budget, env, prompt, user, correlationId, start + budget.softWallTime, model, clock, registry, tools);
    result, handed := run.Account();
    rounds := run.rounds;
    assert run.Terms() == terms && run.replies == replies;
  }
}
