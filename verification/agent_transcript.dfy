/**
 What a run of the agent loop leaves behind, round by round: a round is one assistant message
 with its tool calls, and the observations made for a first part of them.
 */
module AgentTranscript {
  import opened Basics
  import opened AgentTools
  import opened AgentCalls

  datatype Message =
    | System(content: string)
    | User(content: string)
    | Assistant(content: string, calls: seq<ToolCall>)
    | ToolMessage(callId: string, content: string)

  /** How a call was dealt with: refused by a budget, or counted against the call budget. */
  datatype Permission = BudgetBlocked | ArgumentsTooLarge | HarnessError | Evaluated(ruling: Ruling, approval: Approval)
  {
    /** The call reached the tool registry. */
    predicate Executed() { HarnessError? || Evaluated? }
  }

  /** What was made of one call, and from what: the result before it was bounded, whether the runner
      was called, and the number of counted calls and of clock readings at its budget test. */
  datatype Observation = Observation(
    result: ToolResult, content: string, permission: Permission, request: Option<ApprovalRequest>, pause: bool,
    raw: ToolResult, ran: bool, used: nat, tick: nat)
  {
    predicate Ran() { ran && permission.Executed() }
  }

  datatype Round = Round(content: string, calls: seq<ToolCall>, observations: seq<Observation>)
  {
    predicate Open() { |observations| < |calls| }

    predicate WellFormed() { |observations| <= |calls| }

    predicate Complete() { |observations| == |calls| }

    /** Nothing in the round ends the run. */
    ghost predicate Harmless() {
      Complete() && forall o | o in observations :: !o.pause && !o.permission.BudgetBlocked?
    }
  }

  // ----- the messages of a run

  function ToolMessages(calls: seq<ToolCall>, observations: seq<Observation>): (ms: seq<Message>)
    requires |observations| <= |calls|
    ensures |ms| == |observations|
  {
    seq(|observations|, i requires 0 <= i < |observations| => ToolMessage(calls[i].id, observations[i].content))
  }

  function RoundMessages(round: Round): seq<Message>
    requires round.WellFormed()
  {
    [Assistant(round.content, round.calls)] + ToolMessages(round.calls, round.observations)
  }

  ghost predicate AllWellFormed(rounds: seq<Round>) { forall k | 0 <= k < |rounds| :: rounds[k].WellFormed() }

  ghost predicate AllComplete(rounds: seq<Round>) { forall k | 0 <= k < |rounds| :: rounds[k].Complete() }

  function Body(rounds: seq<Round>): seq<Message>
    requires AllWellFormed(rounds)
  {
    if rounds == [] then []
    else var n := |rounds| - 1; Body(rounds[..n]) + RoundMessages(rounds[n])
  }

  /** The whole transcript: system prompt, user text, then every round in order. */
  function Transcript(prompt: string, user: string, rounds: seq<Round>): seq<Message>
    requires AllWellFormed(rounds)
  {
    [System(prompt), User(user)] + Body(rounds)
  }

  function Observations(rounds: seq<Round>): seq<Observation> {
    if rounds == [] then [] else var n := |rounds| - 1; Observations(rounds[..n]) + rounds[n].observations
  }

  function AllIds(rounds: seq<Round>): seq<string> {
    if rounds == [] then [] else var n := |rounds| - 1; AllIds(rounds[..n]) + IdsOf(rounds[n].calls)
  }

  function Results(observations: seq<Observation>): (r: seq<ToolResult>)
    ensures |r| == |observations|
  {
    seq(|observations|, i requires 0 <= i < |observations| => observations[i].result)
  }

  function Requests(observations: seq<Observation>): seq<ApprovalRequest> {
    if observations == [] then []
    else
      var n := |observations| - 1;
      Requests(observations[..n]) + if observations[n].request.Some? then [observations[n].request.value] else []
  }

  /** Calls counted against the call budget. */
  function Used(observations: seq<Observation>): nat {
    if observations == [] then 0
    else
      var n := |observations| - 1;
      Used(observations[..n]) + if observations[n].permission.BudgetBlocked? then 0 else 1
  }

  /** Calls that reached the runner. */
  function Executions(observations: seq<Observation>): nat {
    if observations == [] then 0
    else
      var n := |observations| - 1;
      Executions(observations[..n]) + if observations[n].Ran() then 1 else 0
  }

  lemma {:induction false} ExecutionsAreUsed(observations: seq<Observation>)
    ensures Executions(observations) <= Used(observations) <= |observations|
  {
    if observations != [] { ExecutionsAreUsed(observations[..|observations| - 1]); }
  }

  /** The ids of the successful observations of one round. */
  function Successes(calls: seq<ToolCall>, observations: seq<Observation>): seq<string>
    requires |observations| <= |calls|
  {
    if observations == [] then []
    else
      var n := |observations| - 1;
      Successes(calls, observations[..n]) + if observations[n].result.status == "success" then [calls[n].id] else []
  }

  /** The ids of all successful observations, in order. */
  function SuccessIds(rounds: seq<Round>): seq<string>
    requires AllWellFormed(rounds)
  {
    if rounds == [] then []
    else var n := |rounds| - 1; SuccessIds(rounds[..n]) + Successes(rounds[n].calls, rounds[n].observations)
  }

  /** Once a call is refused by a budget, so is every later one. */
  ghost predicate AdmittedFirst(observations: seq<Observation>) {
    forall i, j | 0 <= i < j < |observations| ::
      observations[i].permission.BudgetBlocked? ==> observations[j].permission.BudgetBlocked?
  }

  // ----- growing a run

  /** The same run with one more observation in its last round. */
  ghost function Observed(rounds: seq<Round>, o: Observation): seq<Round>
    requires rounds != []
  {
    var n := |rounds| - 1;
    rounds[..n] + [rounds[n].(observations := rounds[n].observations + [o])]
  }

  lemma {:induction false} NewRound(rounds: seq<Round>, round: Round, prompt: string, user: string)
    requires AllWellFormed(rounds) && round.observations == []
    ensures AllWellFormed(rounds + [round])
    ensures Transcript(prompt, user, rounds + [round])
         == Transcript(prompt, user, rounds) + [Assistant(round.content, round.calls)]
    ensures Observations(rounds + [round]) == Observations(rounds)
    ensures AllIds(rounds + [round]) == AllIds(rounds) + IdsOf(round.calls)
    ensures SuccessIds(rounds + [round]) == SuccessIds(rounds)
  {
    assert (rounds + [round])[..|rounds|] == rounds;
    assert Body(rounds + [round]) == Body(rounds) + [Assistant(round.content, round.calls)];
  }

  lemma {:induction false} ObservedMessages(rounds: seq<Round>, o: Observation, prompt: string, user: string)
    requires rounds != [] && AllWellFormed(rounds) && rounds[|rounds| - 1].Open()
    ensures AllWellFormed(Observed(rounds, o))
    ensures var last := rounds[|rounds| - 1];
      Transcript(prompt, user, Observed(rounds, o))
      == Transcript(prompt, user, rounds) + [ToolMessage(last.calls[|last.observations|].id, o.content)]
  {
    var n := |rounds| - 1;
    var last, grown := rounds[n], Observed(rounds, o);
    assert grown[..n] == rounds[..n];
    assert ToolMessages(grown[n].calls, grown[n].observations)
        == ToolMessages(last.calls, last.observations) + [ToolMessage(last.calls[|last.observations|].id, o.content)];
  }

  lemma {:induction false} ObservedFacts(rounds: seq<Round>, o: Observation)
    requires rounds != [] && AllWellFormed(rounds) && rounds[|rounds| - 1].Open()
    ensures Observations(Observed(rounds, o)) == Observations(rounds) + [o]
    ensures AllIds(Observed(rounds, o)) == AllIds(rounds)
  {
    var n := |rounds| - 1;
    assert Observed(rounds, o)[..n] == rounds[..n];
  }

  lemma {:induction false} ObservedSuccesses(rounds: seq<Round>, o: Observation)
    requires rounds != [] && AllWellFormed(rounds) && rounds[|rounds| - 1].Open()
    ensures AllWellFormed(Observed(rounds, o))
    ensures var last := rounds[|rounds| - 1];
      SuccessIds(Observed(rounds, o))
      == SuccessIds(rounds) + if o.result.status == "success" then [last.calls[|last.observations|].id] else []
  {
    var n := |rounds| - 1;
    var last, grown := rounds[n], Observed(rounds, o);
    assert grown[..n] == rounds[..n];
    assert grown[n].observations[..|last.observations|] == last.observations;
  }

  lemma {:induction false} TalliesGrow(observations: seq<Observation>, o: Observation)
    ensures Results(observations + [o]) == Results(observations) + [o.result]
    ensures Requests(observations + [o]) == Requests(observations) + if o.request.Some? then [o.request.value] else []
    ensures Used(observations + [o]) == Used(observations) + if o.permission.BudgetBlocked? then 0 else 1
    ensures Executions(observations + [o]) == Executions(observations) + if o.Ran() then 1 else 0
  {
    assert (observations + [o])[..|observations|] == observations;
  }

  // ----- what the messages themselves show

  function CallIds(messages: seq<Message>): seq<string> {
    if messages == [] then []
    else
      var n := |messages| - 1;
      CallIds(messages[..n]) + if messages[n].Assistant? then IdsOf(messages[n].calls) else []
  }

  function AnsweredIds(messages: seq<Message>): seq<string> {
    if messages == [] then []
    else
      var n := |messages| - 1;
      AnsweredIds(messages[..n]) + if messages[n].ToolMessage? then [messages[n].callId] else []
  }

  /** Each tool call has exactly one tool message, in call order, and none comes before its call. */
  ghost predicate Paired(messages: seq<Message>) {
    && Distinct(CallIds(messages))
    && AnsweredIds(messages) == CallIds(messages)
    && forall k | 0 <= k <= |messages| :: AnsweredIds(messages[..k]) <= CallIds(messages[..k])
  }

  lemma {:induction false} CallIdsConcat(a: seq<Message>, b: seq<Message>)
    ensures CallIds(a + b) == CallIds(a) + CallIds(b)
  {
    if b == [] {
      assert a + b == a;
    } else {
      var n := |b| - 1;
      CallIdsConcat(a, b[..n]);
      assert (a + b)[..|a + b| - 1] == a + b[..n];
    }
  }

  lemma {:induction false} AnsweredConcat(a: seq<Message>, b: seq<Message>)
    ensures AnsweredIds(a + b) == AnsweredIds(a) + AnsweredIds(b)
  {
    if b == [] {
      assert a + b == a;
    } else {
      var n := |b| - 1;
      AnsweredConcat(a, b[..n]);
      assert (a + b)[..|a + b| - 1] == a + b[..n];
    }
  }

  lemma {:induction false} IdsOfConcat(a: seq<Message>, b: seq<Message>)
    ensures CallIds(a + b) == CallIds(a) + CallIds(b)
    ensures AnsweredIds(a + b) == AnsweredIds(a) + AnsweredIds(b)
  {
    CallIdsConcat(a, b);
    AnsweredConcat(a, b);
  }

  lemma {:induction false} ToolMessageIds(calls: seq<ToolCall>, observations: seq<Observation>, k: nat)
    requires k <= |observations| <= |calls|
    ensures CallIds(ToolMessages(calls, observations)[..k]) == []
    ensures AnsweredIds(ToolMessages(calls, observations)[..k]) == IdsOf(calls[..k])
  {
    if k > 0 {
      ToolMessageIds(calls, observations, k - 1);
      var ms := ToolMessages(calls, observations);
      assert ms[..k][..k - 1] == ms[..k - 1];
      assert IdsOf(calls[..k]) == IdsOf(calls[..k - 1]) + [calls[k - 1].id];
    }
  }

  lemma {:induction false} AssistantIds(content: string, calls: seq<ToolCall>)
    ensures CallIds([Assistant(content, calls)]) == IdsOf(calls) && AnsweredIds([Assistant(content, calls)]) == []
  {
    var one := [Assistant(content, calls)];
    assert one[..0] == [];
    assert CallIds(one) == CallIds(one[..0]) + IdsOf(calls);
    assert AnsweredIds(one) == AnsweredIds(one[..0]) + [];
  }

  lemma {:induction false} RoundSlice(round: Round, k: nat)
    requires round.WellFormed() && 0 < k <= |RoundMessages(round)|
    ensures RoundMessages(round)[..k]
         == [Assistant(round.content, round.calls)] + ToolMessages(round.calls, round.observations)[..k - 1]
  {
  }

  lemma {:induction false} JoinedIds(one: seq<Message>, tail: seq<Message>, ids: seq<string>, answered: seq<string>)
    requires CallIds(one) == ids && AnsweredIds(one) == [] && CallIds(tail) == [] && AnsweredIds(tail) == answered
    ensures CallIds(one + tail) == ids && AnsweredIds(one + tail) == answered
  {
    CallIdsConcat(one, tail);
    AnsweredConcat(one, tail);
  }

  /** Ids in the first k messages of one round. */
  lemma {:induction false} RoundPrefixIds(round: Round, k: nat)
    requires round.WellFormed() && 0 < k <= |RoundMessages(round)|
    ensures CallIds(RoundMessages(round)[..k]) == IdsOf(round.calls)
    ensures AnsweredIds(RoundMessages(round)[..k]) == IdsOf(round.calls[..k - 1])
  {
    RoundSlice(round, k);
    AssistantIds(round.content, round.calls);
    ToolMessageIds(round.calls, round.observations, k - 1);
    JoinedIds([Assistant(round.content, round.calls)], ToolMessages(round.calls, round.observations)[..k - 1],
              IdsOf(round.calls), IdsOf(round.calls[..k - 1]));
  }

  lemma {:induction false} RoundIds(round: Round)
    requires round.Complete()
    ensures CallIds(RoundMessages(round)) == IdsOf(round.calls) == AnsweredIds(RoundMessages(round))
  {
    var ms := RoundMessages(round);
    RoundPrefixIds(round, |ms|);
    assert ms[..|ms|] == ms && round.calls[..|round.calls|] == round.calls;
  }

  lemma {:induction false} BodyIds(rounds: seq<Round>)
    requires AllComplete(rounds)
    ensures CallIds(Body(rounds)) == AllIds(rounds) == AnsweredIds(Body(rounds))
  {
    if rounds != [] {
      var n := |rounds| - 1;
      BodyIds(rounds[..n]);
      IdsOfConcat(Body(rounds[..n]), RoundMessages(rounds[n]));
      RoundIds(rounds[n]);
    }
  }

  lemma {:induction false} BodyPrefix(rounds: seq<Round>, k: nat)
    requires AllComplete(rounds) && k <= |Body(rounds)|
    ensures AnsweredIds(Body(rounds)[..k]) <= CallIds(Body(rounds)[..k])
  {
    if rounds != [] {
      var n := |rounds| - 1;
      var front, last := Body(rounds[..n]), RoundMessages(rounds[n]);
      if k <= |front| {
        BodyPrefix(rounds[..n], k);
        assert Body(rounds)[..k] == front[..k];
      } else {
        var j := k - |front|;
        assert Body(rounds)[..k] == front + last[..j];
        IdsOfConcat(front, last[..j]);
        BodyIds(rounds[..n]);
        RoundPrefixIds(rounds[n], j);
        var calls := rounds[n].calls;
        assert IdsOf(calls[..j - 1]) == IdsOf(calls)[..j - 1];
      }
    }
  }

  lemma {:induction false} HeadIds(prompt: string, user: string)
    ensures var head: seq<Message> := [System(prompt), User(user)];
      && CallIds(head) == [] && AnsweredIds(head) == []
      && AnsweredIds(head[..0]) == [] && AnsweredIds(head[..1]) == [] && AnsweredIds(head[..2]) == []
  {
    var head: seq<Message>, one: seq<Message> := [System(prompt), User(user)], [System(prompt)];
    assert one[..0] == [];
    assert !one[0].ToolMessage? && !one[0].Assistant?;
    assert CallIds(one) == [];
    assert AnsweredIds(one) == [];
    assert head[..0] == [] && head[..1] == one && head[..2] == head;
    assert !head[1].ToolMessage?;
    assert AnsweredIds(head) == AnsweredIds(head[..1]) + [];
  }

  lemma {:induction false} TranscriptIds(prompt: string, user: string, rounds: seq<Round>)
    requires AllComplete(rounds)
    ensures CallIds(Transcript(prompt, user, rounds)) == AllIds(rounds) == AnsweredIds(Transcript(prompt, user, rounds))
  {
    HeadIds(prompt, user);
    BodyIds(rounds);
    IdsOfConcat([System(prompt), User(user)], Body(rounds));
  }

  lemma {:induction false} TranscriptPrefix(prompt: string, user: string, rounds: seq<Round>, k: nat)
    requires AllComplete(rounds) && k <= |Transcript(prompt, user, rounds)|
    ensures AnsweredIds(Transcript(prompt, user, rounds)[..k]) <= CallIds(Transcript(prompt, user, rounds)[..k])
  {
    var head: seq<Message>, body, all := [System(prompt), User(user)], Body(rounds), Transcript(prompt, user, rounds);
    HeadIds(prompt, user);
    if k <= 2 {
      assert all[..k] == head[..k] && (k == 0 || k == 1 || k == 2);
      assert AnsweredIds(all[..k]) == [];
    } else {
      assert all[..k] == head + body[..k - 2];
      IdsOfConcat(head, body[..k - 2]);
      BodyPrefix(rounds, k - 2);
    }
  }

  /** A transcript of complete rounds under distinct ids is paired. */
  lemma {:induction false} TranscriptPaired(prompt: string, user: string, rounds: seq<Round>)
    requires AllComplete(rounds) && Distinct(AllIds(rounds))
    ensures Paired(Transcript(prompt, user, rounds))
  {
    TranscriptIds(prompt, user, rounds);
    forall k | 0 <= k <= |Transcript(prompt, user, rounds)|
      ensures AnsweredIds(Transcript(prompt, user, rounds)[..k]) <= CallIds(Transcript(prompt, user, rounds)[..k])
    {
      TranscriptPrefix(prompt, user, rounds, k);
    }
  }
}
