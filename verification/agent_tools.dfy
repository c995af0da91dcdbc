/**
 The tool registry: resolve, validate, authorize and run one tool call. The approval handler,
 the runner and the text services are arbitrary functions.
 */
module AgentTools {
  import opened Basics
  import opened JsonSchema

  datatype ToolCall = ToolCall(id: string, name: string, arguments: Json)

  datatype ToolSpec = ToolSpec(
    name: string, exposedName: string, schema: Schema, riskClass: string, sideEffects: string, approvalRequired: bool)
  {
    /** A root schema is an object schema that rejects unknown properties. */
    predicate Valid() {
      name != "" && riskClass != "" && schema.typeName == Some("object") && schema.closed
    }
  }

  datatype Decision = Allow | Deny | ApprovalRequired

  datatype Policy = Policy(
    autoAllowRisks: set<string>, approvalRequiredRisks: set<string>, deniedRisks: set<string>,
    deniedTools: set<string>, approvalRequiredTools: set<string>)
  {
    function Decide(spec: ToolSpec): Decision {
      if spec.name in deniedTools then Deny
      else if spec.riskClass in deniedRisks then Deny
      else if spec.approvalRequired then ApprovalRequired
      else if spec.name in approvalRequiredTools then ApprovalRequired
      else if spec.riskClass in autoAllowRisks then Allow
      else if spec.riskClass in approvalRequiredRisks then ApprovalRequired
      else Deny
    }
  }

  /** The codes results carry. */
  datatype Code =
    | OkCode | ToolResultCode | ToolReportedError | ToolExecutionError | InternalError | InvalidToolResult
    | UnknownTool | InvalidArguments | SecretArgumentForbidden
    | PermissionDenied | ApprovalMissing | ApprovalHandlerError | ApprovalDenied
    | WallTimeExhausted | ModelTurnsExhausted | ToolCallsExhausted | ArgumentsOversized | InternalHarnessError
    | ResultSerializationError | ResultTruncated

  /** The message of a result: free text, a fixed sentence, or one filled in with a name or errors. */
  datatype Note =
    | Free(text: string) | Sentence(about: Code) | HandlerInvalid | NonFiniteArguments
    | ArgumentErrors(errors: seq<Error>) | FailedWith(exception: string) | TruncatedBySize | TruncatedShort

  datatype ToolResult = ToolResult(
    callId: string, toolName: string, status: string, code: Code, message: Note, riskClass: string, data: Json)

  datatype ApprovalRequest = ApprovalRequest(
    callId: string, toolName: string, arguments: Json, argumentsSha256: string, riskClass: string, sideEffects: string)

  datatype HandlerReply = HandlerRaised | InvalidDecision | Decided(approved: bool, reason: string)

  type Handler = ApprovalRequest -> HandlerReply

  /** What the policy said, if it was asked. */
  datatype Ruling = NotEvaluated | Ruled(decision: Decision)

  datatype Approval = NotAsked | Pending | HandlerFailed | Declined | Given

  datatype Execution = Execution(
    result: ToolResult, request: Option<ApprovalRequest>, pauseRequired: bool,
    permissionDecision: Ruling, approvalStatus: Approval)

  datatype RunnerCall = RunnerCall(tool: string, payload: seq<Field>)

  /** A tool error, any other exception by its type's name, an unusable result, or a result. */
  datatype RunnerReply =
    | RunnerFailed(message: string)
    | RunnerRaised(exception: string)
    | Unserializable
    | Ran(status: string, message: string, payload: Json)

  /** Services outside the model: pattern matching, redaction, secret names, hashing. */
  datatype Services = Services(
    matcher: Matcher, redact: string -> string, strip: string -> string, secretName: string -> bool,
    sha256: Json -> string)

  const REDACTED: Json := Str("[redacted]")

  predicate HoldsSecret(v: Json, x: Services) {
    match v
    case Obj(fields) =>
      exists i | 0 <= i < |fields| :: x.secretName(fields[i].key) || HoldsSecret(fields[i].value, x)
    case Arr(items) => exists i | 0 <= i < |items| :: HoldsSecret(items[i], x)
    case Str(s) => x.redact(s) != s
    case _ => false
  }

  predicate HoldsNonFinite(v: Json) {
    match v
    case Obj(fields) => exists i | 0 <= i < |fields| :: HoldsNonFinite(fields[i].value)
    case Arr(items) => exists i | 0 <= i < |items| :: HoldsNonFinite(items[i])
    case Float(f) => !f.Finite?
    case _ => false
  }

  function Sanitize(v: Json, x: Services): Json {
    match v
    case Str(s) => Str(x.redact(s))
    case Obj(fields) =>
      Obj(seq(|fields|, i requires 0 <= i < |fields| =>
        Field(fields[i].key, if x.secretName(fields[i].key) then REDACTED else Sanitize(fields[i].value, x))))
    case Arr(items) => Arr(seq(|items|, i requires 0 <= i < |items| => Sanitize(items[i], x)))
    case _ => v
  }

  // ----- confirmation flags

  /** Flags the harness adds to a payload once a call was approved; none for most tools. */
  function FlagsOf(tool: string): seq<string> {
    if tool == "mcp.call_tool" then ["confirm_process_execution", "confirm_tool_call"]
    else if tool == "mcp.list_tools" then ["confirm_process_execution"]
    else if tool == "memory.prune_expired" || tool == "memory.forget" || tool == "knowledge.ingest"
            || tool == "data.export" || tool == "data.import" || tool == "extension.configure"
            || tool == "profile.activate" || tool == "plugin.create" then ["confirm"]
    else []
  }

  /** The root properties those tools declare. */
  function PropertiesOf(tool: string): set<string> {
    if tool == "mcp.call_tool" then {"server", "tool_name", "arguments", "timeout_seconds"}
    else if tool == "mcp.list_tools" then {"server", "timeout_seconds"}
    else if tool == "memory.prune_expired" then {"now"}
    else if tool == "memory.forget" then {"record_id", "document_id"}
    else if tool == "knowledge.ingest" then {"title", "content", "scope", "metadata", "chunk_chars"}
    else if tool == "data.import" then {"bundle", "mode"}
    else if tool == "extension.configure" then {"surface", "definition", "mode"}
    else if tool == "profile.activate" then {"profile_path", "recommended"}
    else if tool == "plugin.create" then {"plugin_id", "name", "description", "risk_class"}
    else {}
  }

  /** `dict[key] = True`. */
  function SetFlag(fields: seq<Field>, key: string): seq<Field> {
    if fields == [] then [Field(key, Bool(true))]
    else if fields[0].key == key then [Field(key, Bool(true))] + fields[1..]
    else [fields[0]] + SetFlag(fields[1..], key)
  }

  function SetFlags(fields: seq<Field>, keys: seq<string>): seq<Field> {
    if keys == [] then fields else SetFlag(SetFlags(fields, keys[..|keys| - 1]), keys[|keys| - 1])
  }

  lemma {:induction false} SetFlagKeys(fields: seq<Field>, key: string, k: string)
    ensures HasKey(SetFlag(fields, key), k) <==> k == key || HasKey(fields, k)
  {
    var r := SetFlag(fields, key);
    if fields == [] {
      assert r[0].key == key;
    } else if fields[0].key == key {
      assert r[0].key == key;
      forall i | 1 <= i < |fields| ensures r[i] == fields[i] {}
    } else {
      SetFlagKeys(fields[1..], key, k);
      HasKeySplit(fields, k);
      HasKeySplit(r, k);
      assert r[1..] == SetFlag(fields[1..], key);
    }
  }

  lemma {:induction false} HasKeySplit(fields: seq<Field>, k: string)
    requires fields != []
    ensures HasKey(fields, k) <==> fields[0].key == k || HasKey(fields[1..], k)
  {
    var tail := fields[1..];
    if i :| 0 <= i < |fields| && fields[i].key == k {
      if i > 0 { assert tail[i - 1] == fields[i]; }
    }
    if i :| 0 <= i < |tail| && tail[i].key == k { assert fields[i + 1] == tail[i]; }
  }

  lemma {:induction false} SetFlagsKeys(fields: seq<Field>, keys: seq<string>, k: string)
    ensures HasKey(SetFlags(fields, keys), k) <==> k in keys || HasKey(fields, k)
  {
    if keys != [] {
      SetFlagsKeys(fields, keys[..|keys| - 1], k);
      SetFlagKeys(SetFlags(fields, keys[..|keys| - 1]), keys[|keys| - 1], k);
      assert keys == keys[..|keys| - 1] + [keys[|keys| - 1]];
    }
  }

  // ----- authorization

  function RequestFor(call: ToolCall, spec: ToolSpec, x: Services): ApprovalRequest {
    ApprovalRequest(call.id, spec.name, Sanitize(call.arguments, x), x.sha256(call.arguments),
                    spec.riskClass, spec.sideEffects)
  }

  /** The arguments are usable: they can be validated, are valid for the tool, finite, and free of secrets. */
  predicate ArgumentsAccepted(call: ToolCall, spec: ToolSpec, x: Services) {
    && !Overflows(spec.schema, call.arguments)
    && Conforms(spec.schema, call.arguments, x.matcher)
    && !HoldsNonFinite(call.arguments) && !HoldsSecret(call.arguments, x)
  }

  /** The handler approved this exact call. */
  predicate Approved(call: ToolCall, spec: ToolSpec, handler: Option<Handler>, x: Services) {
    handler.Some? && var reply := handler.value(RequestFor(call, spec, x)); reply.Decided? && reply.approved
  }

  predicate Authorized(call: ToolCall, spec: ToolSpec, policy: Policy, handler: Option<Handler>, x: Services) {
    match policy.Decide(spec)
    case Allow => true
    case Deny => false
    case ApprovalRequired => Approved(call, spec, handler, x)
  }

  /** What the runner receives for an authorized call. */
  function Payload(call: ToolCall, spec: ToolSpec, policy: Policy): seq<Field>
    requires call.arguments.Obj?
  {
    if policy.Decide(spec) == ApprovalRequired then SetFlags(call.arguments.fields, FlagsOf(spec.name))
    else call.arguments.fields
  }

  lemma {:induction false} FlagsAreUndeclared(tool: string, flag: string)
    requires flag in FlagsOf(tool)
    ensures flag !in PropertiesOf(tool)
  {
  }

  /** For every tool of the confirmation table under its own schema: a confirmation flag reaches
      the runner exactly when approval was required (and, since the call ran, given). */
  lemma {:induction false} FlagIffApproved(
      call: ToolCall, spec: ToolSpec, policy: Policy, handler: Option<Handler>, x: Services, flag: string)
    requires spec.Valid() && flag in FlagsOf(spec.name)
    requires spec.schema.properties.Keys == PropertiesOf(spec.name)
    requires ArgumentsAccepted(call, spec, x) && Authorized(call, spec, policy, handler, x)
    ensures call.arguments.Obj?
    ensures HasKey(Payload(call, spec, policy), flag) <==>
      policy.Decide(spec) == ApprovalRequired && Approved(call, spec, handler, x)
  {
    FlagsAreUndeclared(spec.name, flag);
    var fields := call.arguments.fields;
    assert !HasKey(fields, flag);
    SetFlagsKeys(fields, FlagsOf(spec.name), flag);
  }

  // ----- execution

  datatype Catalogue = Catalogue(byName: map<string, ToolSpec>, byExposedName: map<string, ToolSpec>)
  {
    function Resolve(name: string): Option<ToolSpec> {
      if name in byName then Some(byName[name])
      else if name in byExposedName then Some(byExposedName[name])
      else None
    }
  }

  /** Canonical and model-visible names are each unique. */
  ghost predicate NamesUnique(specs: seq<ToolSpec>) {
    forall i, j | 0 <= i < j < |specs| ::
      specs[i].name != specs[j].name && specs[i].exposedName != specs[j].exposedName
  }

  ghost predicate IndexOf(index: Catalogue, specs: seq<ToolSpec>) {
    && (forall i | 0 <= i < |specs| ::
          specs[i].name in index.byName && index.byName[specs[i].name] == specs[i]
          && specs[i].exposedName in index.byExposedName && index.byExposedName[specs[i].exposedName] == specs[i])
    && (forall name | name in index.byName :: index.byName[name] in specs && index.byName[name].name == name)
    && (forall name | name in index.byExposedName ::
          index.byExposedName[name] in specs && index.byExposedName[name].exposedName == name)
  }

  /** The registry constructor: raises exactly on a duplicate name of either kind. */
  method BuildIndex(specs: seq<ToolSpec>) returns (r: Attempt<Catalogue>)
    ensures r.Returned? <==> NamesUnique(specs)
    ensures r.Returned? ==> IndexOf(r.value, specs)
  {
    var byName: map<string, ToolSpec>, byExposedName: map<string, ToolSpec> := map[], map[];
    for i := 0 to |specs|
      invariant NamesUnique(specs[..i]) && IndexOf(Catalogue(byName, byExposedName), specs[..i])
    {
      var spec := specs[i];
      ghost var before := specs[..i];
      if spec.name in byName || spec.exposedName in byExposedName {
        ghost var clash := if spec.name in byName then byName[spec.name] else byExposedName[spec.exposedName];
        assert clash in before;
        ghost var j :| 0 <= j < |before| && before[j] == clash;
        assert specs[j] == clash;
        return Raised;
      }
      assert forall j | 0 <= j < i :: before[j] in before;
      byName := byName[spec.name := spec];
      byExposedName := byExposedName[spec.exposedName := spec];
      assert specs[..i + 1] == before + [spec];
    }
    assert specs[..|specs|] == specs;
    return Returned(Catalogue(byName, byExposedName));
  }

  // ----- what the outcome of an execution must be

  /** A refusal: nothing ran, and the result carries no data. */
  ghost predicate Refuses(r: ToolResult, call: ToolCall, tool: string, risk: string, status: string, code: Code,
                          note: Note)
  {
    r == ToolResult(call.id, tool, status, code, note, risk, Obj([]))
  }

  /** The tool itself reported an error in its payload. */
  ghost predicate ReportsError(spec: ToolSpec, safe: Json) {
    spec.name == "mcp.call_tool" && safe.Obj? && HasKey(safe.fields, "is_error")
    && ValueAt(safe.fields, "is_error") == Bool(true)
  }

  /** A result of a tool that ran: an `ok` is a success unless the payload says otherwise, any other
      status passes through, and the data is the sanitized payload. */
  ghost predicate RanAs(r: ToolResult, call: ToolCall, spec: ToolSpec, status: string, message: string, payload: Json,
                        x: Services)
  {
    var safe := Sanitize(payload, x);
    && r.callId == call.id && r.toolName == spec.name && r.riskClass == spec.riskClass
    && r.message == Free(x.redact(message))
    && r.data == (if safe.Obj? then safe else Obj([Field("value", safe)]))
    && (ReportsError(spec, safe) ==> r.status == "error" && r.code == ToolReportedError)
    && (!ReportsError(spec, safe) && status == "ok" ==> r.status == "success" && r.code == OkCode)
    && (!ReportsError(spec, safe) && status != "ok" ==> r.status == status && r.code == ToolResultCode)
  }

  ghost predicate ReplyReported(r: ToolResult, call: ToolCall, spec: ToolSpec, reply: RunnerReply, x: Services) {
    match reply
    case RunnerFailed(message) =>
      Refuses(r, call, spec.name, spec.riskClass, "error", ToolExecutionError, Free(x.redact(message)))
    case RunnerRaised(exception) =>
      Refuses(r, call, spec.name, spec.riskClass, "error", InternalError, FailedWith(exception))
    case Unserializable =>
      Refuses(r, call, spec.name, spec.riskClass, "error", InvalidToolResult, Sentence(InvalidToolResult))
    case Ran(status, message, payload) => RanAs(r, call, spec, status, message, payload, x)
  }

  /** The arguments are rejected before any policy is asked. */
  ghost predicate ArgumentsRefused(e: Execution, call: ToolCall, spec: ToolSpec, x: Services) {
    && e.request.None? && !e.pauseRequired && e.permissionDecision == NotEvaluated && e.approvalStatus == NotAsked
    && if !Conforms(spec.schema, call.arguments, x.matcher) then
         var errors := ErrorsOf(spec.schema, call.arguments, [], x.matcher);
         Refuses(e.result, call, spec.name, spec.riskClass, "error", InvalidArguments,
                 ArgumentErrors(if |errors| <= 8 then errors else errors[..8]))
       else if HoldsNonFinite(call.arguments) then
         Refuses(e.result, call, spec.name, spec.riskClass, "error", InvalidArguments, NonFiniteArguments)
       else
         Refuses(e.result, call, spec.name, spec.riskClass, "error", SecretArgumentForbidden,
                 Sentence(SecretArgumentForbidden))
  }

  /** The policy denies, or an approval is missing, failing or refused. Only a missing or failing
      approval pauses the run. */
  ghost predicate PermissionRefused(
      e: Execution, call: ToolCall, spec: ToolSpec, policy: Policy, handler: Option<Handler>, x: Services)
  {
    if policy.Decide(spec) == Deny then
      && e.request.None? && !e.pauseRequired && e.permissionDecision == Ruled(Deny) && e.approvalStatus == NotAsked
      && Refuses(e.result, call, spec.name, spec.riskClass, "denied", PermissionDenied, Sentence(PermissionDenied))
    else
      && e.request == Some(RequestFor(call, spec, x)) && e.permissionDecision == Ruled(ApprovalRequired)
      && (e.pauseRequired <==> e.approvalStatus in {Pending, HandlerFailed})
      && if handler.None? then
           && e.approvalStatus == Pending
           && e.result == ToolResult(call.id, spec.name, "approval_required", ApprovalMissing,
                                     Sentence(ApprovalMissing), spec.riskClass,
                                     Obj([Field("arguments_sha256", Str(x.sha256(call.arguments)))]))
         else
           match handler.value(RequestFor(call, spec, x))
           case HandlerRaised =>
             && e.approvalStatus == HandlerFailed
             && Refuses(e.result, call, spec.name, spec.riskClass, "approval_required", ApprovalHandlerError,
                        Sentence(ApprovalHandlerError))
           case InvalidDecision =>
             && e.approvalStatus == HandlerFailed
             && Refuses(e.result, call, spec.name, spec.riskClass, "approval_required", ApprovalHandlerError,
                        HandlerInvalid)
           case Decided(_, reason) =>
             && e.approvalStatus == Declined
             && var text := x.redact(x.strip(reason));
                Refuses(e.result, call, spec.name, spec.riskClass, "denied", ApprovalDenied,
                        if text == "" then Sentence(ApprovalDenied) else Free(text))
  }

  /** The call ran: its result is what the runner replied. */
  ghost predicate RunReported(e: Execution, call: ToolCall, spec: ToolSpec, policy: Policy, x: Services,
                              reply: RunnerReply)
  {
    var asked := policy.Decide(spec) == ApprovalRequired;
    && e.request == (if asked then Some(RequestFor(call, spec, x)) else None) && !e.pauseRequired
    && e.permissionDecision == Ruled(policy.Decide(spec)) && e.approvalStatus == (if asked then Given else NotAsked)
    && ReplyReported(e.result, call, spec, reply, x)
  }

  function Refused(call: ToolCall, tool: string, status: string, code: Code, note: Note, risk: string): ToolResult {
    ToolResult(call.id, tool, status, code, note, risk, Obj([]))
  }

  /** The runner is called at most once per execution, exactly when the call is authorized. */
  class ToolRegistry {
    const index: Catalogue
    const policy: Policy
    const services: Services
    const runner: RunnerCall -> RunnerReply
    var runnerCalls: seq<RunnerCall>

    constructor (index: Catalogue, policy: Policy, services: Services, runner: RunnerCall -> RunnerReply)
      ensures this.index == index && this.policy == policy && this.services == services && this.runner == runner
      ensures runnerCalls == []
    {
      this.index, this.policy, this.services, this.runner := index, policy, services, runner;
      runnerCalls := [];
    }

    ghost predicate SpecsValid() {
      (forall name | name in index.byName :: index.byName[name].Valid())
      && (forall name | name in index.byExposedName :: index.byExposedName[name].Valid())
    }

    /** The call resolves, its arguments are accepted, and policy or the handler lets it through. */
    ghost predicate MayRun(call: ToolCall, handler: Option<Handler>) {
      var spec := index.Resolve(call.name);
      spec.Some? && ArgumentsAccepted(call, spec.value, services)
      && Authorized(call, spec.value, policy, handler, services)
    }

    /** What this execution of the call must report. */
    ghost predicate Answers(call: ToolCall, handler: Option<Handler>, e: Execution) {
      var resolved := index.Resolve(call.name);
      if resolved.None? then
        && Refuses(e.result, call, "unknown", "unknown", "error", UnknownTool, Sentence(UnknownTool))
        && e.request.None? && !e.pauseRequired && e.permissionDecision == NotEvaluated && e.approvalStatus == NotAsked
      else
        var spec := resolved.value;
        if !ArgumentsAccepted(call, spec, services) then ArgumentsRefused(e, call, spec, services)
        else if !Authorized(call, spec, policy, handler, services) then
          PermissionRefused(e, call, spec, policy, handler, services)
        else
          call.arguments.Obj?
          && RunReported(e, call, spec, policy, services, runner(RunnerCall(spec.name, Payload(call, spec, policy))))
    }

    /** The canonical name and the risk class a call resolves to. */
    function Label(call: ToolCall): (string, string) {
      var spec := index.Resolve(call.name);
      if spec.Some? then (spec.value.name, spec.value.riskClass) else ("unknown", "unknown")
    }

    method ReportReply(call: ToolCall, spec: ToolSpec, reply: RunnerReply) returns (result: ToolResult)
      ensures ReplyReported(result, call, spec, reply, services)
    {
      match reply {
        case RunnerFailed(message) =>
          result := Refused(call, spec.name, "error", ToolExecutionError, Free(services.redact(message)),
                            spec.riskClass);
        case RunnerRaised(exception) =>
          result := Refused(call, spec.name, "error", InternalError, FailedWith(exception), spec.riskClass);
        case Unserializable =>
          result := Refused(call, spec.name, "error", InvalidToolResult, Sentence(InvalidToolResult), spec.riskClass);
        case Ran(status, message, payload) =>
          var safe := Sanitize(payload, services);
          var reported := spec.name == "mcp.call_tool" && safe.Obj? && HasKey(safe.fields, "is_error")
                          && ValueAt(safe.fields, "is_error") == Bool(true);
          result := ToolResult(
            call.id, spec.name,
            if reported then "error" else if status == "ok" then "success" else status,
            if reported then ToolReportedError else if status == "ok" then OkCode else ToolResultCode,
            Free(services.redact(message)), spec.riskClass,
            if safe.Obj? then safe else Obj([Field("value", safe)]));
      }
    }

    method RunTool(call: ToolCall, spec: ToolSpec, payload: seq<Field>, request: Option<ApprovalRequest>)
      returns (e: Execution)
      modifies this
      ensures runnerCalls == old(runnerCalls) + [RunnerCall(spec.name, payload)]
      ensures ReplyReported(e.result, call, spec, runner(RunnerCall(spec.name, payload)), services)
      ensures e.request == request && !e.pauseRequired
      ensures e.permissionDecision == Ruled(if request.Some? then ApprovalRequired else Allow)
      ensures e.approvalStatus == if request.Some? then Given else NotAsked
    {
      var decision := if request.Some? then ApprovalRequired else Allow;
      var approval := if request.Some? then Given else NotAsked;
      runnerCalls := runnerCalls + [RunnerCall(spec.name, payload)];
      var reply := runner(RunnerCall(spec.name, payload));
      var result := ReportReply(call, spec, reply);
      e := Execution(result, request, false, Ruled(decision), approval);
    }

    /** The handler's answer to a required approval. */
    method AskHandler(call: ToolCall, spec: ToolSpec, handler: Option<Handler>, request: ApprovalRequest)
      returns (refusal: Option<Execution>)
      requires policy.Decide(spec) == ApprovalRequired && request == RequestFor(call, spec, services)
      ensures refusal.None? <==> Approved(call, spec, handler, services)
      ensures refusal.Some? ==> PermissionRefused(refusal.value, call, spec, policy, handler, services)
    {
      var asked := Ruled(ApprovalRequired);
      if handler.None? {
        var data := Obj([Field("arguments_sha256", Str(request.argumentsSha256))]);
        var pending := ToolResult(call.id, spec.name, "approval_required", ApprovalMissing, Sentence(ApprovalMissing),
                                  spec.riskClass, data);
        return Some(Execution(pending, Some(request), true, asked, Pending));
      }
      var reply := handler.value(request);
      match reply {
        case HandlerRaised =>
          var failed := Refused(call, spec.name, "approval_required", ApprovalHandlerError,
                                Sentence(ApprovalHandlerError), spec.riskClass);
          return Some(Execution(failed, Some(request), true, asked, HandlerFailed));
        case InvalidDecision =>
          var failed := Refused(call, spec.name, "approval_required", ApprovalHandlerError, HandlerInvalid,
                                spec.riskClass);
          return Some(Execution(failed, Some(request), true, asked, HandlerFailed));
        case Decided(approved, reason) =>
          if approved { return None; }
          var text := services.redact(services.strip(reason));
          var note := if text == "" then Sentence(ApprovalDenied) else Free(text);
          var denied := Refused(call, spec.name, "denied", ApprovalDenied, note, spec.riskClass);
          return Some(Execution(denied, Some(request), false, asked, Declined));
      }
    }

    /** Policy and approval for a call whose arguments were accepted. */
    method Authorize(call: ToolCall, spec: ToolSpec, handler: Option<Handler>)
      returns (refusal: Option<Execution>, request: Option<ApprovalRequest>)
      ensures refusal.None? <==> Authorized(call, spec, policy, handler, services)
      ensures refusal.None? ==>
        request == if policy.Decide(spec) == ApprovalRequired then Some(RequestFor(call, spec, services)) else None
      ensures refusal.Some? ==> PermissionRefused(refusal.value, call, spec, policy, handler, services)
    {
      refusal, request := None, None;
      var decision := policy.Decide(spec);
      if decision == Deny {
        var denied := Refused(call, spec.name, "denied", PermissionDenied, Sentence(PermissionDenied), spec.riskClass);
        refusal := Some(Execution(denied, None, false, Ruled(Deny), NotAsked));
      } else if decision == ApprovalRequired {
        request := Some(RequestFor(call, spec, services));
        refusal := AskHandler(call, spec, handler, request.value);
      }
    }

    /** Validation of this call's arguments raises out of the registry. */
    ghost predicate ValidationRaises(call: ToolCall) {
      var spec := index.Resolve(call.name);
      spec.Some? && Overflows(spec.value.schema, call.arguments)
    }

    method CheckArguments(call: ToolCall, spec: ToolSpec) returns (r: Attempt<Option<Execution>>)
      ensures r.Raised? <==> Overflows(spec.schema, call.arguments)
      ensures r.Returned? ==>
        && (r.value.None? <==> ArgumentsAccepted(call, spec, services))
        && (r.value.Some? ==> ArgumentsRefused(r.value.value, call, spec, services))
    {
      var errors := ValidateArguments(spec.schema, call.arguments, services.matcher);
      if errors.Raised? { return Raised; }
      var code, note := InvalidArguments, NonFiniteArguments;
      if errors.value != [] {
        note := ArgumentErrors(if |errors.value| <= 8 then errors.value else errors.value[..8]);
      } else if !HoldsNonFinite(call.arguments) {
        if !HoldsSecret(call.arguments, services) { return Returned(None); }
        code, note := SecretArgumentForbidden, Sentence(SecretArgumentForbidden);
      }
      var refused := Refused(call, spec.name, "error", code, note, spec.riskClass);
      return Returned(Some(Execution(refused, None, false, NotEvaluated, NotAsked)));
    }

    /** Execute one call: the runner is called exactly once if the call may run and not at all
        otherwise, and the outcome is the one the call must get. */
    method Execute(call: ToolCall, handler: Option<Handler>) returns (r: Attempt<Execution>)
      requires SpecsValid()
      modifies this
      ensures r.Raised? <==> ValidationRaises(call)
      ensures MayRun(call, handler) ==>
        var spec := index.Resolve(call.name).value;
        call.arguments.Obj?
        && runnerCalls == old(runnerCalls) + [RunnerCall(spec.name, Payload(call, spec, policy))]
      ensures !MayRun(call, handler) ==> runnerCalls == old(runnerCalls)
      ensures r.Returned? ==> Answers(call, handler, r.value)
    {
      var resolved := index.Resolve(call.name);
      if resolved.None? {
        var unknown := Refused(call, "unknown", "error", UnknownTool, Sentence(UnknownTool), "unknown");
        return Returned(Execution(unknown, None, false, NotEvaluated, NotAsked));
      }
      var spec := resolved.value;
      var checked := CheckArguments(call, spec);
      if checked.Raised? { return Raised; }
      if checked.value.Some? { return Returned(checked.value.value); }
      var refusal, request := Authorize(call, spec, handler);
      if refusal.Some? { return Returned(refusal.value); }
      var payload := call.arguments.fields;
      if request.Some? { payload := SetFlags(payload, FlagsOf(spec.name)); }
      var e := RunTool(call, spec, payload, request);
      return Returned(e);
    }
  }

  // ----- bounding a result

  /** `json.dumps` of a result; it may raise on unserializable data. */
  type Render = ToolResult -> Attempt<string>

  function Truncated(extra: seq<Field>): Json { Obj([Field("truncated", Bool(true))] + extra) }

  function Cut(s: string, n: nat): string { if |s| <= n then s else s[..n] }

  function Compacted(result: ToolResult, size: nat): ToolResult {
    result.(message := TruncatedBySize,
            data := Truncated([Field("original_chars", Int(size))]))
  }

  function Shortened(result: ToolResult): ToolResult {
    result.(callId := Cut(result.callId, 96), toolName := Cut(result.toolName, 96), message := TruncatedShort)
  }

  function Minimal(result: ToolResult): ToolResult {
    ToolResult("bounded", "bounded", result.status, ResultTruncated, TruncatedShort, result.riskClass, Truncated([]))
  }

  /** Shrink a result until its rendering fits, keeping its status and risk class. */
  function BoundResult(result: ToolResult, maxChars: nat, render: Render): (r: Attempt<(ToolResult, string)>)
    ensures r.Returned? ==> r.value.0.status == result.status && r.value.0.riskClass == result.riskClass
    ensures r.Returned? ==> render(r.value.0) == Returned(r.value.1)
    ensures r.Returned? && |r.value.1| > maxChars ==> r.value.0 == Minimal(result)
    ensures render(result).Returned? && |render(result).value| <= maxChars ==>
      r == Returned((result, render(result).value))
  {
    var full := render(result);
    if full.Raised? then Raised
    else if |full.value| <= maxChars then Returned((result, full.value))
    else
      var first := Compacted(result, |full.value|);
      var compact := render(first);
      if compact.Raised? then Raised
      else if |compact.value| <= maxChars then Returned((first, compact.value))
      else
        var second := Shortened(first);
        var shorter := render(second);
        if shorter.Raised? then Raised
        else if |shorter.value| <= maxChars then Returned((second, shorter.value))
        else
          var last := Minimal(result);
          var least := render(last);
          if least.Raised? then Raised else Returned((last, least.value))
  }
}
