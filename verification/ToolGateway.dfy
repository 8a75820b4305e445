/**
 The tool gateway's invoke pipeline: validate, rate limit, idempotency, policy and approval gate, run,
 mark the approval executed, audit. A whole call is one step; the policy answer, the limiter, the
 argument checks and what the handler does to the case service are arbitrary.
 */
module ToolGateway {
  import opened Common
  import opened StateMachine
  import C = CaseService

  datatype Target = Wildcard | Kind(t: ActionType) | Custom(name: string)

  datatype ToolSpec = ToolSpec(name: string, sideEffect: bool, policyCheck: bool, target: Option<Target>)

  const LOW_RISK: set<string> := {"add_case_note", "remember_customer_fact"}

  /** `ToolRegistry.register` accepts the spec. */
  predicate Registrable(t: ToolSpec) {
    (t.policyCheck ==> t.target.Some?) && (t.sideEffect && !t.policyCheck ==> t.name in LOW_RISK)
  }

  predicate IsProposal(t: ToolSpec) {
    t.name == "propose_action"
  }

  datatype Request = Request(tenant: nat, caseId: Option<nat>, key: Option<string>, approval: Option<nat>, live: bool)

  datatype Status =
    | Started | Success | Cached | Shadow | Refused | NeedsApproval | RejectedArgs | RateLimited | Errored

  datatype Invocation = Invocation(
    tenant: nat, caseId: Option<nat>, tool: string, approval: Option<nat>, key: Option<string>,
    status: Status, decision: Option<Decision>, result: Option<nat>)

  /** `code` of a DomainError a handler may raise. */
  datatype Code = PolicyDenied | ApprovalRequired | ValidationError | RateLimitedCode | OtherCode

  datatype End = Completed(result: nat) | Raised(code: Code) | Failed

  /** Everything the pipeline asks others during one call. `policy` is None when no answer came; `trim`
      is what redaction and truncation make of a fresh result. */
  datatype World = World(
    argsValid: bool, allowed: bool, policy: Option<Decision>, editValid: bool, effects: seq<C.Op>, end: End,
    trim: nat -> nat, now: int)

  datatype Gateway = Gateway(store: C.Store, audit: seq<Invocation>)

  datatype Response = Replied(result: Option<nat>, cached: bool) | Declined(status: Status) | AuditFailed

  datatype Outcome = Outcome(
    after: Gateway, response: Response, row: Invocation, ran: bool, completed: bool, backing: Option<C.ActionRow>)

  // ---------- pieces of the pipeline ----------

  function NewRow(spec: ToolSpec, req: Request): Invocation {
    Invocation(req.tenant, req.caseId, spec.name, req.approval, req.key, Started, None, None)
  }

  function StatusOf(code: Code): Status {
    match code
    case PolicyDenied => Refused
    case ApprovalRequired => NeedsApproval
    case ValidationError => RejectedArgs
    case RateLimitedCode => RateLimited
    case OtherCode => Errored
  }

  predicate HasKey(req: Request) {
    req.key.Some? && req.key.value != ""
  }

  predicate Succeeded(row: Invocation, tenant: nat, tool: string, key: Option<string>) {
    row.status == Success && row.tenant == tenant && row.tool == tool && row.key == key
  }

  /** `_cached`: a SUCCESS row of the same tenant, tool and key. */
  function FindSuccess(audit: seq<Invocation>, tenant: nat, tool: string, key: Option<string>): (r: Option<Invocation>)
    ensures r.Some? ==> r.value in audit && Succeeded(r.value, tenant, tool, key)
    ensures r.None? ==> forall i :: 0 <= i < |audit| ==> !Succeeded(audit[i], tenant, tool, key)
  {
    if audit == [] then None
    else if Succeeded(audit[0], tenant, tool, key) then Some(audit[0])
    else
      var r := FindSuccess(audit[1..], tenant, tool, key);
      assert r.None? ==> forall i :: 0 < i < |audit| ==> audit[i] == audit[1..][i - 1];
      r
  }

  /** The unique index on successful (tenant, tool, key) refuses the row. */
  predicate Collides(audit: seq<Invocation>, row: Invocation) {
    row.status == Success && row.key.Some? && FindSuccess(audit, row.tenant, row.tool, row.key).Some?
  }

  datatype GateResult =
    | Pass(decision: Option<Decision>, backing: Option<C.ActionRow>)
    | Stop(status: Status, decision: Option<Decision>)

  function Gate(store: C.Store, spec: ToolSpec, req: Request, w: World): GateResult {
    if w.policy.None? then Stop(Errored, None)
    else if IsProposal(spec) then Pass(w.policy, None)
    else match w.policy.value
    case Deny => Stop(Refused, w.policy)
    case Allow => Pass(w.policy, None)
    case RequireApproval =>
      if req.approval.None? || req.caseId.None? then Stop(NeedsApproval, w.policy)
      else if !C.Visible(store, req.tenant, req.caseId.value) || req.approval.value !in store.actions
              || store.actions[req.approval.value].caseId != req.caseId.value
      then Stop(Errored, w.policy)
      else
        var action := store.actions[req.approval.value];
        if action.status !in {Approved, Edited} then Stop(NeedsApproval, w.policy)
        else if spec.target != Some(Kind(action.actionType)) then Stop(NeedsApproval, w.policy)
        else if action.executedAt.Some? then Stop(NeedsApproval, w.policy)
        else if action.status == Edited && action.humanFinal.Some? && !w.editValid then Stop(Errored, w.policy)
        else Pass(w.policy, Some(action))
  }

  predicate MarksExecuted(spec: ToolSpec, req: Request) {
    req.approval.Some? && req.caseId.Some? && !IsProposal(spec)
  }

  function AfterHandler(store: C.Store, spec: ToolSpec, req: Request, w: World): C.Store {
    var worked := C.Run(store, w.effects);
    if w.end.Completed? && MarksExecuted(spec, req)
    then C.Step(worked, C.MarkExecuted(req.tenant, req.caseId.value, req.approval.value, w.now))
    else worked
  }

  function EndStatus(end: End): Status {
    match end
    case Completed(_) => Success
    case Raised(code) => StatusOf(code)
    case Failed => Errored
  }

  /** A call just before its audit. */
  datatype Plan = Plan(
    store: C.Store, row: Invocation, response: Response, ran: bool, completed: bool, backing: Option<C.ActionRow>)

  function Stopped(g: Gateway, row: Invocation, status: Status): Plan {
    Plan(g.store, row.(status := status), Declined(status), false, false, None)
  }

  function RunHandler(
      g: Gateway, spec: ToolSpec, req: Request, w: World, row: Invocation, backing: Option<C.ActionRow>)
      : Plan
  {
    var store, status := AfterHandler(g.store, spec, req, w), EndStatus(w.end);
    if w.end.Completed? then
      var result := w.end.result;
      Plan(store, row.(status := Success, result := Some(result)), Replied(Some(w.trim(result)), false), true, true,
          backing)
    else Plan(store, row.(status := status), Declined(status), true, false, backing)
  }

  function Simulate(g: Gateway, spec: ToolSpec, w: World, row: Invocation): Plan {
    if spec.policyCheck && w.policy.None? then Stopped(g, row, Errored)
    else if spec.policyCheck && w.policy.value == Deny then Stopped(g, row.(decision := w.policy), Refused)
    else
      var shadow := row.(status := Shadow, decision := if spec.policyCheck then w.policy else None);
      Plan(g.store, shadow, Replied(None, false), false, false, None)
  }

  function Process(g: Gateway, spec: ToolSpec, req: Request, w: World): Plan {
    var row := NewRow(spec, req);
    if !w.argsValid then Stopped(g, row, RejectedArgs)
    else if !w.allowed then Stopped(g, row, RateLimited)
    else if spec.sideEffect && !HasKey(req) then Stopped(g, row, RejectedArgs)
    else
      var hit := if spec.sideEffect then FindSuccess(g.audit, req.tenant, spec.name, req.key) else None;
      if hit.Some? then
        Plan(g.store, row.(status := Cached, decision := hit.value.decision, result := hit.value.result),
             Replied(hit.value.result, true), false, false, None)
      else if !req.live && spec.sideEffect then Simulate(g, spec, w, row)
      else if !spec.policyCheck then RunHandler(g, spec, req, w, row, None)
      else match Gate(g.store, spec, req, w)
      case Stop(status, decision) => Stopped(g, row.(decision := decision), status)
      case Pass(decision, backing) => RunHandler(g, spec, req, w, row.(decision := decision), backing)
  }

  /** `_audit` in its own transaction; a refused insert replaces the response with its exception. */
  function Finish(audit: seq<Invocation>, p: Plan): Outcome {
    if Collides(audit, p.row) then Outcome(Gateway(p.store, audit), AuditFailed, p.row, p.ran, p.completed, p.backing)
    else Outcome(Gateway(p.store, audit + [p.row]), p.response, p.row, p.ran, p.completed, p.backing)
  }

  function Invoke(g: Gateway, spec: ToolSpec, req: Request, w: World): Outcome {
    Finish(g.audit, Process(g, spec, req, w))
  }
}
