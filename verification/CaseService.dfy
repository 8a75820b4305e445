/**
 The case service: each operation validates, mutates the case and its actions, and appends outbox
 events, in one transaction that rolls back as a whole when anything raises.
 */
module CaseService {
  import opened Common
  import opened StateMachine

  /** `required_role` of an action: absent or empty, a known role, or a text that is no role. */
  datatype RoleField = AnyRole | RoleAtLeast(role: Role) | UnknownRole(text: string)

  datatype CaseRow = CaseRow(
    tenant: nat, status: CaseStatus, mode: AgentMode, rootCause: Option<string>, priority: nat,
    resolvedAt: Option<int>, version: nat)

  /** `decidedBy` holds the deciding principal as presented, roles included. */
  datatype ActionRow = ActionRow(
    caseId: nat, actionType: ActionType, decision: Decision, requiredRole: RoleField, status: ActionStatus,
    decidedBy: Option<Principal>, humanFinal: Option<string>, executedAt: Option<int>)

  datatype Body =
    | Created
    | StateChanged(from: CaseStatus, to: CaseStatus, reason: Option<string>)
    | CaseClosed(status: CaseStatus, reason: Option<string>)
    | ActionProposed(action: nat, decision: Decision)
    | ActionDecided(action: nat, verdict: ActionStatus)
    | TakenOver
    | Released

  datatype CaseEvent = CaseEvent(caseId: nat, at: int, body: Body)

  datatype Failure = NotFound | Conflict | Forbidden | Invalid | IllegalTransition | BadRole

  datatype Op =
    | Create(tenant: nat, newCase: nat, refs: seq<string>, priority: nat, now: int)
    | Transition(tenant: nat, caseId: nat, to: CaseStatus, reason: Option<string>, expected: Option<nat>, now: int)
    | Triage(tenant: nat, caseId: nat, cause: string, newPriority: Option<nat>, now: int)
    | Takeover(tenant: nat, caseId: nat, now: int)
    | Release(tenant: nat, caseId: nat, now: int)
    | Propose(tenant: nat, caseId: nat, newAction: nat, actionType: ActionType, decision: Decision,
              requiredRole: RoleField, now: int)
    | Decide(tenant: nat, caseId: nat, action: nat, principal: Principal, verdict: ActionStatus,
             humanFinal: Option<string>, expected: Option<nat>, now: int)
    | MarkExecuted(tenant: nat, caseId: nat, action: nat, now: int)

  datatype Store = Store(
    cases: map<nat, CaseRow>, actions: map<nat, ActionRow>, invoices: map<(nat, string), nat>, outbox: seq<CaseEvent>)

  const EMPTY := Store(map[], map[], map[], [])

  // ---------- specification of the operations ----------

  /** Marks the case row dirty: `updated_at` moves, so the next flush bumps the version. */
  function Touched(c: CaseRow): CaseRow {
    c.(version := c.version + 1)
  }

  function Emit(s: Store, caseId: nat, at: int, body: Body): Store {
    s.(outbox := s.outbox + [CaseEvent(caseId, at, body)])
  }

  function SetStatus(s: Store, id: nat, to: CaseStatus, reason: Option<string>, now: int): Result<Store, Failure>
    requires id in s.cases
  {
    var c := s.cases[id];
    if !Legal(c.status, to) then Err(IllegalTransition)
    else
      var moved := c.(status := to, resolvedAt := if IsTerminal(to) then Some(now) else c.resolvedAt);
      var logged := Emit(s.(cases := s.cases[id := moved]), id, now, StateChanged(c.status, to, reason));
      Ok(if IsTerminal(to) then Emit(logged, id, now, CaseClosed(to, reason)) else logged)
  }

  predicate Visible(s: Store, tenant: nat, id: nat) {
    id in s.cases && s.cases[id].tenant == tenant
  }

  predicate Stale(c: CaseRow, expected: Option<nat>) {
    expected.Some? && expected.value != c.version
  }

  predicate HasPending(s: Store, id: nat) {
    exists a :: a in s.actions && s.actions[a].caseId == id && s.actions[a].status == Pending
  }

  predicate CanDecide(role: RoleField, p: Principal) {
    match role
    case AnyRole => true
    case RoleAtLeast(r) => p.AtLeast(r)
    case UnknownRole(_) => false
  }

  predicate NoRepeats(refs: seq<string>) {
    forall i, j :: 0 <= i < j < |refs| ==> refs[i] != refs[j]
  }

  function ClaimKeys(tenant: nat, refs: seq<string>): set<(nat, string)> {
    set r | r in refs :: (tenant, r)
  }

  function CreateCase(s: Store, tenant: nat, id: nat, refs: seq<string>, priority: nat, now: int)
      : Result<Store, Failure>
  {
    if refs == [] then Err(Invalid)
    else if id in s.cases || !NoRepeats(refs) || exists r :: r in refs && (tenant, r) in s.invoices then Err(Conflict)
    else
      var claims := map k | k in ClaimKeys(tenant, refs) :: id;
      Ok(Emit(s.(cases := s.cases[id := CaseRow(tenant, New, Autonomous, None, priority, None, 1)],
                 invoices := s.invoices + claims), id, now, Created))
  }

  function TransitionCase(s: Store, id: nat, to: CaseStatus, reason: Option<string>, expected: Option<nat>, now: int)
    : Result<Store, Failure>
    requires id in s.cases
  {
    if Stale(s.cases[id], expected) then Err(Conflict)
    else SetStatus(s.(cases := s.cases[id := Touched(s.cases[id])]), id, to, reason, now)
  }

  function ApplyTriage(s: Store, id: nat, cause: string, priority: Option<nat>, now: int): Result<Store, Failure>
    requires id in s.cases
  {
    var c := Touched(s.cases[id]);
    var c' := c.(rootCause := Some(cause), priority := if priority.Some? then priority.value else c.priority);
    var t := s.(cases := s.cases[id := c']);
    if c.status == New then SetStatus(t, id, Triaged, None, now) else Ok(t)
  }

  function TakeOver(s: Store, id: nat, now: int): Result<Store, Failure>
    requires id in s.cases
  {
    var c := s.cases[id];
    if IsTerminal(c.status) || c.mode == HumanControl then Err(Conflict)
    else Ok(Emit(s.(cases := s.cases[id := Touched(c).(mode := HumanControl)]), id, now, TakenOver))
  }

  function ReleaseCase(s: Store, id: nat, now: int): Result<Store, Failure>
    requires id in s.cases
  {
    var c := s.cases[id];
    if c.mode != HumanControl then Err(Conflict)
    else Ok(Emit(s.(cases := s.cases[id := Touched(c).(mode := Autonomous)]), id, now, Released))
  }

  function InitialStatus(d: Decision): ActionStatus {
    match d
    case Allow => Approved
    case RequireApproval => Pending
    case Deny => Denied
  }

  function ProposeAction(s: Store, id: nat, newAction: nat, t: ActionType, d: Decision, role: RoleField, now: int)
    : Result<Store, Failure>
    requires id in s.cases
  {
    if IsTerminal(s.cases[id].status) || newAction in s.actions then Err(Conflict)
    else
      var action := ActionRow(id, t, d, role, InitialStatus(d), None, None, None);
      var added := Emit(s.(cases := s.cases[id := Touched(s.cases[id])], actions := s.actions[newAction := action]),
                        id, now, ActionProposed(newAction, d));
      if d == RequireApproval && s.cases[id].status != PendingApproval
      then SetStatus(added.(cases := added.cases[id := Touched(added.cases[id])]), id, PendingApproval, None, now)
      else Ok(added)
  }

  function DecisionReason(verdict: ActionStatus): string {
    match verdict
    case Approved => "action approved"
    case Edited => "action edited"
    case _ => "action rejected"
  }

  /** With no other pending action, the decided case goes back to work. */
  function Settle(s: Store, id: nat, verdict: ActionStatus, now: int): Result<Store, Failure>
    requires id in s.cases
  {
    if !HasPending(s, id) && s.cases[id].status == PendingApproval
    then SetStatus(s.(cases := s.cases[id := Touched(s.cases[id])]), id,
                   if verdict == Rejected then Investigating else ActionTaken, Some(DecisionReason(verdict)), now)
    else Ok(s)
  }

  function DecideAction(s: Store, id: nat, a: nat, p: Principal, verdict: ActionStatus, humanFinal: Option<string>,
                        expected: Option<nat>, now: int): Result<Store, Failure>
    requires id in s.cases && a in s.actions
  {
    var action := s.actions[a];
    if verdict !in {Approved, Edited, Rejected} then Err(Invalid)
    else if action.status != Pending then Err(Conflict)
    else if action.requiredRole.UnknownRole? then Err(BadRole)
    else if !CanDecide(action.requiredRole, p) then Err(Forbidden)
    else if Stale(s.cases[id], expected) then Err(Conflict)
    else if verdict == Edited && humanFinal.None? then Err(Invalid)
    else
      var decided := action.(status := verdict, decidedBy := Some(p),
                             humanFinal := if verdict == Edited then humanFinal else action.humanFinal);
      var t := Emit(s.(cases := s.cases[id := Touched(s.cases[id])], actions := s.actions[a := decided]),
                    id, now, ActionDecided(a, verdict));
      Settle(t, id, verdict, now)
  }

  function Execution(s: Store, id: nat, a: nat, now: int): Result<Store, Failure>
    requires id in s.cases && a in s.actions
  {
    var action := s.actions[a];
    if action.status !in {Approved, Edited} then Err(Conflict)
    else
      var done := if action.decision == Allow && action.decidedBy.None? then AutoExecuted else Executed;
      Ok(s.(cases := s.cases[id := Touched(s.cases[id])],
            actions := s.actions[a := action.(status := done, executedAt := Some(now))]))
  }

  function Perform(s: Store, op: Op): Result<Store, Failure> {
    if op.Create? then CreateCase(s, op.tenant, op.newCase, op.refs, op.priority, op.now)
    else if !Visible(s, op.tenant, op.caseId) then Err(NotFound)
    else match op
    case Transition(_, id, to, reason, expected, now) => TransitionCase(s, id, to, reason, expected, now)
    case Triage(_, id, cause, priority, now) => ApplyTriage(s, id, cause, priority, now)
    case Takeover(_, id, now) => TakeOver(s, id, now)
    case Release(_, id, now) => ReleaseCase(s, id, now)
    case Propose(_, id, a, t, d, role, now) => ProposeAction(s, id, a, t, d, role, now)
    case Decide(_, id, a, p, verdict, final, expected, now) =>
      if a !in s.actions || s.actions[a].caseId != id then Err(NotFound)
      else DecideAction(s, id, a, p, verdict, final, expected, now)
    case MarkExecuted(_, id, a, now) =>
      if a !in s.actions || s.actions[a].caseId != id then Err(NotFound) else Execution(s, id, a, now)
  }

  /** One transaction: the new store, or the old one when the operation raised. */
  function Step(s: Store, op: Op): Store {
    var r := Perform(s, op);
    if r.Ok? then r.value else s
  }

  function Run(s: Store, ops: seq<Op>): Store
    decreases |ops|
  {
    if ops == [] then s else Run(Step(s, ops[0]), ops[1..])
  }
}
