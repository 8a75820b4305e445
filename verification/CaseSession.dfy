/**
 The case service as the code runs it: methods that update rows and append events in place, inside a
 session that commits, or restores everything when an operation raises.
 */
module CaseSession {
  import opened Common
  import opened StateMachine
  import opened CaseService

  /** What a method left behind agrees with the specified result; after a failure the rows are
      whatever the method had done so far. */
  ghost predicate Agrees(raised: Option<Failure>, now: Store, spec: Result<Store, Failure>) {
    match spec
    case Ok(s) => raised.None? && now == s
    case Err(e) => raised == Some(e)
  }

  class CaseSession {
    var cases: map<nat, CaseRow>
    var actions: map<nat, ActionRow>
    var invoices: map<(nat, string), nat>
    var outbox: seq<CaseEvent>

    ghost function State(): Store reads this {
      Store(cases, actions, invoices, outbox)
    }

    constructor ()
      ensures State() == EMPTY
    {
      cases, actions, invoices, outbox := map[], map[], map[], [];
    }

    method Publish(id: nat, at: int, body: Body)
      modifies this`outbox
      ensures State() == Emit(old(State()), id, at, body)
    {
      outbox := outbox + [CaseEvent(id, at, body)];
    }

    method Touch(id: nat)
      requires id in cases
      modifies this`cases
      ensures cases == old(cases)[id := Touched(old(cases)[id])]
    {
      cases := cases[id := cases[id].(version := cases[id].version + 1)];
    }

    method MoveTo(id: nat, to: CaseStatus, reason: Option<string>, now: int) returns (raised: Option<Failure>)
      requires id in cases
      modifies this`cases, this`outbox
      ensures Agrees(raised, State(), SetStatus(old(State()), id, to, reason, now))
    {
      var src := cases[id].status;
      if !Legal(src, to) {
        return Some(IllegalTransition);
      }
      cases := cases[id := cases[id].(status := to)];
      if IsTerminal(to) {
        cases := cases[id := cases[id].(resolvedAt := Some(now))];
      }
      Publish(id, now, StateChanged(src, to, reason));
      if IsTerminal(to) {
        Publish(id, now, CaseClosed(to, reason));
      }
      return None;
    }

    method OpenCase(tenant: nat, id: nat, refs: seq<string>, priority: nat, now: int) returns (raised: Option<Failure>)
      modifies this
      ensures Agrees(raised, State(), CreateCase(old(State()), tenant, id, refs, priority, now))
    {
      if refs == [] {
        return Some(Invalid);
      }
      var taken := AnyClaimed(tenant, refs);
      if taken || id in cases || !NoRepeats(refs) {
        return Some(Conflict);
      }
      cases := cases[id := CaseRow(tenant, New, Autonomous, None, priority, None, 1)];
      ClaimAll(tenant, refs, id);
      Publish(id, now, Created);
      return None;
    }

    method AnyClaimed(tenant: nat, refs: seq<string>) returns (taken: bool)
      ensures taken <==> exists r :: r in refs && (tenant, r) in invoices
    {
      for i := 0 to |refs|
        invariant forall j :: 0 <= j < i ==> (tenant, refs[j]) !in invoices
      {
        if (tenant, refs[i]) in invoices {
          return true;
        }
      }
      return false;
    }

    method ClaimAll(tenant: nat, refs: seq<string>, id: nat)
      modifies this`invoices
      ensures invoices == old(invoices) + map k | k in ClaimKeys(tenant, refs) :: id
    {
      for i := 0 to |refs|
        invariant invoices == old(invoices) + map k | k in ClaimKeys(tenant, refs[..i]) :: id
      {
        assert refs[..i + 1] == refs[..i] + [refs[i]];
        assert ClaimKeys(tenant, refs[..i + 1]) == ClaimKeys(tenant, refs[..i]) + {(tenant, refs[i])};
        invoices := invoices[(tenant, refs[i]) := id];
      }
      assert refs[..|refs|] == refs;
    }

    method ChangeStatus(id: nat, to: CaseStatus, reason: Option<string>, expected: Option<nat>, now: int)
      returns (raised: Option<Failure>)
      requires id in cases
      modifies this`cases, this`outbox
      ensures Agrees(raised, State(), TransitionCase(old(State()), id, to, reason, expected, now))
    {
      if expected.Some? && cases[id].version != expected.value {
        return Some(Conflict);
      }
      Touch(id);
      raised := MoveTo(id, to, reason, now);
    }

    method RecordTriage(id: nat, cause: string, priority: Option<nat>, now: int) returns (raised: Option<Failure>)
      requires id in cases
      modifies this`cases, this`outbox
      ensures Agrees(raised, State(), ApplyTriage(old(State()), id, cause, priority, now))
    {
      Touch(id);
      cases := cases[id := cases[id].(rootCause := Some(cause))];
      if priority.Some? {
        cases := cases[id := cases[id].(priority := priority.value)];
      }
      if cases[id].status == New {
        raised := MoveTo(id, Triaged, None, now);
      } else {
        raised := None;
      }
    }

    method SetMode(id: nat, human: bool, now: int) returns (raised: Option<Failure>)
      requires id in cases
      modifies this`cases, this`outbox
      ensures Agrees(raised, State(), if human then TakeOver(old(State()), id, now)
          else ReleaseCase(old(State()), id, now))
    {
      if human && IsTerminal(cases[id].status) {
        return Some(Conflict);
      }
      Touch(id);
      if (cases[id].mode == HumanControl) == human {
        return Some(Conflict);
      }
      cases := cases[id := cases[id].(mode := if human then HumanControl else Autonomous)];
      Publish(id, now, if human then TakenOver else Released);
      return None;
    }

    method AddProposal(id: nat, newAction: nat, t: ActionType, d: Decision, role: RoleField, now: int)
      returns (raised: Option<Failure>)
      requires id in cases
      modifies this`cases, this`actions, this`outbox
      ensures Agrees(raised, State(), ProposeAction(old(State()), id, newAction, t, d, role, now))
    {
      if IsTerminal(cases[id].status) || newAction in actions {
        return Some(Conflict);
      }
      Touch(id);
      actions := actions[newAction := ActionRow(id, t, d, role, InitialStatus(d), None, None, None)];
      Publish(id, now, ActionProposed(newAction, d));
      if d == RequireApproval && cases[id].status != PendingApproval {
        Touch(id);
        raised := MoveTo(id, PendingApproval, None, now);
      } else {
        raised := None;
      }
    }

    method SettleCase(id: nat, verdict: ActionStatus, now: int) returns (raised: Option<Failure>)
      requires id in cases
      modifies this`cases, this`outbox
      ensures Agrees(raised, State(), Settle(old(State()), id, verdict, now))
    {
      var stillPending := exists b :: b in actions && actions[b].caseId == id && actions[b].status == Pending;
      if !stillPending && cases[id].status == PendingApproval {
        Touch(id);
        raised := MoveTo(id, if verdict == Rejected then Investigating
            else ActionTaken, Some(DecisionReason(verdict)), now);
      } else {
        raised := None;
      }
    }

    method RecordDecision(id: nat, a: nat, p: Principal, verdict: ActionStatus, humanFinal: Option<string>,
                          expected: Option<nat>, now: int)
      returns (raised: Option<Failure>)
      requires id in cases && a in actions
      modifies this`cases, this`actions, this`outbox
      ensures Agrees(raised, State(), DecideAction(old(State()), id, a, p, verdict, humanFinal, expected, now))
    {
      if verdict !in {Approved, Edited, Rejected} {
        return Some(Invalid);
      }
      if actions[a].status != Pending {
        return Some(Conflict);
      }
      match actions[a].requiredRole {
        case AnyRole =>
        case UnknownRole(_) => return Some(BadRole);
        case RoleAtLeast(role) =>
          if !p.AtLeast(role) {
            return Some(Forbidden);
          }
      }
      if expected.Some? && cases[id].version != expected.value {
        return Some(Conflict);
      }
      Touch(id);
      actions := actions[a := actions[a].(status := verdict, decidedBy := Some(p))];
      if verdict == Edited {
        if humanFinal.None? {
          return Some(Invalid);
        }
        actions := actions[a := actions[a].(humanFinal := humanFinal)];
      }
      assert actions == old(actions)[a := old(actions)[a].(
          status := verdict, decidedBy := Some(p),
          humanFinal := if verdict == Edited then humanFinal else old(actions)[a].humanFinal)];
      Publish(id, now, ActionDecided(a, verdict));
      raised := SettleCase(id, verdict, now);
    }

    method RecordExecution(id: nat, a: nat, now: int) returns (raised: Option<Failure>)
      requires id in cases && a in actions
      modifies this`cases, this`actions
      ensures Agrees(raised, State(), Execution(old(State()), id, a, now))
    {
      if actions[a].status !in {Approved, Edited} {
        return Some(Conflict);
      }
      Touch(id);
      var done := if actions[a].decision == Allow && actions[a].decidedBy.None? then AutoExecuted else Executed;
      actions := actions[a := actions[a].(status := done, executedAt := Some(now))];
      return None;
    }

    method Dispatch(op: Op) returns (raised: Option<Failure>)
      modifies this
      ensures Agrees(raised, State(), Perform(old(State()), op))
    {
      if op.Create? {
        raised := OpenCase(op.tenant, op.newCase, op.refs, op.priority, op.now);
        return;
      }
      if op.caseId !in cases || cases[op.caseId].tenant != op.tenant {
        return Some(NotFound);
      }
      if (op.Decide? || op.MarkExecuted?) && (op.action !in actions || actions[op.action].caseId != op.caseId) {
        return Some(NotFound);
      }
      match op
      case Transition(_, id, to, reason, expected, now) => raised := ChangeStatus(id, to, reason, expected, now);
      case Triage(_, id, cause, priority, now) => raised := RecordTriage(id, cause, priority, now);
      case Takeover(_, id, now) => raised := SetMode(id, true, now);
      case Release(_, id, now) => raised := SetMode(id, false, now);
      case Propose(_, id, a, t, d, role, now) => raised := AddProposal(id, a, t, d, role, now);
      case Decide(_, id, a, p, verdict, final, expected, now) =>
        raised := RecordDecision(id, a, p, verdict, final, expected, now);
      case MarkExecuted(_, id, a, now) => raised := RecordExecution(id, a, now);
    }

    /** `async with db.session()`: all of the operation or, when it raises, none of it. */
    method Execute(op: Op) returns (raised: Option<Failure>)
      modifies this
      ensures State() == Step(old(State()), op)
      ensures Perform(old(State()), op) == match raised case None => Ok(State()) case Some(e) => Err(e)
    {
      var c, a, i, o := cases, actions, invoices, outbox;
      raised := Dispatch(op);
      if raised.Some? {
        cases, actions, invoices, outbox := c, a, i, o;
      }
    }
  }
}
