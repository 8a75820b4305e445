/** The invoke pipeline as the code runs it: one mutable audit row carried through the steps. */
module ToolService {
  import opened Common
  import opened StateMachine
  import opened ToolGateway
  import C = CaseService
  import CaseSession

  class ToolService {
    const cases: CaseSession.CaseSession
    var audit: seq<Invocation>

    ghost function State(): Gateway reads this, cases {
      Gateway(cases.State(), audit)
    }

    constructor (cases: CaseSession.CaseSession)
      ensures this.cases == cases && audit == []
    {
      this.cases := cases;
      audit := [];
    }

    method Audit(row: Invocation) returns (inserted: bool)
      modifies this`audit
      ensures inserted <==> !Collides(old(audit), row)
      ensures audit == if inserted then old(audit) + [row] else old(audit)
    {
      var clash := false;
      if row.status == Success && row.key.Some? {
        for i := 0 to |audit|
          invariant !clash && forall j :: 0 <= j < i ==> !Succeeded(audit[j], row.tenant, row.tool, row.key)
        {
          if Succeeded(audit[i], row.tenant, row.tool, row.key) {
            return false;
          }
        }
      }
      audit := audit + [row];
      return true;
    }

    method RunEffects(ops: seq<C.Op>)
      modifies cases
      ensures cases.State() == C.Run(old(cases.State()), ops)
    {
      var i := 0;
      while i < |ops|
        invariant 0 <= i <= |ops|
        invariant C.Run(cases.State(), ops[i..]) == C.Run(old(cases.State()), ops)
      {
        assert ops[i..][1..] == ops[i + 1..];
        var _ := cases.Execute(ops[i]);
        i := i + 1;
      }
    }

    method AskGate(spec: ToolSpec, req: Request, w: World) returns (verdict: GateResult)
      ensures verdict == Gate(cases.State(), spec, req, w)
    {
      if w.policy.None? {
        return Stop(Errored, None);
      }
      if spec.name == "propose_action" {
        return Pass(w.policy, None);
      }
      if w.policy.value == Deny {
        return Stop(Refused, w.policy);
      }
      var backing: Option<C.ActionRow> := None;
      if w.policy.value == RequireApproval {
        if req.approval.None? || req.caseId.None? {
          return Stop(NeedsApproval, w.policy);
        }
        var id, ref := req.caseId.value, req.approval.value;
        if id !in cases.cases || cases.cases[id].tenant != req.tenant
           || ref !in cases.actions || cases.actions[ref].caseId != id {
          return Stop(Errored, w.policy);
        }
        var action := cases.actions[ref];
        if action.status != Approved && action.status != Edited {
          return Stop(NeedsApproval, w.policy);
        }
        if spec.target != Some(Kind(action.actionType)) {
          return Stop(NeedsApproval, w.policy);
        }
        if action.executedAt.Some? {
          return Stop(NeedsApproval, w.policy);
        }
        if action.status == Edited && action.humanFinal.Some? && !w.editValid {
          return Stop(Errored, w.policy);
        }
        backing := Some(action);
      }
      return Pass(w.policy, backing);
    }

    /** Steps 1 to 4: None lets the call through, Some is where it ended. */
    method Admit(spec: ToolSpec, req: Request, w: World, row0: Invocation)
      returns (row: Invocation, answer: Option<Response>, backing: Option<C.ActionRow>)
      requires row0 == NewRow(spec, req)
      ensures row.approval == req.approval
      ensures Process(State(), spec, req, w)
           == match answer
              case Some(r) => Plan(cases.State(), row, r, false, false, None)
              case None => RunHandler(State(), spec, req, w, row, backing)
    {
      row, answer, backing := row0, None, None;
      if !w.argsValid {
        row := row.(status := RejectedArgs);
        return row, Some(Declined(RejectedArgs)), None;
      }
      if !w.allowed {
        row := row.(status := RateLimited);
        return row, Some(Declined(RateLimited)), None;
      }
      if spec.sideEffect {
        if req.key.None? || req.key.value == "" {
          row := row.(status := RejectedArgs);
          return row, Some(Declined(RejectedArgs)), None;
        }
        var hit := FindSuccess(audit, req.tenant, spec.name, req.key);
        if hit.Some? {
          row := row.(status := Cached, decision := hit.value.decision, result := hit.value.result);
          return row, Some(Replied(hit.value.result, true)), None;
        }
        if !req.live {
          if spec.policyCheck {
            if w.policy.None? {
              row := row.(status := Errored);
              return row, Some(Declined(Errored)), None;
            }
            row := row.(decision := w.policy);
            if w.policy.value == Deny {
              row := row.(status := Refused);
              return row, Some(Declined(Refused)), None;
            }
          }
          row := row.(status := Shadow);
          return row, Some(Replied(None, false)), None;
        }
      }
      if spec.policyCheck {
        var verdict := AskGate(spec, req, w);
        match verdict
        case Stop(status, decision) =>
          row := row.(decision := decision, status := status);
          return row, Some(Declined(status)), None;
        case Pass(decision, action) =>
          row := row.(decision := decision);
          backing := action;
      }
    }

    method Invoke(spec: ToolSpec, req: Request, w: World) returns (response: Response, ghost o: Outcome)
      requires cases as object != this
      modifies this, cases
      ensures o == ToolGateway.Invoke(old(State()), spec, req, w)
      ensures State() == o.after && response == o.response
    {
      o := ToolGateway.Invoke(State(), spec, req, w);
      hide Process, Gate, FindSuccess, Collides, C.Step, C.Run;
      var row, answer, backing := Admit(spec, req, w, NewRow(spec, req));
      if answer.Some? {
        response := answer.value;
      } else {
        RunEffects(w.effects);
        match w.end {
          case Completed(result) =>
            if row.approval.Some? && req.caseId.Some? && spec.name != "propose_action" {
              var _ := cases.Execute(C.MarkExecuted(req.tenant, req.caseId.value, row.approval.value, w.now));
            }
            row := row.(status := Success, result := Some(result));
            response := Replied(Some(w.trim(result)), false);
          case Raised(code) =>
            row := row.(status := StatusOf(code));
            response := Declined(row.status);
          case Failed =>
            row := row.(status := Errored);
            response := Declined(Errored);
        }
      }
      var inserted := Audit(row);
      if !inserted {
        response := AuditFailed;
      }
    }
  }
}
