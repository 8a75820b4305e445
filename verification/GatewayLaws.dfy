/**
 What a tool call comes to, said on the call alone: its effect on the case service, the row it is
 audited with, its reply, and which human decision stands behind it.
 */
module GatewayLaws {
  import opened Common
  import opened StateMachine
  import opened ToolGateway
  import C = CaseService
  import I = CaseInvariants
  import L = CaseLifecycle
  import Laws = CaseLaws
  import H = CaseHistory
  import G = GatewayRuns

  // ---------- one call ----------

  /** The audit table holds a success of this tenant, tool and key. */
  predicate DoneBefore(audit: seq<Invocation>, spec: ToolSpec, req: Request) {
    exists i :: 0 <= i < |audit| && audit[i].status == Success && audit[i].tenant == req.tenant
                && audit[i].tool == spec.name && audit[i].key == req.key
  }

  lemma {:induction false} FoundIff(audit: seq<Invocation>, spec: ToolSpec, req: Request)
    ensures FindSuccess(audit, req.tenant, spec.name, req.key).Some? <==> DoneBefore(audit, spec, req)
  {
  }

  predicate Keyless(req: Request) {
    req.key.None? || req.key.value == ""
  }

  /** A call with valid arguments, under the rate limit, and new if it has side effects. */
  predicate Reaches(g: Gateway, spec: ToolSpec, req: Request, w: World) {
    && w.argsValid && w.allowed
    && (spec.sideEffect ==> !Keyless(req) && !DoneBefore(g.audit, spec, req))
  }

  predicate InShadow(spec: ToolSpec, req: Request) {
    spec.sideEffect && !req.live
  }

  /** Outside shadow, a policy-checked call that is no proposal. */
  predicate AtGate(g: Gateway, spec: ToolSpec, req: Request, w: World) {
    Reaches(g, spec, req, w) && !InShadow(spec, req) && spec.policyCheck && spec.name != "propose_action"
  }

  /** The named action exists on the caller's named case. */
  predicate NamesAction(store: C.Store, req: Request) {
    req.caseId.Some? && req.approval.Some? && Laws.OwnCase(store, req.tenant, req.caseId.value)
    && Laws.OwnAction(store, req.caseId.value, req.approval.value)
  }

  predicate Usable(action: C.ActionRow, spec: ToolSpec) {
    action.status in {Approved, Edited} && action.executedAt.None? && spec.target == Some(Kind(action.actionType))
  }

  /** The handler raised this code. */
  predicate RanInto(o: Outcome, w: World, code: Code) {
    o.ran && w.end == Raised(code)
  }

  lemma {:induction false} GateAnswers(store: C.Store, spec: ToolSpec, req: Request, w: World)
    ensures var v := Gate(store, spec, req, w);
            && v.decision == w.policy
            && (v.Stop? ==> v.status in {Refused, NeedsApproval, Errored})
            && (v == Stop(Refused, w.policy) <==> w.policy == Some(Deny) && spec.name != "propose_action")
            && (v == Stop(NeedsApproval, w.policy) <==>
                  && w.policy == Some(RequireApproval) && spec.name != "propose_action"
                  && (req.approval.None? || req.caseId.None?
                      || (NamesAction(store, req) && !Usable(store.actions[req.approval.value], spec))))
  {
  }

  /** A call by where it ends: its handler starts only if nothing stopped it before. */
  lemma {:induction false} EndsAs(g: Gateway, spec: ToolSpec, req: Request, w: World)
    ensures var o, gate := Invoke(g, spec, req, w), Gate(g.store, spec, req, w);
            var starts := Reaches(g, spec, req, w) && !InShadow(spec, req) && (spec.policyCheck ==> gate.Pass?);
            && o.ran == starts
            && o.row.status ==
               if !w.argsValid then RejectedArgs
               else if !w.allowed then RateLimited
               else if spec.sideEffect && Keyless(req) then RejectedArgs
               else if spec.sideEffect && DoneBefore(g.audit, spec, req) then Cached
               else if InShadow(spec, req) then
                 if spec.policyCheck && w.policy.None? then Errored
                 else if spec.policyCheck && w.policy == Some(Deny) then Refused else Shadow
               else if !starts then gate.status
               else match w.end
                    case Completed(_) => Success
                    case Raised(PolicyDenied) => Refused
                    case Raised(ApprovalRequired) => NeedsApproval
                    case Raised(ValidationError) => RejectedArgs
                    case Raised(RateLimitedCode) => RateLimited
                    case _ => Errored
  {
    FoundIff(g.audit, spec, req);
    hide AfterHandler, FindSuccess, DoneBefore, Collides, Gate;
  }

  /** How a call is audited, one status at a time, each with all the ways into it. */
  lemma {:induction false} AuditedAs(g: Gateway, spec: ToolSpec, req: Request, w: World)
    ensures var o := Invoke(g, spec, req, w);
            && (o.row.status == RejectedArgs <==>
                  || !w.argsValid || (w.allowed && spec.sideEffect && Keyless(req))
                  || RanInto(o, w, ValidationError))
            && (o.row.status == RateLimited <==> (w.argsValid && !w.allowed) || RanInto(o, w, RateLimitedCode))
            && (o.row.status == Cached <==>
                  && w.argsValid && w.allowed && spec.sideEffect && !Keyless(req)
                  && DoneBefore(g.audit, spec, req))
            && (o.row.status == Success <==> o.ran && w.end.Completed?)
            && o.row.status != Started
  {
    EndsAs(g, spec, req, w);
    GateAnswers(g.store, spec, req, w);
    hide Invoke, Gate, DoneBefore, NamesAction, Usable, Keyless;
  }

  lemma {:induction false} AuditedAsDenied(g: Gateway, spec: ToolSpec, req: Request, w: World)
    ensures var o := Invoke(g, spec, req, w);
            && (o.row.status == Shadow <==>
                  && Reaches(g, spec, req, w) && InShadow(spec, req)
                  && (spec.policyCheck ==> w.policy.Some? && w.policy != Some(Deny)))
            && (o.row.status == Refused <==>
                  || (&& Reaches(g, spec, req, w) && spec.policyCheck && w.policy == Some(Deny)
                      && (InShadow(spec, req) || spec.name != "propose_action"))
                  || RanInto(o, w, PolicyDenied))
            && (o.row.status == NeedsApproval <==>
                  || (&& AtGate(g, spec, req, w) && w.policy == Some(RequireApproval)
                      && (req.approval.None? || req.caseId.None?
                          || (NamesAction(g.store, req) && !Usable(g.store.actions[req.approval.value], spec))))
                  || RanInto(o, w, ApprovalRequired))
  {
    EndsAs(g, spec, req, w);
    GateAnswers(g.store, spec, req, w);
    hide Invoke, Gate, DoneBefore, NamesAction, Usable, Keyless;
  }

  /** What the audit row says besides: who asked for what, the policy's answer if it was asked and gave one, and
      the result if there is one. */
  lemma {:induction false} AuditRow(g: Gateway, spec: ToolSpec, req: Request, w: World)
    ensures var o := Invoke(g, spec, req, w);
            && o.row == Invocation(req.tenant, req.caseId, spec.name, req.approval, req.key,
                                   o.row.status, o.row.decision, o.row.result)
            && (o.row.status != Cached ==>
                  && o.row.decision == (if Reaches(g, spec, req, w) && spec.policyCheck then w.policy else None)
                  && o.row.result == (if o.ran && w.end.Completed? then Some(w.end.result) else None))
  {
    FoundIff(g.audit, spec, req);
    GateAnswers(g.store, spec, req, w);
    assert HasKey(req) == !Keyless(req);
    hide AfterHandler, FindSuccess, DoneBefore, Collides, Gate, NamesAction, Usable, StatusOf, HasKey, Keyless;
  }

  /** A repeat answers with the row of the earlier success. */
  lemma {:induction false} RepeatRow(g: Gateway, spec: ToolSpec, req: Request, w: World)
    requires Invoke(g, spec, req, w).row.status == Cached
    ensures var o := Invoke(g, spec, req, w);
            exists i :: 0 <= i < |g.audit| && g.audit[i].status == Success && g.audit[i].tenant == req.tenant
                        && g.audit[i].tool == spec.name && g.audit[i].key == req.key
                        && o.row.decision == g.audit[i].decision && o.row.result == g.audit[i].result
  {
    EndsAs(g, spec, req, w);
    GateAnswers(g.store, spec, req, w);
    var hit := FindSuccess(g.audit, req.tenant, spec.name, req.key);
    FoundIff(g.audit, spec, req);
    assert exists i :: 0 <= i < |g.audit| && g.audit[i] == hit.value;
    hide AfterHandler, FindSuccess, DoneBefore, Gate, NamesAction, Usable;
  }

  /** The reply: the trimmed result of a completed call, the stored result of a repeat, an empty one in shadow;
      otherwise the status, unless the audit row itself is refused. */
  lemma {:induction false} ReplyFollowsRow(g: Gateway, spec: ToolSpec, req: Request, w: World)
    ensures var o := Invoke(g, spec, req, w);
            || o.response == AuditFailed
            || o.response == match o.row.status
                             case Success => Replied(Some(w.trim(w.end.result)), false)
                             case Cached => Replied(o.row.result, true)
                             case Shadow => Replied(None, false)
                             case _ => Declined(o.row.status)
  {
    G.GateNeverSucceeds(g.store, spec, req, w);
    hide AfterHandler, FindSuccess, Collides, Gate;
  }

  /** Registration takes exactly a tool of a new name that has a target type if it is policy-checked, and is one of
      the two low-risk ones if it has side effects and is not. */
  lemma {:induction false} RegisterExactly(reg: G.Registry, t: ToolSpec)
    ensures var fits := t.name !in reg && (t.policyCheck ==> t.target.Some?)
                        && (t.sideEffect && !t.policyCheck ==>
                              t.name == "add_case_note" || t.name == "remember_customer_fact");
            G.Register(reg, t) == if fits then reg[t.name := t] else reg
  {
  }

  // ---------- what a call does to the case service ----------

  /** The operations a call has run on the case service. */
  function OpsOf(spec: ToolSpec, req: Request, w: World, o: Outcome): seq<C.Op> {
    if !o.ran then []
    else if o.completed && spec.name != "propose_action" && req.caseId.Some? && req.approval.Some?
    then w.effects + [C.MarkExecuted(req.tenant, req.caseId.value, req.approval.value, w.now)]
    else w.effects
  }

  /** A call that did not run its handler leaves the case service alone; one whose handler did not complete leaves
      what the handler did and no more; a completed one that named a case and an approval, and is no proposal, marks
      that action executed on top of it. */
  lemma {:induction false} StoreAfter(g: Gateway, spec: ToolSpec, req: Request, w: World)
    ensures var o := Invoke(g, spec, req, w);
            && (o.completed <==> o.ran && w.end.Completed?)
            && (!o.ran ==> o.after.store == g.store)
            && (o.ran && !o.completed ==> o.after.store == C.Run(g.store, w.effects))
            && (o.completed ==>
                  o.after.store ==
                  if spec.name != "propose_action" && req.caseId.Some? && req.approval.Some?
                  then C.Step(C.Run(g.store, w.effects),
                              C.MarkExecuted(req.tenant, req.caseId.value, req.approval.value, w.now))
                  else C.Run(g.store, w.effects))
            && o.after.store == C.Run(g.store, OpsOf(spec, req, w, o))
  {
    G.PlanFacts(g, spec, req, w);
    hide Process, C.Step;
    var o := Invoke(g, spec, req, w);
    if o.completed && spec.name != "propose_action" && req.caseId.Some? && req.approval.Some? {
      L.RunSnoc(g.store, w.effects, C.MarkExecuted(req.tenant, req.caseId.value, req.approval.value, w.now));
    }
  }

  /** Apart from what its own handler did, a call turns an action executed exactly when it completed naming it, on
      the caller's own case, approved or edited; and it changes no other action. */
  lemma {:induction false} ExecutesIff(g: Gateway, spec: ToolSpec, req: Request, w: World, a: nat)
    requires I.Inv(g.store)
    ensures var o, worked := Invoke(g, spec, req, w), C.Run(g.store, w.effects);
            var marked := o.completed && spec.name != "propose_action" && req.approval == Some(a)
                          && NamesAction(worked, req) && worked.actions[a].status in {Approved, Edited};
            && (o.ran ==> (L.IsExecuted(o.after.store, a) <==> L.IsExecuted(worked, a) || marked))
            && (o.ran && !marked && a in worked.actions ==>
                  a in o.after.store.actions && o.after.store.actions[a] == worked.actions[a])
            && (marked ==>
                  && !L.IsExecuted(worked, a)
                  && a in o.after.store.actions && o.after.store.actions[a].executedAt == Some(w.now))
  {
    StoreAfter(g, spec, req, w);
    I.RunKeeps(g.store, w.effects);
    var o, worked := Invoke(g, spec, req, w), C.Run(g.store, w.effects);
    assert a in worked.actions ==> I.ActionOk(worked.actions[a]);
    hide Invoke, C.Run, I.Inv;
    if o.completed && spec.name != "propose_action" && req.caseId.Some? && req.approval.Some? {
      Laws.ExecuteExactly(worked, C.MarkExecuted(req.tenant, req.caseId.value, req.approval.value, w.now));
      hide C.Perform;
    }
  }

  // ---------- runs ----------

  /** Every operation the case service has seen along a gateway run, in order. */
  function StoreOps(reg: G.Registry, steps: seq<G.Step>): seq<C.Op> {
    if steps == [] then []
    else
      var front, last := steps[..|steps| - 1], steps[|steps| - 1];
      StoreOps(reg, front) +
      match last
      case CaseOp(op) => [op]
      case Call(tool, req, w) =>
        if tool !in reg then []
        else OpsOf(reg[tool], req, w, Invoke(G.Run(reg, G.START, front).g, reg[tool], req, w))
  }

  lemma {:induction false} RunConcat(s: C.Store, before: seq<C.Op>, after: seq<C.Op>)
    ensures C.Run(s, before + after) == C.Run(C.Run(s, before), after)
    decreases |before|
  {
    if before == [] {
      assert before + after == after;
    } else {
      assert (before + after)[1..] == before[1..] + after;
      RunConcat(C.Step(s, before[0]), before[1..], after);
    }
  }

  /** A gateway run does nothing to the case service but those operations. */
  lemma {:induction false} StoreIsRun(reg: G.Registry, steps: seq<G.Step>)
    ensures G.Run(reg, G.START, steps).g.store == C.Run(C.EMPTY, StoreOps(reg, steps))
    decreases |steps|
  {
    if steps != [] {
      var front, last := steps[..|steps| - 1], steps[|steps| - 1];
      assert steps == front + [last];
      StoreIsRun(reg, front);
      G.RunSnoc(reg, G.START, front, last);
      var t := G.Run(reg, G.START, front);
      hide G.Run, Invoke, OpsOf;
      match last
      case CaseOp(op) =>
        L.RunSnoc(C.EMPTY, StoreOps(reg, front), op);
      case Call(tool, req, w) =>
        if tool !in reg {
          assert StoreOps(reg, front) + [] == StoreOps(reg, front);
        } else {
          StoreAfter(t.g, reg[tool], req, w);
          RunConcat(C.EMPTY, StoreOps(reg, front), OpsOf(reg[tool], req, w, Invoke(t.g, reg[tool], req, w)));
        }
    }
  }

  /** Over all runs, a handler that ran under REQUIRE_APPROVAL rode on an action its human had accepted: unless
      the action had been proposed under ALLOW, the case service had committed, before that step, a decision APPROVED or
      EDITED on it by a principal of the role it requires. */
  lemma {:induction false} HumanSaidYes(reg: G.Registry, steps: seq<G.Step>, i: nat) returns (k: nat)
    requires G.Consistent(reg) && i < |G.Run(reg, G.START, steps).calls|
    requires var r := G.Run(reg, G.START, steps).calls[i];
             && r.outcome.ran && r.spec.policyCheck && r.spec.name != "propose_action"
             && r.outcome.row.decision == Some(RequireApproval)
    ensures k < |steps|
    ensures var r, ops := G.Run(reg, G.START, steps).calls[i], StoreOps(reg, steps[..k]);
            && r.req.approval.Some? && r.outcome.backing.Some?
            && (r.outcome.backing.value.decision == Allow
                || exists j :: 0 <= j < |ops| && H.DecidedAt(ops, j, r.req.approval.value)
                               && ops[j].verdict in {Approved, Edited}
                               && Laws.MayDecide(r.outcome.backing.value.requiredRole, ops[j].principal))
  {
    k := G.CallHappened(reg, steps, i);
    var call, front := steps[k], steps[..k];
    var t, ops, spec := G.Run(reg, G.START, front), StoreOps(reg, front), reg[call.tool];
    StoreIsRun(reg, front);
    G.CallAuthorised(t.g, spec, call.req, call.w);
    L.Reachable(ops);
    var a := call.req.approval.value;
    H.AllSaid(ops, a);
    hide G.Run, Invoke, StoreOps, C.Run;
    var row := t.g.store.actions[a];
    assert I.ActionOk(row);
    hide I.Inv;
    if row.decision != Allow {
      assert row.decidedBy.Some?;
      assert H.OnRecord(ops, a, row);
      var j :| 0 <= j < |ops| && H.DecidedAt(ops, j, a) && H.Reflects(row, ops[j]);
      Laws.MayDecideIff(row.requiredRole, ops[j].principal);
    }
  }

  /** Over all runs, once the case service has committed a decision REJECTED on an action, it never executes and no
      handler ever runs on it. */
  lemma {:induction false} RejectedNeverRuns(reg: G.Registry, steps: seq<G.Step>, j: nat, a: nat)
    requires j < |StoreOps(reg, steps)| && H.DecidedAt(StoreOps(reg, steps), j, a)
    requires StoreOps(reg, steps)[j].verdict == Rejected
    ensures var g := G.Run(reg, G.START, steps).g;
            && !L.IsExecuted(g.store, a)
            && (forall spec: ToolSpec, req: Request, w: World ::
                  var o := Invoke(g, spec, req, w);
                  (spec.policyCheck && spec.name != "propose_action"
                   && o.row.decision == Some(RequireApproval) && req.approval == Some(a)) ==> !o.ran)
  {
    StoreIsRun(reg, steps);
    H.RejectedNeverExecutes(StoreOps(reg, steps), j, a);
    var g := G.Run(reg, G.START, steps).g;
    hide G.Run, Invoke, StoreOps, C.Run;
    forall spec: ToolSpec, req: Request, w: World | spec.policyCheck && spec.name != "propose_action"
                          && Invoke(g, spec, req, w).row.decision == Some(RequireApproval)
                          && req.approval == Some(a)
      ensures !Invoke(g, spec, req, w).ran
    {
      G.CallAuthorised(g, spec, req, w);
    }
  }
}
