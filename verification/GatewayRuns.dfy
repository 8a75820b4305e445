/** Results about runs that mix whole tool calls with case-service operations. */
module GatewayRuns {
  import opened Common
  import opened StateMachine
  import opened ToolGateway
  import C = CaseService
  import I = CaseInvariants
  import L = CaseLifecycle

  // ---------- one call ----------

  predicate Gated(spec: ToolSpec) {
    spec.policyCheck && !IsProposal(spec)
  }

  /** A gated handler only starts under ALLOW, or under REQUIRE_APPROVAL with the named action of this
      case and type, approved or edited. */
  predicate Authorised(store: C.Store, spec: ToolSpec, req: Request, o: Outcome) {
    || o.row.decision == Some(Allow)
    || (&& o.row.decision == Some(RequireApproval)
        && req.approval.Some? && req.caseId.Some? && req.approval.value in store.actions
        && o.backing == Some(store.actions[req.approval.value])
        && C.Visible(store, req.tenant, req.caseId.value)
        && o.backing.value.caseId == req.caseId.value
        && spec.target == Some(Kind(o.backing.value.actionType))
        && o.backing.value.status in {Approved, Edited} && o.backing.value.executedAt.None?)
  }

  lemma {:induction false} CallAuthorised(g: Gateway, spec: ToolSpec, req: Request, w: World)
    ensures var o := Invoke(g, spec, req, w);
            o.ran && spec.policyCheck && spec.name != "propose_action" ==> Authorised(g.store, spec, req, o)
  {
    hide AfterHandler, FindSuccess;
  }

  /** The approval a REQUIRE_APPROVAL call must name. */
  predicate Approval(store: C.Store, spec: ToolSpec, req: Request, w: World) {
    && req.approval.Some? && req.caseId.Some?
    && C.Visible(store, req.tenant, req.caseId.value) && req.approval.value in store.actions
    && var action := store.actions[req.approval.value];
       && action.caseId == req.caseId.value && action.status in {Approved, Edited} && action.executedAt.None?
       && spec.target == Some(Kind(action.actionType))
       && (action.status == Edited && action.humanFinal.Some? ==> w.editValid)
  }

  /** A handler starts exactly when every check of the pipeline passes: nothing else stops a call, and in
      particular an approved call is let through. */
  lemma {:induction false} CallRunsIff(g: Gateway, spec: ToolSpec, req: Request, w: World)
    ensures Invoke(g, spec, req, w).ran <==>
            && w.argsValid && w.allowed
            && (spec.sideEffect ==>
                  HasKey(req) && req.live && FindSuccess(g.audit, req.tenant, spec.name, req.key).None?)
            && (spec.policyCheck ==>
                  && w.policy.Some?
                  && (IsProposal(spec) || w.policy == Some(Allow)
                      || (w.policy == Some(RequireApproval) && Approval(g.store, spec, req, w))))
  {
    hide AfterHandler, FindSuccess;
  }

  lemma {:induction false} GateNeverSucceeds(store: C.Store, spec: ToolSpec, req: Request, w: World)
    ensures var v := Gate(store, spec, req, w); v.Stop? ==> v.status in {Refused, NeedsApproval, Errored}
  {
  }

  lemma {:induction false} PlanFacts(g: Gateway, spec: ToolSpec, req: Request, w: World)
    ensures var p := Process(g, spec, req, w);
            && (p.row.status == Success <==> p.completed) && (p.completed <==> p.ran && w.end.Completed?)
                && p.response != AuditFailed
            && p.row.tool == spec.name && p.row.tenant == req.tenant && p.row.key == req.key
            && (p.ran && spec.sideEffect ==> FindSuccess(g.audit, req.tenant, spec.name, req.key).None?)
            && (spec.sideEffect && !req.live ==> !p.ran)
            && (p.store == if p.ran then AfterHandler(g.store, spec, req, w) else g.store)
  {
    hide AfterHandler, FindSuccess;
    GateNeverSucceeds(g.store, spec, req, w);
    hide Gate;
  }

  /** The one kind of call that is not audited: a read-only tool that completes under a key which
      already has a success row. */
  predicate Unaudited(g: Gateway, spec: ToolSpec, req: Request, w: World) {
    && !spec.sideEffect && req.key.Some? && FindSuccess(g.audit, req.tenant, spec.name, req.key).Some?
    && w.argsValid && w.allowed && (spec.policyCheck ==> Gate(g.store, spec, req, w).Pass?) && w.end.Completed?
  }

  /** Each call of a known tool adds exactly one audit row, SUCCESS iff its handler completed; it adds
      none exactly in the one unaudited case, and then its reply is the exception. */
  lemma {:induction false} CallAudited(g: Gateway, spec: ToolSpec, req: Request, w: World)
    ensures var o := Invoke(g, spec, req, w);
            && (o.row.status == Success <==> o.completed)
            && o.row.tool == spec.name && o.row.tenant == req.tenant && o.row.key == req.key
            && o.after.audit == (if Unaudited(g, spec, req, w) then g.audit else g.audit + [o.row])
            && (o.response == AuditFailed <==> Unaudited(g, spec, req, w))
            && (Unaudited(g, spec, req, w) <==> Collides(g.audit, o.row))
                && (Unaudited(g, spec, req, w) ==> o.completed)
  {
    PlanFacts(g, spec, req, w);
    hide FindSuccess, Gate, AfterHandler;
  }

  /** The exception is real: a read-only tool called twice under one key is audited once, and the second
      call fails after its handler completed. */
  lemma {:induction false} ReadRepeatNotAudited(g: Gateway, spec: ToolSpec, req: Request, w: World)
    requires !spec.sideEffect && !spec.policyCheck && req.key.Some?
    requires w.argsValid && w.allowed && w.end.Completed?
    ensures var first := Invoke(g, spec, req, w);
            var again := Invoke(first.after, spec, req, w);
            again.completed && again.response == AuditFailed && again.after.audit == first.after.audit
  {
    hide AfterHandler;
    var first := Invoke(g, spec, req, w);
    assert first.after.audit == (if Collides(g.audit, first.row) then g.audit else g.audit + [first.row]);
    if !Collides(g.audit, first.row) {
      assert first.after.audit[|g.audit|] == first.row;
      assert Succeeded(first.row, req.tenant, spec.name, req.key);
    }
    assert FindSuccess(first.after.audit, req.tenant, spec.name, req.key).Some?;
  }

  lemma {:induction false} HitAppended(audit: seq<Invocation>, row: Invocation)
    requires row.status == Success && FindSuccess(audit, row.tenant, row.tool, row.key).None?
    ensures FindSuccess(audit + [row], row.tenant, row.tool, row.key) == Some(row)
  {
    if audit == [] {
      assert audit + [row] == [row];
    } else {
      assert (audit + [row])[1..] == audit[1..] + [row];
      HitAppended(audit[1..], row);
    }
  }

  /** A retry of a completed side effect runs nothing and moves no case. It replies with the result the
      first call stored; the first call replied with that result trimmed, so the two replies carry the
      same value exactly when trimming does nothing to it. */
  lemma {:induction false} RetryReplaysStored(
      g: Gateway, spec: ToolSpec, req: Request, w: World, again: World, live: bool)
    requires spec.sideEffect && Invoke(g, spec, req, w).completed && again.argsValid && again.allowed
    ensures w.end.Completed?
    ensures var first := Invoke(g, spec, req, w);
            var retry := Invoke(first.after, spec, req.(live := live), again);
            && first.row.result == Some(w.end.result) && first.response == Replied(Some(w.trim(w.end.result)), false)
            && retry.response == Replied(first.row.result, true)
            && (retry.response.result == first.response.result <==> w.trim(w.end.result) == w.end.result)
            && !retry.ran && retry.after.store == first.after.store
            && retry.row.status == Cached && retry.row.decision == first.row.decision
  {
    PlanFacts(g, spec, req, w);
    var row := Process(g, spec, req, w).row;
    assert row.key == req.key && row.result == Some(w.end.result) && HasKey(req);
    HitAppended(g.audit, row);
    hide FindSuccess, Gate, AfterHandler;
  }

  /** The two replies do differ: a first call whose result 7 is trimmed to 0, and its retry. */
  lemma {:induction false} RetryRepliesUntrimmed()
    ensures var spec := ToolSpec("add_case_note", true, false, None);
            var req := Request(1, None, Some("k"), None, true);
            var w := World(true, true, None, true, [], Completed(7), n => 0, 0);
            var first := Invoke(Gateway(C.EMPTY, []), spec, req, w);
            var retry := Invoke(first.after, spec, req, w);
            Registrable(spec) && first.response == Replied(Some(0), false) && retry.response == Replied(Some(7), true)
  {
    var spec := ToolSpec("add_case_note", true, false, None);
    var req := Request(1, None, Some("k"), None, true);
    var w := World(true, true, None, true, [], Completed(7), n => 0, 0);
    assert FindSuccess([], 1, "add_case_note", Some("k")).None?;
    RetryReplaysStored(Gateway(C.EMPTY, []), spec, req, w, w, true);
  }

  /** Outside LIVE a side-effect tool touches nothing and leaves no row a later lookup can find. */
  lemma {:induction false} ShadowIsInert(
      g: Gateway, spec: ToolSpec, req: Request, w: World, tenant: nat, tool: string, key: Option<string>)
    requires spec.sideEffect && !req.live
    ensures var o := Invoke(g, spec, req, w);
            && !o.ran && o.after.store == g.store
            && FindSuccess(o.after.audit, tenant, tool, key) == FindSuccess(g.audit, tenant, tool, key)
  {
    hide Process, FindSuccess;
    PlanFacts(g, spec, req, w);
    MissKept(g.audit, Process(g, spec, req, w).row, tenant, tool, key);
  }

  lemma {:induction false} MissKept(
      audit: seq<Invocation>, row: Invocation, tenant: nat, tool: string, key: Option<string>)
    requires row.status != Success
    ensures FindSuccess(audit + [row], tenant, tool, key) == FindSuccess(audit, tenant, tool, key)
  {
    if audit == [] {
      assert (audit + [row])[1..] == [];
    } else {
      assert (audit + [row])[1..] == audit[1..] + [row];
      MissKept(audit[1..], row, tenant, tool, key);
    }
  }

  /** A shadow call of a side-effect tool is denied exactly when the live call would have been, with
      the same recorded decision; a proposal is denied in shadow only. */
  lemma {:induction false} ShadowDeniesAsLive(g: Gateway, spec: ToolSpec, req: Request, w: World)
    requires spec.sideEffect && spec.policyCheck
    ensures var live, shadow := Invoke(g, spec, req.(live := true), w), Invoke(g, spec, req.(live := false), w);
            && (!IsProposal(spec) ==> (shadow.row.status == Refused <==> live.row.status == Refused && !live.ran))
            && (IsProposal(spec) ==> (live.row.status == Refused ==> live.ran))
            && (IsProposal(spec) ==> (shadow.row.status == Refused <==>
                  w.argsValid && w.allowed && HasKey(req) && FindSuccess(g.audit, req.tenant, spec.name, req.key).None?
                  && w.policy == Some(Deny)))
  {
  }

  // ---------- runs ----------

  datatype Step = CaseOp(op: C.Op) | Call(tool: string, req: Request, w: World)

  /** One completed gateway call, as history. */
  datatype Record = Record(spec: ToolSpec, req: Request, outcome: Outcome)

  datatype Trace = Trace(g: Gateway, calls: seq<Record>)

  type Registry = map<string, ToolSpec>

  predicate Consistent(reg: Registry) {
    forall n :: n in reg ==> reg[n].name == n
  }

  /** What `register` admits, one tool at a time; a refused registration changes nothing. */
  ghost predicate Governed(reg: Registry) {
    Consistent(reg) && forall n :: n in reg ==> Registrable(reg[n])
  }

  function Register(reg: Registry, t: ToolSpec): Registry {
    if t.name in reg || !Registrable(t) then reg else reg[t.name := t]
  }

  function RegisterAll(tools: seq<ToolSpec>): Registry {
    if tools == [] then map[] else Register(RegisterAll(tools[..|tools| - 1]), tools[|tools| - 1])
  }

  lemma {:induction false} RegisteredIsGoverned(tools: seq<ToolSpec>)
    ensures Governed(RegisterAll(tools))
  {
    if tools != [] {
      RegisteredIsGoverned(tools[..|tools| - 1]);
    }
  }

  function Next(reg: Registry, t: Trace, step: Step): Trace {
    match step
    case CaseOp(op) => t.(g := t.g.(store := C.Step(t.g.store, op)))
    case Call(tool, req, w) =>
      if tool !in reg then t  // unknown tool: not found, nothing recorded
      else
        var o := Invoke(t.g, reg[tool], req, w);
        Trace(o.after, t.calls + [Record(reg[tool], req, o)])
  }

  function Run(reg: Registry, t: Trace, steps: seq<Step>): Trace
    decreases |steps|
  {
    if steps == [] then t else Run(reg, Next(reg, t, steps[0]), steps[1..])
  }

  const START := Trace(Gateway(C.EMPTY, []), [])

  predicate UsedApproval(r: Record) {
    Gated(r.spec) && r.outcome.completed && r.outcome.row.decision == Some(RequireApproval)
  }

  predicate SideEffectDone(r: Record) {
    r.spec.sideEffect && r.outcome.completed
  }

  ghost predicate RecordOk(reg: Registry, r: Record) {
    && r.spec.name in reg && reg[r.spec.name] == r.spec
    && (UsedApproval(r) ==> r.req.approval.Some?)
    && RowMatches(r)
  }

  predicate RowMatches(r: Record) {
    && Succeeded(r.outcome.row, r.req.tenant, r.spec.name, r.req.key) == r.outcome.completed
    && r.outcome.row.tenant == r.req.tenant && r.outcome.row.tool == r.spec.name && r.outcome.row.key == r.req.key
  }

  ghost predicate CallsOk(reg: Registry, t: Trace) {
    && (forall i :: 0 <= i < |t.calls| ==> RecordOk(reg, t.calls[i]))
    && (forall i :: 0 <= i < |t.calls| && UsedApproval(t.calls[i]) ==>
        L.IsExecuted(t.g.store, t.calls[i].req.approval.value))
    && (forall i, j :: 0 <= i < j < |t.calls| && UsedApproval(t.calls[i]) && UsedApproval(t.calls[j]) ==>
          t.calls[i].req.approval != t.calls[j].req.approval)
  }

  ghost predicate AuditOk(t: Trace) {
    && (forall i, j :: 0 <= i < j < |t.g.audit| && t.g.audit[i].status == Success && t.g.audit[i].key.Some? ==>
          !Succeeded(t.g.audit[j], t.g.audit[i].tenant, t.g.audit[i].tool, t.g.audit[i].key))
    && (forall i :: 0 <= i < |t.calls| && SideEffectDone(t.calls[i]) ==> t.calls[i].outcome.row in t.g.audit)
    && (forall i, j :: 0 <= i < j < |t.calls| && SideEffectDone(t.calls[i]) && SideEffectDone(t.calls[j]) ==>
          !SameWork(t.calls[i], t.calls[j]))
  }

  predicate SameWork(a: Record, b: Record) {
    a.req.tenant == b.req.tenant && a.spec.name == b.spec.name && a.req.key == b.req.key
  }

  ghost predicate Inv(reg: Registry, t: Trace) {
    I.Inv(t.g.store) && CallsOk(reg, t) && AuditOk(t)
  }

  /** A call that used an approval leaves that action executed. */
  lemma {:induction false} ApprovalConsumed(g: Gateway, spec: ToolSpec, req: Request, w: World)
    requires I.Inv(g.store)
    requires var o := Invoke(g, spec, req, w); Gated(spec) && o.completed && o.row.decision == Some(RequireApproval)
    ensures var o := Invoke(g, spec, req, w);
            req.approval.Some? && !L.IsExecuted(g.store, req.approval.value)
                && L.IsExecuted(o.after.store, req.approval.value)
  {
    hide Process;
    PlanFacts(g, spec, req, w);
    CallAuthorised(g, spec, req, w);
    var c, a := req.caseId.value, req.approval.value;
    L.ApprovedStays(g.store, w.effects, req.tenant, c, a);
    var worked := C.Run(g.store, w.effects);
    I.RunKeeps(g.store, w.effects);
    L.OneExecution(worked, C.MarkExecuted(req.tenant, c, a, w.now), a);
  }

  lemma {:induction false} StoreAfterCall(g: Gateway, spec: ToolSpec, req: Request, w: World)
    ensures var t := Invoke(g, spec, req, w).after.store; t == g.store || t == AfterHandler(g.store, spec, req, w)
  {
    hide Process;
    PlanFacts(g, spec, req, w);
  }

  lemma {:induction false} HandlerKeepsStore(store: C.Store, spec: ToolSpec, req: Request, w: World, a: nat)
    requires I.Inv(store)
    ensures var t := AfterHandler(store, spec, req, w); I.Inv(t) && (L.IsExecuted(store, a) ==> L.IsExecuted(t, a))
  {
    I.RunKeeps(store, w.effects);
    var worked := C.Run(store, w.effects);
    if L.IsExecuted(store, a) {
      L.ExecutedStays(store, w.effects, a);
    }
    if MarksExecuted(spec, req) {
      var mark := C.MarkExecuted(req.tenant, req.caseId.value, req.approval.value, w.now);
      I.StepKeeps(worked, mark);
      L.OneExecution(worked, mark, a);
    }
  }

  lemma {:induction false} CallKeepsStore(g: Gateway, spec: ToolSpec, req: Request, w: World, a: nat)
    requires I.Inv(g.store)
    ensures var t := Invoke(g, spec, req, w).after.store; I.Inv(t) && (L.IsExecuted(g.store, a) ==> L.IsExecuted(t, a))
  {
    hide Invoke, AfterHandler;
    StoreAfterCall(g, spec, req, w);
    HandlerKeepsStore(g.store, spec, req, w, a);
  }

  lemma {:induction false} CallKeepsCalls(reg: Registry, t: Trace, tool: string, req: Request, w: World)
    requires Consistent(reg) && Inv(reg, t) && tool in reg
    ensures CallsOk(reg, Next(reg, t, Call(tool, req, w)))
  {
    hide Invoke;
    var spec, o := reg[tool], Invoke(t.g, reg[tool], req, w);
    var r, t' := Record(spec, req, o), Next(reg, t, Call(tool, req, w));
    CallAuthorised(t.g, spec, req, w);
    CallAudited(t.g, spec, req, w);
    if UsedApproval(r) {
      ApprovalConsumed(t.g, spec, req, w);
    }
    assert RecordOk(reg, r);
    forall i | 0 <= i < |t'.calls| && UsedApproval(t'.calls[i])
      ensures L.IsExecuted(t'.g.store, t'.calls[i].req.approval.value)
    {
      CallKeepsStore(t.g, spec, req, w, t'.calls[i].req.approval.value);
    }
  }

  lemma {:induction false} CallKeepsAudit(reg: Registry, t: Trace, tool: string, req: Request, w: World)
    requires Consistent(reg) && Inv(reg, t) && tool in reg
    ensures AuditOk(Next(reg, t, Call(tool, req, w)))
  {
    hide Invoke;
    var spec, o := reg[tool], Invoke(t.g, reg[tool], req, w);
    var r, t' := Record(spec, req, o), Next(reg, t, Call(tool, req, w));
    CallAudited(t.g, spec, req, w);
    assert SideEffectDone(r) ==> r.outcome.row in t'.g.audit;
    forall i | 0 <= i < |t.calls| && SideEffectDone(t.calls[i]) && SideEffectDone(r) ensures !SameWork(t.calls[i], r) {
      if SameWork(t.calls[i], r) {
        assert RecordOk(reg, t.calls[i]);
        RepeatIsNotRun(t, i, spec, req, w);
      }
    }
  }

  /** A second call under a key whose side effect is done does not run. */
  lemma {:induction false} RepeatIsNotRun(t: Trace, i: nat, spec: ToolSpec, req: Request, w: World)
    requires AuditOk(t) && i < |t.calls| && SideEffectDone(t.calls[i])
    requires t.calls[i].outcome.row.tenant == req.tenant && t.calls[i].outcome.row.tool == spec.name
    requires t.calls[i].outcome.row.key == req.key
    requires t.calls[i].outcome.row.status == Success && spec.sideEffect
    ensures !Invoke(t.g, spec, req, w).ran && !Invoke(t.g, spec, req, w).completed
  {
    hide Process;
    PlanFacts(t.g, spec, req, w);
    assert t.calls[i].outcome.row in t.g.audit;
    assert Succeeded(t.calls[i].outcome.row, req.tenant, spec.name, req.key);
  }

  lemma {:induction false} StepKeeps(reg: Registry, t: Trace, step: Step)
    requires Consistent(reg) && Inv(reg, t)
    ensures Inv(reg, Next(reg, t, step))
  {
    match step
    case CaseOp(op) =>
      hide C.Step;
      I.StepKeeps(t.g.store, op);
      forall i | 0 <= i < |t.calls| && UsedApproval(t.calls[i])
        ensures L.IsExecuted(C.Step(t.g.store, op), t.calls[i].req.approval.value)
      {
        L.OneExecution(t.g.store, op, t.calls[i].req.approval.value);
      }
    case Call(tool, req, w) =>
      if tool in reg {
        CallKeepsStore(t.g, reg[tool], req, w, 0);
        CallKeepsCalls(reg, t, tool, req, w);
        CallKeepsAudit(reg, t, tool, req, w);
      }
  }

  lemma {:induction false} RunKeeps(reg: Registry, t: Trace, steps: seq<Step>)
    requires Consistent(reg) && Inv(reg, t)
    ensures Inv(reg, Run(reg, t, steps))
    decreases |steps|
  {
    if steps != [] {
      StepKeeps(reg, t, steps[0]);
      RunKeeps(reg, Next(reg, t, steps[0]), steps[1..]);
    }
  }

  lemma {:induction false} Reachable(reg: Registry, steps: seq<Step>)
    requires Consistent(reg)
    ensures Inv(reg, Run(reg, START, steps))
  {
    L.Reachable([]);
    RunKeeps(reg, START, steps);
  }

  // ---------- main results ----------

  lemma {:induction false} RunSnoc(reg: Registry, t: Trace, steps: seq<Step>, last: Step)
    ensures Run(reg, t, steps + [last]) == Next(reg, Run(reg, t, steps), last)
    decreases |steps|
  {
    if steps == [] {
      assert ([] + [last])[1..] == [];
    } else {
      assert (steps + [last])[1..] == steps[1..] + [last];
      RunSnoc(reg, Next(reg, t, steps[0]), steps[1..], last);
    }
  }

  /** The store the run had reached just before its step k. */
  function StoreBefore(reg: Registry, steps: seq<Step>, k: nat): C.Store
    requires k <= |steps|
  {
    Run(reg, START, steps[..k]).g.store
  }

  /** Where a recorded call happened in the run: at some step, against the store of that moment. */
  lemma {:induction false} CallHappened(reg: Registry, steps: seq<Step>, i: nat) returns (k: nat)
    requires i < |Run(reg, START, steps).calls|
    ensures k < |steps| && steps[k].Call? && steps[k].tool in reg
    ensures var call, g := steps[k], Run(reg, START, steps[..k]).g;
            Run(reg, START, steps).calls[i]
                == Record(reg[call.tool], call.req, Invoke(g, reg[call.tool], call.req, call.w))
    decreases |steps|
  {
    hide Invoke;
    var n := |steps| - 1;
    var front, last := steps[..n], steps[n];
    assert steps == front + [last];
    RunSnoc(reg, START, front, last);
    if i < |Run(reg, START, front).calls| {
      k := CallHappened(reg, front, i);
      assert front[..k] == steps[..k];
    } else {
      k := n;
    }
  }

  /** Who stands behind a REQUIRE_APPROVAL execution: a decider of the action's required rank, unless
      the action itself had been proposed under ALLOW. */
  predicate Vouched(a: C.ActionRow) {
    a.decision == Allow || (a.decidedBy.Some? && C.CanDecide(a.requiredRole, a.decidedBy.value))
  }

  /** Over every run, a gated handler that ran was allowed, or rode on an action of its own case and
      type that the run's own store held as approved at that step; none ran under DENY. */
  lemma {:induction false} ExecutionsAuthorised(reg: Registry, steps: seq<Step>, i: nat)
    requires Consistent(reg) && i < |Run(reg, START, steps).calls|
    requires var r := Run(reg, START, steps).calls[i];
             r.outcome.ran && r.spec.policyCheck && r.spec.name != "propose_action"
    ensures var r := Run(reg, START, steps).calls[i];
            && r.outcome.row.decision.Some? && r.outcome.row.decision != Some(Deny)
            && (exists k :: 0 <= k < |steps| && Authorised(StoreBefore(reg, steps, k), r.spec, r.req, r.outcome))
            && (r.outcome.row.decision == Some(RequireApproval) ==>
                  && r.outcome.backing.Some? && r.req.caseId == Some(r.outcome.backing.value.caseId)
                  && r.outcome.backing.value.status in {Approved, Edited}
                  && r.spec.target == Some(Kind(r.outcome.backing.value.actionType))
                  && Vouched(r.outcome.backing.value))
  {
    var k := CallHappened(reg, steps, i);
    var call, t := steps[k], Run(reg, START, steps[..k]);
    Reachable(reg, steps[..k]);
    CallAuthorised(t.g, reg[call.tool], call.req, call.w);
    var r := Run(reg, START, steps).calls[i];
    assert Authorised(StoreBefore(reg, steps, k), r.spec, r.req, r.outcome);
    hide Run, Invoke, CallsOk, AuditOk;
    if r.outcome.row.decision == Some(RequireApproval) {
      assert I.ActionOk(t.g.store.actions[r.req.approval.value]);
    }
  }

  /** Over every run, a side effect that ran was a low-risk note, a proposal, or authorised: the
      registry leaves no other way in. */
  lemma {:induction false} SideEffectsAuthorised(tools: seq<ToolSpec>, steps: seq<Step>, i: nat)
    requires i < |Run(RegisterAll(tools), START, steps).calls|
    requires var r := Run(RegisterAll(tools), START, steps).calls[i]; r.outcome.ran && r.spec.sideEffect
    ensures var r := Run(RegisterAll(tools), START, steps).calls[i];
            || r.spec.name in LOW_RISK || IsProposal(r.spec)
            || (&& r.outcome.row.decision in {Some(Allow), Some(RequireApproval)}
                && (exists k ::
                      && 0 <= k < |steps|
                      && Authorised(StoreBefore(RegisterAll(tools), steps, k), r.spec, r.req, r.outcome))
                && (r.outcome.row.decision == Some(RequireApproval) ==>
                    r.outcome.backing.Some? && Vouched(r.outcome.backing.value)))
  {
    var reg := RegisterAll(tools);
    RegisteredIsGoverned(tools);
    Reachable(reg, steps);
    assert RecordOk(reg, Run(reg, START, steps).calls[i]);
    hide Run, Inv, StoreBefore, Authorised;
    if Gated(Run(reg, START, steps).calls[i].spec) {
      ExecutionsAuthorised(reg, steps, i);
    }
  }

  /** Over every run, no action backs two REQUIRE_APPROVAL executions. */
  lemma {:induction false} ApprovalsSingleUse(reg: Registry, steps: seq<Step>, i: nat, j: nat)
    requires Consistent(reg) && i < j < |Run(reg, START, steps).calls|
    requires forall k :: k in {i, j} ==>
               var r := Run(reg, START, steps).calls[k];
               && r.spec.policyCheck && r.spec.name != "propose_action"
               && r.outcome.completed && r.outcome.row.decision == Some(RequireApproval)
    ensures Run(reg, START, steps).calls[i].req.approval != Run(reg, START, steps).calls[j].req.approval
  {
    Reachable(reg, steps);
  }

  /** Over every run, a side effect completes at most once per tenant, tool and key, and the audit
      table holds at most one SUCCESS row for them. */
  lemma {:induction false} SideEffectsOnce(reg: Registry, steps: seq<Step>)
    requires Consistent(reg)
    ensures var t := Run(reg, START, steps);
            && (forall i, j :: 0 <= i < j < |t.calls| ==>
                  var a, b := t.calls[i], t.calls[j];
                  a.spec.sideEffect && a.outcome.completed && b.spec.sideEffect && b.outcome.completed ==>
                    a.req.tenant != b.req.tenant || a.spec.name != b.spec.name || a.req.key != b.req.key)
            && (forall i, j :: 0 <= i < j < |t.g.audit| ==>
                  var a, b := t.g.audit[i], t.g.audit[j];
                  a.status == Success && b.status == Success && a.key.Some? ==>
                    a.tenant != b.tenant || a.tool != b.tool || a.key != b.key)
  {
    Reachable(reg, steps);
  }
}
