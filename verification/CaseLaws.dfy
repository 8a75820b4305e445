/**
 What each case-service operation does, said on its inputs alone: exactly when it commits, and every
 row and event it then leaves behind.
 */
module CaseLaws {
  import opened Common
  import opened StateMachine
  import opened CaseService

  /** The moves of the transition table, read by their target. */
  lemma {:induction false} LegalByTarget(src: CaseStatus, dst: CaseStatus)
    ensures var open := src != Resolved && src != WrittenOff;
            Legal(src, dst) <==>
              match dst
              case New => false
              case Triaged => src in {New, Investigating}
              case Investigating => open && src !in {New, Investigating}
              case AwaitingCustomer => src in {Triaged, Investigating, Negotiating, ActionTaken, Escalated}
              case Negotiating => open && src !in {New, Negotiating}
              case PendingApproval => open && src != PendingApproval
              case ActionTaken => src == PendingApproval
              case Escalated => open && src != Escalated
              case Resolved => open
              case WrittenOff => open
  {
  }

  /** Roles are ranked viewer, analyst, manager, admin, and a principal counts by its highest one. */
  lemma {:induction false} RolesRanked(p: Principal)
    ensures p.AtLeast(Viewer) <==> p.roles != {}
    ensures p.AtLeast(Analyst) <==> Analyst in p.roles || Manager in p.roles || Admin in p.roles
    ensures p.AtLeast(Manager) <==> Manager in p.roles || Admin in p.roles
    ensures p.AtLeast(Admin) <==> Admin in p.roles
  {
    if p.roles != {} {
      var r :| r in p.roles;
      assert Rank(r) >= Rank(Viewer);
    }
  }

  predicate OwnCase(s: Store, tenant: nat, id: nat) {
    id in s.cases && s.cases[id].tenant == tenant
  }

  predicate OwnAction(s: Store, id: nat, a: nat) {
    a in s.actions && s.actions[a].caseId == id
  }

  predicate Fresh(row: CaseRow, expected: Option<nat>) {
    expected in {None, Some(row.version)}
  }

  predicate MayDecide(role: RoleField, p: Principal) {
    match role
    case AnyRole => true
    case RoleAtLeast(r) => exists own :: own in p.roles && Rank(own) >= Rank(r)
    case UnknownRole(_) => false
  }

  lemma {:induction false} MayDecideIff(role: RoleField, p: Principal)
    ensures CanDecide(role, p) <==> MayDecide(role, p)
  {
    if role.RoleAtLeast? {
      if CanDecide(role, p) {
        var own :| own in p.roles && Rank(own) >= Rank(role.role);
        assert MayDecide(role, p);
      }
      if MayDecide(role, p) {
        var own :| own in p.roles && Rank(own) >= Rank(role.role);
        assert p.AtLeast(role.role);
      }
    }
  }

  lemma {:induction false} FreshIff(row: CaseRow, expected: Option<nat>)
    ensures Fresh(row, expected) <==> !Stale(row, expected)
  {
    if expected.Some? && expected.value == row.version {
      assert expected == Some(row.version);
    }
  }

  /** The case row after a status move. */
  function MovedRow(row: CaseRow, to: CaseStatus, now: int): CaseRow {
    row.(status := to, resolvedAt := if to in {Resolved, WrittenOff} then Some(now) else row.resolvedAt)
  }

  /** The events of a status move. */
  function MoveEvents(id: nat, from: CaseStatus, to: CaseStatus, reason: Option<string>, now: int): seq<CaseEvent> {
    [CaseEvent(id, now, StateChanged(from, to, reason))]
    + (if to in {Resolved, WrittenOff} then [CaseEvent(id, now, CaseClosed(to, reason))] else [])
  }

  lemma {:induction false} MoveExactly(s: Store, id: nat, to: CaseStatus, reason: Option<string>, now: int)
    requires id in s.cases
    ensures var r := SetStatus(s, id, to, reason, now);
            && (r.Ok? <==> Legal(s.cases[id].status, to))
            && (r.Err? ==> r.error == IllegalTransition)
            && (r.Ok? ==>
                  && r.value.cases == s.cases[id := MovedRow(s.cases[id], to, now)]
                  && r.value.actions == s.actions && r.value.invoices == s.invoices
                  && r.value.outbox == s.outbox + MoveEvents(id, s.cases[id].status, to, reason, now))
  {
    var first := [CaseEvent(id, now, StateChanged(s.cases[id].status, to, reason))];
    AppendAssociates(s.outbox, first, [CaseEvent(id, now, CaseClosed(to, reason))]);
    assert first + [] == first;
    hide Legal;
  }

  /** Opening a case: all invoices are claimed, or nothing happens. */
  lemma {:induction false} CreateExactly(s: Store, op: Op)
    requires op.Create?
    ensures var r := Perform(s, op);
            && (r.Ok? <==>
                  && op.refs != [] && op.newCase !in s.cases
                  && (forall i, j :: 0 <= i < j < |op.refs| ==> op.refs[i] != op.refs[j])
                  && (forall ref :: ref in op.refs ==> (op.tenant, ref) !in s.invoices))
            && (r.Ok? ==>
                  && r.value.cases
                     == s.cases[op.newCase := CaseRow(op.tenant, New, Autonomous, None, op.priority, None, 1)]
                  && r.value.actions == s.actions
                  && r.value.outbox == s.outbox + [CaseEvent(op.newCase, op.now, Created)])
    ensures var r := Perform(s, op);
            r.Ok? ==>
              && (forall t, ref :: (t, ref) in r.value.invoices
                    <==> (t, ref) in s.invoices || (t == op.tenant && ref in op.refs))
              && (forall t, ref :: (t, ref) in s.invoices ==> r.value.invoices[(t, ref)] == s.invoices[(t, ref)])
              && (forall ref :: ref in op.refs ==> r.value.invoices[(op.tenant, ref)] == op.newCase)
  {
    var r := Perform(s, op);
    if r.Ok? {
      forall t, ref ensures (t, ref) in ClaimKeys(op.tenant, op.refs) <==> t == op.tenant && ref in op.refs {
      }
    }
  }

  /** An explicit transition commits exactly on an own case of the expected version along a legal move. */
  lemma {:induction false} TransitionExactly(s: Store, op: Op)
    requires op.Transition?
    ensures var r, c := Perform(s, op), op.caseId;
            && (r.Ok? <==>
                  && OwnCase(s, op.tenant, c) && Fresh(s.cases[c], op.expected) && Legal(s.cases[c].status, op.to))
            && (r.Ok? ==>
                  var row := s.cases[c].(version := s.cases[c].version + 1);
                  && r.value.cases == s.cases[c := MovedRow(row, op.to, op.now)]
                  && r.value.actions == s.actions && r.value.invoices == s.invoices
                  && r.value.outbox == s.outbox + MoveEvents(c, row.status, op.to, op.reason, op.now))
  {
    if OwnCase(s, op.tenant, op.caseId) {
      var touched := s.(cases := s.cases[op.caseId := Touched(s.cases[op.caseId])]);
      MoveExactly(touched, op.caseId, op.to, op.reason, op.now);
      var row := Touched(s.cases[op.caseId]);
      assert row.status == s.cases[op.caseId].status && touched.cases[op.caseId] == row;
      assert Fresh(s.cases[op.caseId], op.expected) <==> !Stale(s.cases[op.caseId], op.expected);
      assert touched.cases[op.caseId := MovedRow(row, op.to, op.now)]
          == s.cases[op.caseId := MovedRow(row, op.to, op.now)];
    }
    hide SetStatus, Legal, MovedRow, MoveEvents;
  }

  /** Triage of an own case always commits; the cause is stored, and only a new case moves, to TRIAGED. */
  lemma {:induction false} TriageExactly(s: Store, op: Op)
    requires op.Triage?
    ensures var r, c := Perform(s, op), op.caseId;
            && (r.Ok? <==> OwnCase(s, op.tenant, c))
            && (r.Ok? ==>
                  var old_ := s.cases[c];
                  var row := old_.(version := old_.version + 1, rootCause := Some(op.cause),
                                   priority := if op.newPriority.Some? then op.newPriority.value else old_.priority);
                  && r.value.cases == s.cases[c := if old_.status == New then row.(status := Triaged) else row]
                  && r.value.actions == s.actions && r.value.invoices == s.invoices
                  && r.value.outbox
                     == s.outbox + (if old_.status == New
                                    then [CaseEvent(c, op.now, StateChanged(New, Triaged, None))] else []))
  {
  }

  /** Taking over and releasing flip the mode, exactly when that is a change and, to take over, the case is open. */
  lemma {:induction false} ModeExactly(s: Store, op: Op)
    requires op.Takeover? || op.Release?
    ensures var r, c := Perform(s, op), op.caseId;
            && (r.Ok? <==>
                  && OwnCase(s, op.tenant, c)
                  && (if op.Takeover?
                      then s.cases[c].mode == Autonomous && s.cases[c].status !in {Resolved, WrittenOff}
                      else s.cases[c].mode == HumanControl))
            && (r.Ok? ==>
                  var mode := if op.Takeover? then HumanControl else Autonomous;
                  && r.value.cases == s.cases[c := s.cases[c].(version := s.cases[c].version + 1, mode := mode)]
                  && r.value.actions == s.actions && r.value.invoices == s.invoices
                  && r.value.outbox
                     == s.outbox + [CaseEvent(c, op.now, if op.Takeover? then TakenOver else Released)])
  {
  }

  /** A proposal on an own open case is stored under the status of its decision: APPROVED under ALLOW, PENDING
      under REQUIRE_APPROVAL, DENIED under DENY; only the second moves the case, to PENDING_APPROVAL. */
  lemma {:induction false} ProposeExactly(s: Store, op: Op)
    requires op.Propose?
    ensures var r, c := Perform(s, op), op.caseId;
            && (r.Ok? <==>
                  OwnCase(s, op.tenant, c) && s.cases[c].status !in {Resolved, WrittenOff}
                      && op.newAction !in s.actions)
            && (r.Ok? ==>
                  var moves := op.decision == RequireApproval && s.cases[c].status != PendingApproval;
                  var status :=
                      match op.decision case Allow => Approved case RequireApproval => Pending case Deny => Denied;
                  var row := s.cases[c].(version := s.cases[c].version + (if moves then 2 else 1));
                  && r.value.actions
                     == s.actions[op.newAction :=
                          ActionRow(c, op.actionType, op.decision, op.requiredRole, status, None, None, None)]
                  && r.value.cases == s.cases[c := if moves then row.(status := PendingApproval) else row]
                  && r.value.invoices == s.invoices
                  && r.value.outbox
                     == s.outbox + [CaseEvent(c, op.now, ActionProposed(op.newAction, op.decision))]
                        + (if moves then MoveEvents(c, s.cases[c].status, PendingApproval, None, op.now) else []))
  {
    if OwnCase(s, op.tenant, op.caseId) && !IsTerminal(s.cases[op.caseId].status) {
      LegalByTarget(s.cases[op.caseId].status, PendingApproval);
    }
    hide Transitions;
  }

  /** Another action of the case is still pending. */
  predicate OthersPending(s: Store, c: nat, a: nat) {
    exists b :: b in s.actions && b != a && s.actions[b].caseId == c && s.actions[b].status == Pending
  }

  /** A decision commits exactly on an own pending action of the case, by a principal of the required role, at
      the expected version, with content if it is an edit. What is stored is what was said: the verdict as the
      status, the principal as the decider, and the human's content iff the verdict is EDITED. The last
      decision of a case in PENDING_APPROVAL moves it, to INVESTIGATING iff the verdict is REJECTED and to
      ACTION_TAKEN otherwise. */
  lemma {:induction false} DecideExactly(s: Store, op: Op)
    requires op.Decide?
    ensures var r, c, a := Perform(s, op), op.caseId, op.action;
            && (r.Ok? <==>
                  && OwnCase(s, op.tenant, c) && OwnAction(s, c, a) && op.verdict in {Approved, Edited, Rejected}
                  && s.actions[a].status == Pending && MayDecide(s.actions[a].requiredRole, op.principal)
                  && Fresh(s.cases[c], op.expected) && (op.verdict == Edited ==> op.humanFinal.Some?))
            && (r.Ok? ==>
                  && r.value.actions
                     == s.actions[a := s.actions[a].(
                          status := op.verdict, decidedBy := Some(op.principal),
                          humanFinal := if op.verdict == Edited then op.humanFinal else s.actions[a].humanFinal)]
                  && r.value.invoices == s.invoices)
            && (r.Ok? ==>
                  var moves := s.cases[c].status == PendingApproval && !OthersPending(s, c, a);
                  var to := if op.verdict == Rejected then Investigating else ActionTaken;
                  var why := if op.verdict == Approved then "action approved"
                             else if op.verdict == Edited then "action edited" else "action rejected";
                  var row := s.cases[c].(version := s.cases[c].version + (if moves then 2 else 1));
                  && r.value.cases == s.cases[c := if moves then row.(status := to) else row]
                  && r.value.outbox
                     == s.outbox + [CaseEvent(c, op.now, ActionDecided(a, op.verdict))]
                        + (if moves then MoveEvents(c, PendingApproval, to, Some(why), op.now) else []))
  {
    var r, c, a := Perform(s, op), op.caseId, op.action;
    if OwnCase(s, op.tenant, c) && OwnAction(s, c, a) {
      MayDecideIff(s.actions[a].requiredRole, op.principal);
    }
    if r.Ok? {
      var decided := s.actions[a].(
        status := op.verdict, decidedBy := Some(op.principal),
        humanFinal := if op.verdict == Edited then op.humanFinal else s.actions[a].humanFinal);
      var t := Emit(s.(cases := s.cases[c := Touched(s.cases[c])], actions := s.actions[a := decided]),
                    c, op.now, ActionDecided(a, op.verdict));
      assert r == Settle(t, c, op.verdict, op.now);
      PendingOthers(s, c, a, decided);
      assert HasPending(t, c) <==> OthersPending(s, c, a);
      hide HasPending, OthersPending, CanDecide;
    }
  }

  lemma {:induction false} PendingOthers(s: Store, c: nat, a: nat, decided: ActionRow)
    requires a in s.actions && decided.status != Pending
    ensures HasPending(s.(actions := s.actions[a := decided]), c) <==> OthersPending(s, c, a)
  {
    var t := s.(actions := s.actions[a := decided]);
    if OthersPending(s, c, a) {
      var b :| b in s.actions && b != a && s.actions[b].caseId == c && s.actions[b].status == Pending;
      assert t.actions[b].status == Pending;
    }
  }

  /** Marking executed commits exactly on an own approved or edited action of the case; it becomes
      AUTO_EXECUTED iff it was proposed under ALLOW and nobody decided it. No event is emitted. */
  lemma {:induction false} ExecuteExactly(s: Store, op: Op)
    requires op.MarkExecuted?
    ensures var r, c, a := Perform(s, op), op.caseId, op.action;
            && (r.Ok? <==> OwnCase(s, op.tenant, c) && OwnAction(s, c, a) && s.actions[a].status in {Approved, Edited})
            && (r.Ok? ==>
                  var auto := s.actions[a].decision == Allow && s.actions[a].decidedBy == None;
                  && r.value.actions == s.actions[a := s.actions[a].(
                       status := if auto then AutoExecuted else Executed, executedAt := Some(op.now))]
                  && r.value.cases == s.cases[c := s.cases[c].(version := s.cases[c].version + 1)]
                  && r.value.invoices == s.invoices && r.value.outbox == s.outbox)
  {
  }

  /** Why an operation is refused, in the order the checks are made: a case or an action that is not the caller's
      is not found; creating without invoices is invalid; a decision must be one of the three, on a pending action,
      by a known role that is reached, up to date, and an edit must bring its content; a move must be up to date and
      legal; everything else is a conflict. */
  lemma {:induction false} RefusedAs(s: Store, op: Op)
    requires Perform(s, op).Err?
    ensures Perform(s, op).error ==
            if op.Create? then (if op.refs == [] then Invalid else Conflict)
            else if !OwnCase(s, op.tenant, op.caseId) then NotFound
            else match op
                 case Transition(_, id, _, _, expected, _) =>
                   if !Fresh(s.cases[id], expected) then Conflict else IllegalTransition
                 case Decide(_, id, a, p, verdict, _, expected, _) =>
                   if !OwnAction(s, id, a) then NotFound
                   else if verdict !in {Approved, Edited, Rejected} then Invalid
                   else if s.actions[a].status != Pending then Conflict
                   else if s.actions[a].requiredRole.UnknownRole? then BadRole
                   else if !MayDecide(s.actions[a].requiredRole, p) then Forbidden
                   else if !Fresh(s.cases[id], expected) then Conflict
                   else Invalid
                 case MarkExecuted(_, id, a, _) => if !OwnAction(s, id, a) then NotFound else Conflict
                 case _ => Conflict
  {
    match op
    case Propose(_, _, _, _, _, _, _) => ProposeExactly(s, op);
    case Decide(_, id, a, p, _, _, expected, _) =>
      DecideExactly(s, op);
      if OwnCase(s, op.tenant, id) && OwnAction(s, id, a) {
        MayDecideIff(s.actions[a].requiredRole, p);
        FreshIff(s.cases[id], expected);
      }
      hide Settle, CanDecide, MayDecide, Stale, Fresh;
    case _ => hide Transitions;
  }
}
