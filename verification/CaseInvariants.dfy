/** What every run of case-service operations keeps. */
module CaseInvariants {
  import opened Common
  import opened StateMachine
  import opened CaseService

  // ---------- actions ----------

  /** The state of one action, by the policy decision it was proposed under. */
  predicate ActionOk(a: ActionRow) {
    && (a.executedAt.Some? <==> a.status in {Executed, AutoExecuted})
    && match a.decision
       case Allow => a.decidedBy.None? && a.status in {Approved, AutoExecuted}
       case Deny => a.decidedBy.None? && a.status == Denied
       case RequireApproval =>
         if a.decidedBy.None? then a.status == Pending
         else CanDecide(a.requiredRole, a.decidedBy.value) && a.status in {Approved, Edited, Rejected, Executed}
  }

  /** How one action may move in one step: what was proposed stays, the status follows its life cycle. */
  predicate ActionMoves(a: ActionRow, b: ActionRow) {
    && b == a.(status := b.status, decidedBy := b.decidedBy, humanFinal := b.humanFinal, executedAt := b.executedAt)
    && (|| a == b
        || (a.status == Pending && b.status in {Approved, Edited, Rejected})
        || (a.status in {Approved, Edited} && b.status in {Executed, AutoExecuted} && b.executedAt.Some?))
  }

  ghost predicate ActionsOk(s: Store) {
    forall a :: a in s.actions ==> ActionOk(s.actions[a]) && s.actions[a].caseId in s.cases
  }

  // ---------- the event log ----------

  datatype LogState = Absent | At(status: CaseStatus) | Broken

  function ReplayOne(st: LogState, e: CaseEvent, c: nat): LogState {
    if e.caseId != c then st
    else match e.body
    case Created => if st.Absent? then At(New) else Broken
    case StateChanged(from, to, _) => if st == At(from) && Legal(from, to) then At(to) else Broken
    case CaseClosed(status, _) => if st == At(status) && IsTerminal(status) then st else Broken
    case _ => if st.At? then st else Broken
  }

  /** Folds the events of case `c`, checking that each continues from the one before. */
  function Replay(evs: seq<CaseEvent>, c: nat): LogState {
    if evs == [] then Absent else ReplayOne(Replay(evs[..|evs| - 1], c), evs[|evs| - 1], c)
  }

  function Closings(evs: seq<CaseEvent>, c: nat): nat {
    if evs == [] then 0
    else
      var e := evs[|evs| - 1];
      Closings(evs[..|evs| - 1], c) + if e.caseId == c && e.body.CaseClosed? then 1 else 0
  }

  lemma {:induction false} ReplayAppend(evs: seq<CaseEvent>, e: CaseEvent, c: nat)
    ensures Replay(evs + [e], c) == ReplayOne(Replay(evs, c), e, c)
    ensures Closings(evs + [e], c) == Closings(evs, c) + if e.caseId == c && e.body.CaseClosed? then 1 else 0
  {
    assert (evs + [e])[..|evs|] == evs;
  }

  ghost predicate CaseLogOk(s: Store, c: nat) {
    if c !in s.cases then Replay(s.outbox, c) == Absent && Closings(s.outbox, c) == 0
    else
      var row := s.cases[c];
      && Replay(s.outbox, c) == At(row.status)
      && (row.resolvedAt.Some? <==> IsTerminal(row.status))
      && Closings(s.outbox, c) == if IsTerminal(row.status) then 1 else 0
  }

  ghost predicate LogOk(s: Store) {
    forall c :: CaseLogOk(s, c)
  }

  ghost predicate Inv(s: Store) {
    ActionsOk(s) && LogOk(s)
  }

  // ---------- preservation, one building block at a time ----------

  /** A change of rows that keeps every status keeps the log agreement. */
  lemma {:induction false} RowsKeepLog(s: Store, t: Store)
    requires LogOk(s) && t.outbox == s.outbox && t.cases.Keys == s.cases.Keys
    requires forall c :: c in s.cases ==>
        t.cases[c].status == s.cases[c].status && t.cases[c].resolvedAt == s.cases[c].resolvedAt
    ensures LogOk(t)
  {
    forall c ensures CaseLogOk(t, c) {
      assert CaseLogOk(s, c);
    }
  }

  lemma {:induction false} EmitKeepsLog(s: Store, id: nat, at: int, body: Body)
    requires LogOk(s) && id in s.cases
    requires body.ActionProposed? || body.ActionDecided? || body.TakenOver? || body.Released?
    ensures LogOk(Emit(s, id, at, body))
  {
    forall c ensures CaseLogOk(Emit(s, id, at, body), c) {
      assert CaseLogOk(s, c);
      ReplayAppend(s.outbox, CaseEvent(id, at, body), c);
    }
  }

  lemma {:induction false} SetStatusKeepsLog(s: Store, id: nat, to: CaseStatus, reason: Option<string>, now: int)
    requires LogOk(s) && id in s.cases && SetStatus(s, id, to, reason, now).Ok?
    ensures var t := SetStatus(s, id, to, reason, now).value;
            LogOk(t) && t.actions == s.actions && t.cases.Keys == s.cases.Keys
  {
    var t := SetStatus(s, id, to, reason, now).value;
    forall c ensures CaseLogOk(t, c) {
      assert CaseLogOk(s, c);
      SetStatusKeepsOne(s, id, to, reason, now, c);
    }
  }

  lemma {:induction false} SetStatusKeepsOne(
      s: Store, id: nat, to: CaseStatus, reason: Option<string>, now: int, c: nat)
    requires CaseLogOk(s, c) && id in s.cases && SetStatus(s, id, to, reason, now).Ok?
    ensures CaseLogOk(SetStatus(s, id, to, reason, now).value, c)
  {
    assert !IsTerminal(s.cases[id].status);
    var first := CaseEvent(id, now, StateChanged(s.cases[id].status, to, reason));
    ReplayAppend(s.outbox, first, c);
    ReplayAppend(s.outbox + [first], CaseEvent(id, now, CaseClosed(to, reason)), c);
    hide Replay, Closings, Legal, Transitions;
  }

  lemma {:induction false} CreateKeeps(s: Store, op: Op)
    requires Inv(s) && op.Create? && Perform(s, op).Ok?
    ensures Inv(Step(s, op))
  {
    var t := Step(s, op);
    forall c ensures CaseLogOk(t, c) {
      assert CaseLogOk(s, c);
      ReplayAppend(s.outbox, CaseEvent(op.newCase, op.now, Created), c);
    }
  }

  lemma {:induction false} TransitionKeeps(s: Store, op: Op)
    requires Inv(s) && op.Transition? && Perform(s, op).Ok?
    ensures Inv(Step(s, op))
  {
    var touched := s.(cases := s.cases[op.caseId := Touched(s.cases[op.caseId])]);
    RowsKeepLog(s, touched);
    SetStatusKeepsLog(touched, op.caseId, op.to, op.reason, op.now);
  }

  lemma {:induction false} TriageKeeps(s: Store, op: Op)
    requires Inv(s) && op.Triage? && Visible(s, op.tenant, op.caseId)
    ensures Perform(s, op).Ok? && Inv(Step(s, op))
  {
    var c := Touched(s.cases[op.caseId]);
    var priority := if op.newPriority.Some? then op.newPriority.value else c.priority;
    var c' := c.(rootCause := Some(op.cause), priority := priority);
    var t := s.(cases := s.cases[op.caseId := c']);
    RowsKeepLog(s, t);
    if c.status == New {
      SetStatusKeepsLog(t, op.caseId, Triaged, None, op.now);
    }
  }

  lemma {:induction false} ModeKeeps(s: Store, op: Op)
    requires Inv(s) && (op.Takeover? || op.Release?) && Perform(s, op).Ok?
    ensures Inv(Step(s, op))
  {
    var row := Touched(s.cases[op.caseId]).(mode := if op.Takeover? then HumanControl else Autonomous);
    var t := s.(cases := s.cases[op.caseId := row]);
    RowsKeepLog(s, t);
    EmitKeepsLog(t, op.caseId, op.now, if op.Takeover? then TakenOver else Released);
  }

  predicate ProposalAccepted(s: Store, op: Op)
    requires op.Propose?
  {
    Visible(s, op.tenant, op.caseId) && !IsTerminal(s.cases[op.caseId].status) && op.newAction !in s.actions
  }

  /** A proposal on an open case always commits: its status move is legal from every open status. */
  lemma {:induction false} ProposeKeeps(s: Store, op: Op)
    requires Inv(s) && op.Propose?
    ensures Perform(s, op).Ok? <==> ProposalAccepted(s, op)
    ensures Inv(Step(s, op))
  {
    if !ProposalAccepted(s, op) {
      return;
    }
    var id := op.caseId;
    var action := ActionRow(id, op.actionType, op.decision, op.requiredRole, InitialStatus(op.decision), None, None,
        None);
    var t := s.(cases := s.cases[id := Touched(s.cases[id])], actions := s.actions[op.newAction := action]);
    RowsKeepLog(s, t);
    EmitKeepsLog(t, id, op.now, ActionProposed(op.newAction, op.decision));
    var added := Emit(t, id, op.now, ActionProposed(op.newAction, op.decision));
    assert ActionsOk(added);
    if op.decision == RequireApproval && s.cases[id].status != PendingApproval {
      var again := added.(cases := added.cases[id := Touched(added.cases[id])]);
      RowsKeepLog(added, again);
      SetStatusKeepsLog(again, id, PendingApproval, None, op.now);
    }
  }

  predicate DecisionAccepted(s: Store, op: Op)
    requires op.Decide?
  {
    && Visible(s, op.tenant, op.caseId)
    && op.action in s.actions && s.actions[op.action].caseId == op.caseId
    && op.verdict in {Approved, Edited, Rejected}
    && s.actions[op.action].status == Pending
    && CanDecide(s.actions[op.action].requiredRole, op.principal)
    && !Stale(s.cases[op.caseId], op.expected)
    && (op.verdict == Edited ==> op.humanFinal.Some?)
  }

  lemma {:induction false} DecisionIff(s: Store, op: Op)
    requires op.Decide?
    ensures Perform(s, op).Ok? <==> DecisionAccepted(s, op)
  {
    hide HasPending;
  }

  /** Writing a decided action and its event down. */
  lemma {:induction false} RecordKeeps(s: Store, id: nat, a: nat, decided: ActionRow, verdict: ActionStatus, now: int)
    requires Inv(s) && id in s.cases && a in s.actions && ActionOk(decided) && decided.caseId in s.cases
    ensures var t := s.(cases := s.cases[id := Touched(s.cases[id])], actions := s.actions[a := decided]);
            Inv(Emit(t, id, now, ActionDecided(a, verdict)))
  {
    var t := s.(cases := s.cases[id := Touched(s.cases[id])], actions := s.actions[a := decided]);
    RowsKeepLog(s, t);
    EmitKeepsLog(t, id, now, ActionDecided(a, verdict));
  }

  /** The last decision's status move is always legal. */
  lemma {:induction false} SettleKeeps(t: Store, id: nat, verdict: ActionStatus, now: int)
    requires Inv(t) && id in t.cases
    ensures Settle(t, id, verdict, now).Ok? && Inv(Settle(t, id, verdict, now).value)
  {
    if !HasPending(t, id) && t.cases[id].status == PendingApproval {
      var to := if verdict == Rejected then Investigating else ActionTaken;
      var again := t.(cases := t.cases[id := Touched(t.cases[id])]);
      RowsKeepLog(t, again);
      SetStatusKeepsLog(again, id, to, Some(DecisionReason(verdict)), now);
    }
  }

  /** A decision commits exactly when its own checks pass: the status move never gets in the way. */
  lemma {:induction false} DecideKeeps(s: Store, op: Op)
    requires Inv(s) && op.Decide?
    ensures Perform(s, op).Ok? <==> DecisionAccepted(s, op)
    ensures Inv(Step(s, op))
  {
    DecisionIff(s, op);
    if DecisionAccepted(s, op) {
      var id, a, old_ := op.caseId, op.action, s.actions[op.action];
      assert ActionOk(old_);
      var decided := old_.(status := op.verdict, decidedBy := Some(op.principal),
                           humanFinal := if op.verdict == Edited then op.humanFinal else old_.humanFinal);
      RecordKeeps(s, id, a, decided, op.verdict, op.now);
      var t := s.(cases := s.cases[id := Touched(s.cases[id])], actions := s.actions[a := decided]);
      SettleKeeps(Emit(t, id, op.now, ActionDecided(a, op.verdict)), id, op.verdict, op.now);
      hide Settle, Inv, HasPending, ActionOk;
    }
  }

  lemma {:induction false} ExecuteKeeps(s: Store, op: Op)
    requires Inv(s) && op.MarkExecuted? && Perform(s, op).Ok?
    ensures Inv(Step(s, op))
  {
    RowsKeepLog(s, Step(s, op));
    assert ActionOk(s.actions[op.action]);
  }

  lemma {:induction false} StepKeeps(s: Store, op: Op)
    requires Inv(s)
    ensures Inv(Step(s, op))
  {
    if Perform(s, op).Ok? {
      match op
      case Create(_, _, _, _, _) => CreateKeeps(s, op);
      case Transition(_, _, _, _, _, _) => TransitionKeeps(s, op);
      case Triage(_, _, _, _, _) => TriageKeeps(s, op);
      case Takeover(_, _, _) => ModeKeeps(s, op);
      case Release(_, _, _) => ModeKeeps(s, op);
      case Propose(_, _, _, _, _, _, _) => ProposeKeeps(s, op);
      case Decide(_, _, _, _, _, _, _, _) => DecideKeeps(s, op);
      case MarkExecuted(_, _, _, _) => ExecuteKeeps(s, op);
    }
  }

  lemma {:induction false} RunKeeps(s: Store, ops: seq<Op>)
    requires Inv(s)
    ensures Inv(Run(s, ops))
    decreases |ops|
  {
    if ops != [] {
      StepKeeps(s, ops[0]);
      RunKeeps(Step(s, ops[0]), ops[1..]);
    }
  }
}
