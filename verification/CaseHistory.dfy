/**
 What was said about an action, against what became of it: the operations accepted along a run, and the
 events they left in the outbox.
 */
module CaseHistory {
  import opened Common
  import opened StateMachine
  import opened CaseService
  import opened CaseInvariants
  import opened CaseLifecycle
  import opened CaseLaws

  // ---------- accepted decisions ----------

  /** Operation k of the run is a decision on `a` that committed. */
  predicate DecidedAt(ops: seq<Op>, k: nat, a: nat)
    requires k < |ops|
  {
    ops[k].Decide? && ops[k].action == a && Perform(Run(EMPTY, ops[..k]), ops[k]).Ok?
  }

  /** What stands in the action is what that decision said: its principal, its verdict until executed (and
      then not REJECTED), and its content if it was an edit. */
  predicate Reflects(row: ActionRow, op: Op)
    requires op.Decide?
  {
    && row.decidedBy == Some(op.principal)
    && (row.status == op.verdict || (row.status == Executed && op.verdict in {Approved, Edited}))
    && op.verdict in {Approved, Edited, Rejected}
    && (op.verdict == Edited ==> row.humanFinal == op.humanFinal && op.humanFinal.Some?)
    && (op.verdict != Edited ==> row.humanFinal.None?)
  }

  ghost predicate OnRecord(ops: seq<Op>, a: nat, row: ActionRow) {
    exists k :: 0 <= k < |ops| && DecidedAt(ops, k, a) && Reflects(row, ops[k])
  }

  ghost predicate Said(ops: seq<Op>, a: nat) {
    var s := Run(EMPTY, ops);
    a in s.actions ==>
      && (s.actions[a].decidedBy.Some? ==> OnRecord(ops, a, s.actions[a]))
      && (s.actions[a].decidedBy.None? ==> s.actions[a].humanFinal.None?)
  }

  lemma {:induction false} DecidedStays(ops: seq<Op>, last: Op, k: nat, a: nat)
    requires k < |ops|
    ensures DecidedAt(ops + [last], k, a) <==> DecidedAt(ops, k, a)
  {
    assert (ops + [last])[..k] == ops[..k];
  }

  lemma {:induction false} RecordStays(ops: seq<Op>, last: Op, a: nat, row: ActionRow, next: ActionRow)
    requires OnRecord(ops, a, row) && row.status != Executed && row.status != Rejected
    requires next == row || next == row.(status := Executed, executedAt := next.executedAt)
    ensures OnRecord(ops + [last], a, next)
  {
    var k :| 0 <= k < |ops| && DecidedAt(ops, k, a) && Reflects(row, ops[k]);
    DecidedStays(ops, last, k, a);
    assert (ops + [last])[k] == ops[k];
  }

  lemma {:induction false} RecordKept(ops: seq<Op>, last: Op, a: nat, row: ActionRow)
    requires OnRecord(ops, a, row)
    ensures OnRecord(ops + [last], a, row)
  {
    var k :| 0 <= k < |ops| && DecidedAt(ops, k, a) && Reflects(row, ops[k]);
    DecidedStays(ops, last, k, a);
    assert (ops + [last])[k] == ops[k];
  }

  predicate NothingSaid(s: Store, a: nat) {
    a in s.actions && s.actions[a].decidedBy.None? ==> s.actions[a].humanFinal.None?
  }

  /** What one operation can do to one action. */
  lemma {:induction false} ActionAfter(s: Store, op: Op, a: nat)
    requires Inv(s) && NothingSaid(s, a) && a in Step(s, op).actions
    ensures var row := Step(s, op).actions[a];
            || (a in s.actions && row == s.actions[a])
            || (a !in s.actions && row.decidedBy.None? && row.humanFinal.None?)
            || (op.Decide? && op.action == a && Perform(s, op).Ok? && a in s.actions && Reflects(row, op))
            || (&& a in s.actions && s.actions[a].status in {Approved, Edited}
                && s.actions[a].decidedBy.Some?
                && row == s.actions[a].(status := Executed, executedAt := row.executedAt))
            || (&& a in s.actions && s.actions[a].decidedBy.None?
                && row == s.actions[a].(status := row.status, executedAt := row.executedAt))
  {
    assert a in s.actions ==> ActionOk(s.actions[a]);
    hide Inv;
    if Perform(s, op).Ok? {
      match op
      case Create(_, _, _, _, _) => CreateExactly(s, op);
      case Transition(_, _, _, _, _, _) => TransitionExactly(s, op);
      case Triage(_, _, _, _, _) => TriageExactly(s, op);
      case Takeover(_, _, _) => ModeExactly(s, op);
      case Release(_, _, _) => ModeExactly(s, op);
      case Propose(_, _, _, _, _, _, _) => ProposeExactly(s, op);
      case Decide(_, _, _, _, _, _, _, _) => DecideExactly(s, op);
      case MarkExecuted(_, _, _, _) => ExecuteExactly(s, op);
    }
  }

  lemma {:induction false} SaidKept(ops: seq<Op>, last: Op, a: nat)
    requires Said(ops, a)
    ensures Said(ops + [last], a)
  {
    var s, all := Run(EMPTY, ops), ops + [last];
    Reachable(ops);
    RunSnoc(EMPTY, ops, last);
    hide Run, Step, Inv, Perform;
    if a in Step(s, last).actions {
      ActionAfter(s, last, a);
      var row := Step(s, last).actions[a];
      if last.Decide? && last.action == a && Perform(s, last).Ok? && Reflects(row, last) {
        assert all[..|ops|] == ops && all[|ops|] == last;
        assert DecidedAt(all, |ops|, a);
      } else if a in s.actions && s.actions[a].decidedBy.Some? {
        if row == s.actions[a] {
          RecordKept(ops, last, a, row);
        } else {
          RecordStays(ops, last, a, s.actions[a], row);
        }
      }
    }
  }

  lemma {:induction false} AllSaid(ops: seq<Op>, a: nat)
    ensures Said(ops, a)
    decreases |ops|
  {
    if ops != [] {
      var n := |ops| - 1;
      assert ops == ops[..n] + [ops[n]];
      AllSaid(ops[..n], a);
      SaidKept(ops[..n], ops[n], a);
    }
  }

  /** Over all runs, an action executed under REQUIRE_APPROVAL has an accepted decision among the operations
      that said APPROVED or EDITED, by the very principal on record, of the role the action requires. */
  lemma {:induction false} ExecutedWasApproved(ops: seq<Op>, a: nat)
    requires a in Run(EMPTY, ops).actions
    requires var row := Run(EMPTY, ops).actions[a]; row.decision == RequireApproval && row.executedAt.Some?
    ensures var row := Run(EMPTY, ops).actions[a];
            exists k :: 0 <= k < |ops| && DecidedAt(ops, k, a) && ops[k].verdict in {Approved, Edited}
                        && row.decidedBy == Some(ops[k].principal) && MayDecide(row.requiredRole, ops[k].principal)
  {
    AllSaid(ops, a);
    Reachable(ops);
    var row := Run(EMPTY, ops).actions[a];
    assert ActionOk(row);
    var k :| 0 <= k < |ops| && DecidedAt(ops, k, a) && Reflects(row, ops[k]);
    MayDecideIff(row.requiredRole, ops[k].principal);
  }

  /** Over all runs, an action for which a decision REJECTED was accepted stays rejected and never executes. */
  lemma {:induction false} RejectedNeverExecutes(ops: seq<Op>, k: nat, a: nat)
    requires k < |ops| && DecidedAt(ops, k, a) && ops[k].verdict == Rejected
    ensures var s := Run(EMPTY, ops);
            a in s.actions && s.actions[a].status == Rejected && s.actions[a].executedAt.None?
  {
    var before, after := ops[..k], ops[k + 1..];
    Reachable(ops);
    DecideExactly(Run(EMPTY, before), ops[k]);
    RunSplit(EMPTY, before, ops[k], after);
    assert ops == before + [ops[k]] + after;
    FinalActionsFrozen(Step(Run(EMPTY, before), ops[k]), after, a);
    assert ActionOk(Run(EMPTY, ops).actions[a]);
  }

  lemma {:induction false} RunSplit(s: Store, before: seq<Op>, op: Op, after: seq<Op>)
    ensures Run(s, before + [op] + after) == Run(Step(Run(s, before), op), after)
    decreases |before|
  {
    var all := before + [op] + after;
    if before == [] {
      assert all[1..] == after;
    } else {
      assert all[1..] == before[1..] + [op] + after;
      RunSplit(Step(s, before[0]), before[1..], op, after);
    }
  }

  // ---------- the events of actions and modes ----------

  /** Unknown, proposed, decided, or events that do not make sense in that order. */
  datatype Past =
    | Unknown
    | Proposed(caseId: nat, decision: Decision)
    | Settled(caseId: nat, verdict: ActionStatus)
    | Corrupt

  function PastOne(p: Past, e: CaseEvent, a: nat): Past {
    match e.body
    case ActionProposed(b, decision) =>
      if a != b then p else if p == Unknown then Proposed(e.caseId, decision) else Corrupt
    case ActionDecided(b, verdict) =>
      if a != b then p
      else if p.Proposed? && p.caseId == e.caseId && verdict in {Approved, Edited, Rejected}
      then Settled(e.caseId, verdict)
      else Corrupt
    case _ => p
  }

  /** What the events say about action `a`. */
  function PastOf(evs: seq<CaseEvent>, a: nat): Past {
    if evs == [] then Unknown else PastOne(PastOf(evs[..|evs| - 1], a), evs[|evs| - 1], a)
  }

  function ModeOne(m: AgentMode, e: CaseEvent, c: nat): AgentMode {
    if e.caseId != c then m
    else if e.body.TakenOver? then HumanControl
    else if e.body.Released? then Autonomous
    else m
  }

  /** The mode the events leave case `c` in. */
  function ModeOf(evs: seq<CaseEvent>, c: nat): AgentMode {
    if evs == [] then Autonomous else ModeOne(ModeOf(evs[..|evs| - 1], c), evs[|evs| - 1], c)
  }

  lemma {:induction false} HistoryAppend(evs: seq<CaseEvent>, e: CaseEvent, x: nat)
    ensures PastOf(evs + [e], x) == PastOne(PastOf(evs, x), e, x)
    ensures ModeOf(evs + [e], x) == ModeOne(ModeOf(evs, x), e, x)
  {
    assert (evs + [e])[..|evs|] == evs;
  }

  lemma {:induction false} MoveAppends(evs: seq<CaseEvent>, id: nat, from: CaseStatus, to: CaseStatus,
                                       reason: Option<string>, now: int, x: nat)
    ensures var all := evs + MoveEvents(id, from, to, reason, now);
            PastOf(all, x) == PastOf(evs, x) && ModeOf(all, x) == ModeOf(evs, x)
  {
    var first, last := CaseEvent(id, now, StateChanged(from, to, reason)), CaseEvent(id, now, CaseClosed(to, reason));
    HistoryAppend(evs, first, x);
    HistoryAppend(evs + [first], last, x);
    AppendAssociates(evs, [first], [last]);
    assert [first] + [] == [first];
  }

  /** The events tell the same about an action as its row. */
  predicate PastAgrees(s: Store, a: nat) {
    match PastOf(s.outbox, a)
    case Corrupt => false
    case Unknown => a !in s.actions
    case Proposed(c, decision) =>
      && a in s.actions && s.actions[a].caseId == c && s.actions[a].decision == decision
      && s.actions[a].decidedBy.None?
    case Settled(c, verdict) =>
      && a in s.actions && s.actions[a].caseId == c && s.actions[a].decidedBy.Some?
      && (s.actions[a].status == verdict || (s.actions[a].status == Executed && verdict in {Approved, Edited}))
      && verdict in {Approved, Edited, Rejected}
  }

  predicate ModeAgrees(s: Store, c: nat) {
    if c in s.cases then s.cases[c].mode == ModeOf(s.outbox, c) else ModeOf(s.outbox, c) == Autonomous
  }

  /** A store whose outbox grew by one event and perhaps a status move, against the one before. */
  lemma {:induction false} Grown(
      s: Store, t: Store, e: CaseEvent, moves: bool, from: CaseStatus, to: CaseStatus, reason: Option<string>, x: nat)
    requires t.outbox == s.outbox + [e] + (if moves then MoveEvents(e.caseId, from, to, reason, e.at) else [])
    ensures PastOf(t.outbox, x) == PastOne(PastOf(s.outbox, x), e, x)
    ensures ModeOf(t.outbox, x) == ModeOne(ModeOf(s.outbox, x), e, x)
  {
    hide PastOf, ModeOf, MoveEvents;
    HistoryAppend(s.outbox, e, x);
    MoveAppends(s.outbox + [e], e.caseId, from, to, reason, e.at, x);
    assert s.outbox + [e] + [] == s.outbox + [e];
  }

  lemma {:induction false} ProposalKeepsHistory(s: Store, op: Op, x: nat)
    requires op.Propose? && Perform(s, op).Ok? && PastAgrees(s, x) && ModeAgrees(s, x)
    ensures PastAgrees(Step(s, op), x) && ModeAgrees(Step(s, op), x)
  {
    ProposeExactly(s, op);
    hide Perform, PastOf, ModeOf, MoveEvents;
    var e := CaseEvent(op.caseId, op.now, ActionProposed(op.newAction, op.decision));
    var moves := op.decision == RequireApproval && s.cases[op.caseId].status != PendingApproval;
    Grown(s, Step(s, op), e, moves, s.cases[op.caseId].status, PendingApproval, None, x);
  }

  lemma {:induction false} DecisionKeepsHistory(s: Store, op: Op, x: nat)
    requires Inv(s) && op.Decide? && Perform(s, op).Ok? && PastAgrees(s, x) && ModeAgrees(s, x)
    ensures PastAgrees(Step(s, op), x) && ModeAgrees(Step(s, op), x)
  {
    DecideExactly(s, op);
    assert ActionOk(s.actions[op.action]);
    hide Inv, Perform, PastOf, ModeOf, MoveEvents, OthersPending, MayDecide;
    var c, e := op.caseId, CaseEvent(op.caseId, op.now, ActionDecided(op.action, op.verdict));
    var to := if op.verdict == Rejected then Investigating else ActionTaken;
    var moves := s.cases[c].status == PendingApproval && !OthersPending(s, c, op.action);
    Grown(s, Step(s, op), e, moves, PendingApproval, to, Some(DecisionReason(op.verdict)), x);
  }

  lemma {:induction false} TransitionKeepsHistory(s: Store, op: Op, x: nat)
    requires op.Transition? && Perform(s, op).Ok? && PastAgrees(s, x) && ModeAgrees(s, x)
    ensures PastAgrees(Step(s, op), x) && ModeAgrees(Step(s, op), x)
  {
    TransitionExactly(s, op);
    hide Perform, PastOf, ModeOf, MoveEvents, Legal;
    MoveAppends(s.outbox, op.caseId, s.cases[op.caseId].status, op.to, op.reason, op.now, x);
  }

  lemma {:induction false} TriageKeepsHistory(s: Store, op: Op, x: nat)
    requires op.Triage? && Perform(s, op).Ok? && PastAgrees(s, x) && ModeAgrees(s, x)
    ensures PastAgrees(Step(s, op), x) && ModeAgrees(Step(s, op), x)
  {
    TriageExactly(s, op);
    var t := Step(s, op);
    hide Perform, Step, PastOf, ModeOf;
    if s.cases[op.caseId].status == New {
      HistoryAppend(s.outbox, CaseEvent(op.caseId, op.now, StateChanged(New, Triaged, None)), x);
    } else {
      assert t.outbox == s.outbox;
    }
  }

  lemma {:induction false} OpenKeepsHistory(s: Store, op: Op, x: nat)
    requires op.Create? && Perform(s, op).Ok? && PastAgrees(s, x) && ModeAgrees(s, x)
    ensures PastAgrees(Step(s, op), x) && ModeAgrees(Step(s, op), x)
  {
    CreateExactly(s, op);
    assert Step(s, op) == Perform(s, op).value;
    hide Perform, Step, PastOf, ModeOf;
    HistoryAppend(s.outbox, CaseEvent(op.newCase, op.now, Created), x);
  }

  lemma {:induction false} PastKept(s: Store, t: Store, x: nat)
    requires PastAgrees(s, x) && t.actions == s.actions && PastOf(t.outbox, x) == PastOf(s.outbox, x)
    ensures PastAgrees(t, x)
  {
    hide PastOf;
  }

  /** What a change of hands leaves behind. */
  lemma {:induction false} HandsOver(s: Store, op: Op, mode: AgentMode, e: CaseEvent)
    requires (op.Takeover? || op.Release?) && Perform(s, op).Ok?
    requires mode == if op.Takeover? then HumanControl else Autonomous
    requires e == CaseEvent(op.caseId, op.now, if op.Takeover? then TakenOver else Released)
    ensures var t, c := Step(s, op), op.caseId;
            && c in s.cases && c in t.cases && t.cases == s.cases[c := t.cases[c]] && t.cases[c].mode == mode
            && t.actions == s.actions && t.outbox == s.outbox + [e]
  {
    ModeExactly(s, op);
    hide Perform;
  }

  lemma {:induction false} HandedOver(evs: seq<CaseEvent>, e: CaseEvent, x: nat)
    requires e.body.TakenOver? || e.body.Released?
    ensures PastOf(evs + [e], x) == PastOf(evs, x)
    ensures ModeOf(evs + [e], x)
         == if x == e.caseId then (if e.body.TakenOver? then HumanControl else Autonomous) else ModeOf(evs, x)
  {
    HistoryAppend(evs, e, x);
    hide PastOf, ModeOf;
  }

  lemma {:induction false} ModeKeepsHistory(s: Store, op: Op, x: nat)
    requires op.Takeover? || op.Release?
    requires Perform(s, op).Ok? && PastAgrees(s, x) && ModeAgrees(s, x)
    ensures PastAgrees(Step(s, op), x) && ModeAgrees(Step(s, op), x)
  {
    hide Perform, Step, PastOf, ModeOf, PastAgrees, ModeAgrees;
    var mode := if op.Takeover? then HumanControl else Autonomous;
    var e := CaseEvent(op.caseId, op.now, if op.Takeover? then TakenOver else Released);
    HandsOver(s, op, mode, e);
    HandedOver(s.outbox, e, x);
    PastKept(s, Step(s, op), x);
    ModeKept(s, Step(s, op), op.caseId, mode, x);
  }

  lemma {:induction false} ModeKept(s: Store, t: Store, c: nat, mode: AgentMode, x: nat)
    requires ModeAgrees(s, x) && c in s.cases
    requires c in t.cases && t.cases == s.cases[c := t.cases[c]] && t.cases[c].mode == mode
    requires ModeOf(t.outbox, x) == if x == c then mode else ModeOf(s.outbox, x)
    ensures ModeAgrees(t, x)
  {
    hide ModeOf;
  }

  lemma {:induction false} ExecutionKeepsHistory(s: Store, op: Op, x: nat)
    requires Inv(s) && op.MarkExecuted? && Perform(s, op).Ok? && PastAgrees(s, x) && ModeAgrees(s, x)
    ensures PastAgrees(Step(s, op), x) && ModeAgrees(Step(s, op), x)
  {
    assert x in s.actions ==> ActionOk(s.actions[x]);
    ExecuteExactly(s, op);
    hide Perform, PastOf, ModeOf, Inv;
  }

  lemma {:induction false} HistoryKept(s: Store, op: Op, x: nat)
    requires Inv(s) && PastAgrees(s, x) && ModeAgrees(s, x)
    ensures PastAgrees(Step(s, op), x) && ModeAgrees(Step(s, op), x)
  {
    hide Inv, PastAgrees, ModeAgrees, Perform;
    if Perform(s, op).Ok? {
      match op
      case Create(_, _, _, _, _) => OpenKeepsHistory(s, op, x);
      case Transition(_, _, _, _, _, _) => TransitionKeepsHistory(s, op, x);
      case Triage(_, _, _, _, _) => TriageKeepsHistory(s, op, x);
      case Takeover(_, _, _) => ModeKeepsHistory(s, op, x);
      case Release(_, _, _) => ModeKeepsHistory(s, op, x);
      case Propose(_, _, _, _, _, _, _) => ProposalKeepsHistory(s, op, x);
      case Decide(_, _, _, _, _, _, _, _) => DecisionKeepsHistory(s, op, x);
      case MarkExecuted(_, _, _, _) => ExecutionKeepsHistory(s, op, x);
    }
  }

  /** The one decision among the events of an action, if there is any. */
  lemma {:induction false} PastFound(evs: seq<CaseEvent>, a: nat)
    requires PastOf(evs, a) != Corrupt
    ensures var p := PastOf(evs, a);
            && (p.Settled? ==> exists i :: 0 <= i < |evs| && evs[i].body == ActionDecided(a, p.verdict))
            && (forall i :: 0 <= i < |evs| && evs[i].body.ActionDecided? && evs[i].body.action == a ==>
                  p.Settled? && evs[i].body.verdict == p.verdict)
  {
    if evs != [] {
      var n := |evs| - 1;
      PastFound(evs[..n], a);
      var p := PastOf(evs[..n], a);
      if p.Settled? {
        var i :| 0 <= i < n && evs[..n][i].body == ActionDecided(a, p.verdict);
        assert evs[i].body == ActionDecided(a, p.verdict);
      }
      forall i | 0 <= i < |evs| && evs[i].body.ActionDecided? && evs[i].body.action == a
        ensures PastOf(evs, a).Settled? && evs[i].body.verdict == PastOf(evs, a).verdict
      {
        assert i < n ==> evs[..n][i] == evs[i];
      }
      assert evs[n] == evs[|evs| - 1];
    }
  }

  /** After any run the events of the outbox tell about every action and every mode what the rows hold. */
  lemma {:induction false} HistoryAgrees(ops: seq<Op>, x: nat)
    ensures PastAgrees(Run(EMPTY, ops), x) && ModeAgrees(Run(EMPTY, ops), x)
    decreases |ops|
  {
    if ops != [] {
      var n := |ops| - 1;
      assert ops == ops[..n] + [ops[n]];
      HistoryAgrees(ops[..n], x);
      RunSnoc(EMPTY, ops[..n], ops[n]);
      Reachable(ops[..n]);
      HistoryKept(Run(EMPTY, ops[..n]), ops[n], x);
    }
  }
}
