/** Results about whole runs of the case service, from the empty database. */
module CaseLifecycle {
  import opened Common
  import opened StateMachine
  import opened CaseService
  import opened CaseInvariants

  lemma {:induction false} Reachable(ops: seq<Op>)
    ensures Inv(Run(EMPTY, ops))
  {
    forall c ensures CaseLogOk(EMPTY, c) {
    }
    RunKeeps(EMPTY, ops);
  }

  lemma {:induction false} RunSnoc(s: Store, ops: seq<Op>, last: Op)
    ensures Run(s, ops + [last]) == Step(Run(s, ops), last)
    decreases |ops|
  {
    if ops == [] {
      assert ([] + [last])[1..] == [];
    } else {
      assert (ops + [last])[1..] == ops[1..] + [last];
      RunSnoc(Step(s, ops[0]), ops[1..], last);
    }
  }

  // ---------- actions ----------

  /** Who may have executed what, in every reachable state. */
  lemma {:induction false} ActionLifecycle(ops: seq<Op>, a: nat)
    requires a in Run(EMPTY, ops).actions
    ensures var x := Run(EMPTY, ops).actions[a];
            && (x.status == Pending ==> x.decision == RequireApproval && x.decidedBy.None?)
            && (x.decision == Deny || x.status == Rejected ==> x.executedAt.None?)
            && (x.status == AutoExecuted <==> x.executedAt.Some? && x.decision == Allow)
            && (x.status == Executed ==> x.decidedBy.Some? && CanDecide(x.requiredRole, x.decidedBy.value))
  {
    Reachable(ops);
    assert ActionOk(Run(EMPTY, ops).actions[a]);
  }

  lemma {:induction false} SetStatusKeepsActions(s: Store, id: nat, to: CaseStatus, reason: Option<string>, now: int)
    requires id in s.cases
    ensures var r := SetStatus(s, id, to, reason, now); r.Ok? ==> r.value.actions == s.actions
  {
  }

  /** One step moves at most the action it names, along its life cycle. */
  lemma {:induction false} StepMovesActions(s: Store, op: Op, a: nat)
    requires a in s.actions
    ensures var t := Step(s, op); a in t.actions && ActionMoves(s.actions[a], t.actions[a])
    ensures var t := Step(s, op);
            s.actions[a].executedAt.None? && s.actions[a].status in {Pending, Approved, Edited} ==>
              (t.actions[a].executedAt.Some? <==> op.MarkExecuted? && op.action == a && Perform(s, op).Ok?)
  {
  }

  lemma {:induction false} StepKeepsVisible(s: Store, op: Op, tenant: nat, c: nat)
    requires Visible(s, tenant, c)
    ensures Visible(Step(s, op), tenant, c)
  {
  }

  /** An approved action is, after any operations, still approved or executed. */
  lemma {:induction false} ApprovedStays(s: Store, ops: seq<Op>, tenant: nat, c: nat, a: nat)
    requires Visible(s, tenant, c) && a in s.actions && s.actions[a].caseId == c
    requires s.actions[a].status in {Approved, Edited} || IsExecuted(s, a)
    ensures var t := Run(s, ops);
            Visible(t, tenant, c) && a in t.actions && t.actions[a].caseId == c
            && (t.actions[a].status in {Approved, Edited} || IsExecuted(t, a))
    decreases |ops|
  {
    if ops != [] {
      StepMovesActions(s, ops[0], a);
      StepKeepsVisible(s, ops[0], tenant, c);
      ApprovedStays(Step(s, ops[0]), ops[1..], tenant, c, a);
    }
  }

  lemma {:induction false} ExecutedStays(s: Store, ops: seq<Op>, a: nat)
    requires Inv(s) && IsExecuted(s, a)
    ensures IsExecuted(Run(s, ops), a)
  {
    assert ActionOk(s.actions[a]);
    FinalActionsFrozen(s, ops, a);
  }

  predicate Final(st: ActionStatus) {
    st in {Rejected, Denied, Executed, AutoExecuted}
  }

  /** Rejected, denied and executed actions never change again. */
  lemma {:induction false} FinalActionsFrozen(s: Store, ops: seq<Op>, a: nat)
    requires a in s.actions && Final(s.actions[a].status)
    ensures a in Run(s, ops).actions && Run(s, ops).actions[a] == s.actions[a]
    decreases |ops|
  {
    if ops != [] {
      StepMovesActions(s, ops[0], a);
      FinalActionsFrozen(Step(s, ops[0]), ops[1..], a);
    }
  }

  predicate Executes(s: Store, op: Op, a: nat) {
    op.MarkExecuted? && op.action == a && Perform(s, op).Ok?
  }

  function Executions(s: Store, ops: seq<Op>, a: nat): nat
    decreases |ops|
  {
    if ops == [] then 0 else (if Executes(s, ops[0], a) then 1 else 0) + Executions(Step(s, ops[0]), ops[1..], a)
  }

  predicate IsExecuted(s: Store, a: nat) {
    a in s.actions && s.actions[a].executedAt.Some?
  }

  lemma {:induction false} ExecutionsCount(s: Store, ops: seq<Op>, a: nat)
    requires Inv(s)
    ensures Executions(s, ops, a) == (if IsExecuted(Run(s, ops), a) then 1 else 0) - (if IsExecuted(s, a) then 1 else 0)
    decreases |ops|
  {
    if ops != [] {
      StepKeeps(s, ops[0]);
      ExecutionsCount(Step(s, ops[0]), ops[1..], a);
      OneExecution(s, ops[0], a);
    }
  }

  lemma {:induction false} OneExecution(s: Store, op: Op, a: nat)
    requires Inv(s)
    ensures Executes(s, op, a) ==> !IsExecuted(s, a) && IsExecuted(Step(s, op), a)
    ensures !Executes(s, op, a) ==> (IsExecuted(Step(s, op), a) <==> IsExecuted(s, a))
  {
    if a in s.actions {
      assert ActionOk(s.actions[a]);
      StepMovesActions(s, op, a);
    } else if op.Propose? && Perform(s, op).Ok? {
      SetStatusKeepsActions(s, op.caseId, PendingApproval, None, op.now);
    }
  }

  /** Over any run an action is marked executed at most once, and exactly once iff it ends executed. */
  lemma {:induction false} ExecutedAtMostOnce(ops: seq<Op>, a: nat)
    ensures Executions(EMPTY, ops, a) <= 1
    ensures Executions(EMPTY, ops, a) == 1 <==> IsExecuted(Run(EMPTY, ops), a)
  {
    Reachable([]);
    ExecutionsCount(EMPTY, ops, a);
  }

  // ---------- pending cases ----------

  /** Every case waiting for approval has an action to approve. */
  ghost predicate WaitingHasAction(s: Store) {
    forall c :: c in s.cases && s.cases[c].status == PendingApproval ==> HasPending(s, c)
  }

  predicate JumpsToPending(op: Op) {
    op.Transition? && op.to == PendingApproval
  }

  lemma {:induction false} WaitingKept(s: Store, op: Op)
    requires WaitingHasAction(s) && !JumpsToPending(op)
    ensures WaitingHasAction(Step(s, op))
  {
    var t := Step(s, op);
    forall c | c in t.cases && t.cases[c].status == PendingApproval ensures HasPending(t, c) {
      if c in s.cases && s.cases[c].status == PendingApproval {
        assert HasPending(s, c);
        var a :| a in s.actions && s.actions[a].caseId == c && s.actions[a].status == Pending;
        StepMovesActions(s, op, a);
        if t.actions[a].status != Pending {
          DecidedLeavesPending(s, op, c);
        }
      } else {
        NewlyWaiting(s, op, c);
      }
    }
  }

  lemma {:induction false} DecidedLeavesPending(s: Store, op: Op, c: nat)
    requires c in s.cases && s.cases[c].status == PendingApproval
    requires c in Step(s, op).cases && Step(s, op).cases[c].status == PendingApproval
    requires exists a :: a in s.actions && s.actions[a].caseId == c && s.actions[a].status == Pending
                         && a in Step(s, op).actions && Step(s, op).actions[a].status != Pending
    ensures HasPending(Step(s, op), c)
  {
    assert op.Decide? && op.caseId == c;
  }

  lemma {:induction false} NewlyWaiting(s: Store, op: Op, c: nat)
    requires !JumpsToPending(op) && c in Step(s, op).cases && Step(s, op).cases[c].status == PendingApproval
    requires c in s.cases ==> s.cases[c].status != PendingApproval
    ensures HasPending(Step(s, op), c)
  {
    assert op.Propose? && op.caseId == c && op.decision == RequireApproval;
    assert Step(s, op).actions[op.newAction].status == Pending;
  }

  lemma {:induction false} WaitingRun(s: Store, ops: seq<Op>)
    requires WaitingHasAction(s) && forall i :: 0 <= i < |ops| ==> !JumpsToPending(ops[i])
    ensures WaitingHasAction(Run(s, ops))
    decreases |ops|
  {
    if ops != [] {
      WaitingKept(s, ops[0]);
      WaitingRun(Step(s, ops[0]), ops[1..]);
    }
  }

  /** With no explicit transition into PENDING_APPROVAL, a waiting case always has a pending action. */
  lemma {:induction false} NoCaseWaitsForNothing(ops: seq<Op>)
    requires forall i :: 0 <= i < |ops| ==> !JumpsToPending(ops[i])
    ensures WaitingHasAction(Run(EMPTY, ops))
  {
    WaitingRun(EMPTY, ops);
  }

  /** An explicit transition into PENDING_APPROVAL that commits on a case with nothing pending. */
  predicate Strands(s: Store, op: Op) {
    && JumpsToPending(op) && Visible(s, op.tenant, op.caseId)
    && !Stale(s.cases[op.caseId], op.expected) && Legal(s.cases[op.caseId].status, PendingApproval)
    && !HasPending(s, op.caseId)
  }

  /** One operation makes a case wait for nothing exactly when it strands one. */
  lemma {:induction false} StrandedIff(s: Store, op: Op)
    requires WaitingHasAction(s)
    ensures WaitingHasAction(Step(s, op)) <==> !Strands(s, op)
  {
    if JumpsToPending(op) {
      JumpKeepsActions(s, op);
      var t := Step(s, op);
      if Strands(s, op) {
        assert t.cases[op.caseId].status == PendingApproval && !HasPending(t, op.caseId);
      } else {
        forall c | c in t.cases && t.cases[c].status == PendingApproval ensures HasPending(t, c) {
          assert t == s || c != op.caseId ==> HasPending(s, c);
          assert HasPending(t, c) <==> HasPending(s, c);
        }
      }
    } else {
      WaitingKept(s, op);
    }
  }

  /** An explicit transition moves no action and no other case. */
  lemma {:induction false} JumpKeepsActions(s: Store, op: Op)
    requires JumpsToPending(op)
    ensures var t := Step(s, op);
            && t.actions == s.actions && t.cases.Keys == s.cases.Keys
            && (forall c :: c in s.cases && c != op.caseId ==> t.cases[c] == s.cases[c])
            && (t != s ==> op.caseId in s.cases && t.cases[op.caseId].status == PendingApproval)
            && (t != s <==> (&& Visible(s, op.tenant, op.caseId) && !Stale(s.cases[op.caseId], op.expected)
                             && Legal(s.cases[op.caseId].status, PendingApproval)))
  {
    hide Transitions;
  }

  /** Along a whole run every waiting case has an action at every moment exactly when no operation of the
      run strands a case in the state it meets. */
  lemma {:induction false} WaitingRunIff(ops: seq<Op>)
    ensures (forall k :: 0 <= k <= |ops| ==> WaitingHasAction(Run(EMPTY, ops[..k])))
       <==> (forall k :: 0 <= k < |ops| ==> !Strands(Run(EMPTY, ops[..k]), ops[k]))
    decreases |ops|
  {
    if ops == [] {
      assert ops[..0] == [];
    } else {
      var n := |ops| - 1;
      var front := ops[..n];
      WaitingRunIff(front);
      assert ops == front + [ops[n]] && ops[..|ops|] == ops;
      RunSnoc(EMPTY, front, ops[n]);
      assert forall k :: 0 <= k <= n ==> front[..k] == ops[..k];
      hide Run, Step, Strands;
      if WaitingHasAction(Run(EMPTY, front)) {
        StrandedIff(Run(EMPTY, front), ops[n]);
      }
    }
  }

  /** The condition is needed: a new case moved there by hand waits for nothing. */
  lemma {:induction false} JumpWaitsForNothing(tenant: nat, id: nat, now: int)
    ensures var ops := [Create(tenant, id, ["INV-1"], 3, now),
        Transition(tenant, id, PendingApproval, None, None, now)];
            var s := Run(EMPTY, ops);
            id in s.cases && s.cases[id].status == PendingApproval && !HasPending(s, id)
  {
    var create, jump := Create(tenant, id, ["INV-1"], 3, now), Transition(tenant, id, PendingApproval, None, None, now);
    var s := Step(EMPTY, create);
    assert [create, jump][1..] == [jump] && [jump][1..] == [];
    assert Run(s, [jump]) == Run(Step(s, jump), []);
    assert Run(EMPTY, [create, jump]) == Run(s, [jump]);
    assert s.cases[id].status == New && s.actions == map[];
  }

  // ---------- the status log ----------

  /** Folding a case's events gives its status; it is closed iff it has a resolution time iff it was
      announced as resolved exactly once. */
  lemma {:induction false} StatusLogAgrees(ops: seq<Op>, c: nat)
    requires c in Run(EMPTY, ops).cases
    ensures var s := Run(EMPTY, ops); var row := s.cases[c];
            && Replay(s.outbox, c) == At(row.status)
            && (row.resolvedAt.Some? <==> IsTerminal(row.status))
            && Closings(s.outbox, c) == if row.resolvedAt.Some? then 1 else 0
  {
    Reachable(ops);
    assert CaseLogOk(Run(EMPTY, ops), c);
  }

  predicate Moves(e: CaseEvent, c: nat) {
    e.caseId == c && e.body.StateChanged?
  }

  lemma {:induction false} UnbrokenPrefix(evs: seq<CaseEvent>, k: nat, c: nat)
    requires k <= |evs| && Replay(evs, c) != Broken
    ensures Replay(evs[..k], c) != Broken
    decreases |evs|
  {
    if k == |evs| {
      assert evs[..k] == evs;
    } else {
      var front := evs[..|evs| - 1];
      assert front[..k] == evs[..k];
      UnbrokenPrefix(front, k, c);
    }
  }

  /** In every reachable log each status change is a legal move, starts where the previous one
      ended, and nothing follows one into a terminal status. */
  lemma {:induction false} StatusChangesChain(ops: seq<Op>, c: nat, i: nat, j: nat)
    requires var evs := Run(EMPTY, ops).outbox;
             i < j < |evs| && Moves(evs[i], c) && Moves(evs[j], c)
             && forall k :: i < k < j ==> !Moves(evs[k], c)
    ensures var evs := Run(EMPTY, ops).outbox;
            Legal(evs[i].body.from, evs[i].body.to) && evs[j].body.from == evs[i].body.to
            && !IsTerminal(evs[i].body.to)
  {
    Reachable(ops);
    var s := Run(EMPTY, ops);
    var evs := s.outbox;
    assert CaseLogOk(s, c);
    UnbrokenPrefix(evs, i + 1, c);
    UnbrokenPrefix(evs, j + 1, c);
    assert evs[..i + 1][..i] == evs[..i] && evs[..j + 1][..j] == evs[..j];
    assert Replay(evs[..i + 1], c) == At(evs[i].body.to);
    assert Replay(evs[..j], c) == At(evs[j].body.from);
    Quiet(evs, i + 1, j, c);
  }

  lemma {:induction false} Quiet(evs: seq<CaseEvent>, i: nat, j: nat, c: nat)
    requires i <= j <= |evs| && Replay(evs[..i], c).At? && Replay(evs[..j], c) != Broken
    requires forall k :: i <= k < j ==> !Moves(evs[k], c)
    ensures Replay(evs[..j], c) == Replay(evs[..i], c)
    decreases j
  {
    if i < j {
      assert evs[..j][..j - 1] == evs[..j - 1];
      UnbrokenPrefix(evs[..j], j - 1, c);
      Quiet(evs, i, j - 1, c);
    }
  }
}
