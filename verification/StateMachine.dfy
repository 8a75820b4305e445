/** Case and action life cycles: the statuses, the transition table and the roles. */
module StateMachine {

  datatype CaseStatus =
    | New | Triaged | Investigating | AwaitingCustomer | Negotiating
    | PendingApproval | ActionTaken | Resolved | Escalated | WrittenOff

  datatype ActionStatus = Pending | Approved | Edited | Rejected | Executed | AutoExecuted | Denied

  datatype ActionType = SendEmail | CreateCreditMemo | PaymentPlan | Rebill | Escalate | Close

  datatype Decision = Allow | RequireApproval | Deny

  datatype AgentMode = Autonomous | HumanControl

  datatype Role = Viewer | Analyst | Manager | Admin

  const ACTIVE_TARGETS: set<CaseStatus> :=
    {Investigating, AwaitingCustomer, Negotiating, PendingApproval, Escalated, Resolved}

  function Transitions(src: CaseStatus): set<CaseStatus> {
    match src
    case New => {Triaged, PendingApproval, Escalated, Resolved, WrittenOff}
    case Triaged => ACTIVE_TARGETS + {WrittenOff}
    case Investigating => (ACTIVE_TARGETS - {Investigating}) + {Triaged, WrittenOff}
    case AwaitingCustomer => (ACTIVE_TARGETS - {AwaitingCustomer}) + {WrittenOff}
    case Negotiating => (ACTIVE_TARGETS - {Negotiating}) + {WrittenOff}
    case PendingApproval => {ActionTaken, Investigating, Negotiating, Escalated, Resolved, WrittenOff}
    case ActionTaken => (ACTIVE_TARGETS - {Escalated}) + {Escalated, WrittenOff}
    case Escalated => {Investigating, Negotiating, PendingApproval, AwaitingCustomer, Resolved, WrittenOff}
    case Resolved => {}
    case WrittenOff => {}
  }

  predicate IsTerminal(s: CaseStatus) {
    s in {Resolved, WrittenOff}
  }

  /** `assert_transition` lets the move through. */
  predicate Legal(src: CaseStatus, dst: CaseStatus) {
    src != dst && dst in Transitions(src)
  }

  function Rank(r: Role): nat {
    match r
    case Viewer => 0
    case Analyst => 1
    case Manager => 2
    case Admin => 3
  }

  datatype Principal = Principal(sub: nat, roles: set<Role>) {
    predicate AtLeast(role: Role) {
      exists r :: r in roles && Rank(r) >= Rank(role)
    }
  }
}
