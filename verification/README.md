# Recoup: verified model of its protocols and money arithmetic

Recoup works an accounts-receivable queue: an ERP is watched for overdue invoices, agents investigate
them through a tool gateway, people approve what policy does not allow outright, and events flow through
an outbox to read models. This project models the parts its guarantees rest on and proves those
guarantees for every input, every run or every schedule.

| module | component |
|---|---|
| `Outbox`, `Consumer`, `Projector`, `ProjectedRows`, `Replay`, `Delivery`, `DeliveryProgress` | outbox relay, consumer loop, event fold and the rows it writes, and the pipeline of all three under crashes and redelivery |
| `StateMachine`, `CaseService`, `CaseSession`, `CaseLaws`, `CaseInvariants`, `CaseLifecycle`, `CaseHistory`, `ReadModel` | the case service as specification and as in-place code, what each operation does, what every run keeps and records, and its read model |
| `ToolGateway`, `ToolService`, `GatewayLaws`, `GatewayRuns` | one tool call as specification and as in-place code, what it comes to, and runs mixing calls with case operations |
| `PolicyRules`, `PolicyLaws`, `PolicyEvaluation`, `PolicyService`, `EvaluationLaws` | the rule language, its evaluation order, stored policies and the simulator |
| `AgentLoop`, `AgentLaws`, `AgentRuns` | the tool-calling loop, its steps and its bounds |
| `Money`, `Scenarios`, `ScenarioLaws`, `ErpLedger`, `ErpLaws` | rounding and instalments, generated ground truth, the credit-memo ledger |
| `Email` | the idempotent send under interleavings and crashes |
| `Clock`, `TokenBucket`, `FixedWindow` | the two rate limiters |
| `EvalDataset` | eligibility filter and balanced pick |
| `Chunking`, `ChunkLaws` | the overlapping chunker |

Code that updates state in place is a class or a method with loops, proved against a specification
function. What each of these functions means is said a second time on its inputs alone, in the `...Laws`
modules and beside the functions; the other lemmas are about runs.

## How the outside world appears

Publishing, crashes, commits, clocks, SMTP, Redis, the policy answer a call receives, rate-limit answers,
argument validation, tool handlers, the language model and random draws are parameters: arbitrary values or functions,
restricted only where a range is part of the code. A handler may perform any case operations. Each case
operation is one transaction, because the database session rolls back on any exception.

## Where the code does less than it says

For each of these one lemma exhibits it on given inputs and another says exactly when it happens:

- An SMTP exception whose text is empty is stored as SENT and announced as sent
  (`Email.SentWithoutDelivery`, `Email.SentIff`).
- A submission accepted on the last allowed iteration ends in the budget error, since the graph always
  takes one more model turn (`AgentRuns.LastSubmitLost`, `AgentRuns.AcceptedNeedsOneMoreTurn`).
- An absent fact can make a rule hold, through `not` or `not_exists`
  (`PolicyRules.NegationMatchesAbsent`, `PolicyRules.AbsentMatchesIffBlind`).
- A default DENY can be left by adding a rule
  (`PolicyEvaluation.DefaultDenyIsLeft`, `PolicyEvaluation.DenySurvivesIff`).
- Simulating a disabled policy with its own rule can report changes
  (`PolicyService.DisabledSelfSimulation`, `PolicyService.DisabledSimulationIff`).
- The last instalment of a very small plan can be negative
  (`Money.SmallPlanGoesNegative`, `Money.LastNegativeIff`).
- `emails_sent` counts a redelivered email again
  (`Replay.EmailsSentDoubleCounts`, `Replay.EmailsSentIdempotentIff`).
- A read-only tool called twice under one idempotency key completes but fails on its audit row
  (`GatewayRuns.ReadRepeatNotAudited`, `GatewayRuns.CallAudited`).
- A retry of a side effect replies with the stored result, without the redaction and truncation of the
  first reply (`GatewayRuns.RetryRepliesUntrimmed`, `GatewayRuns.RetryReplaysStored`).
- With overlap equal to the window size the chunker does not end on a long paragraph
  (`Chunking.FullOverlapNeverEnds`, `Chunking.WindowsEndIff`).
- A case moved by hand to PENDING_APPROVAL may have nothing to approve
  (`CaseLifecycle.JumpWaitsForNothing`, `CaseLifecycle.WaitingRunIff`).

## Model

| member | source | states |
|---|---|---|
| Outbox.OutboxRelay.Enqueue | libs/recoup-common/recoup_common/events/outbox.py:63-85 | a committed row is appended unmarked; earlier marks stand |
| Outbox.OutboxRelay.DrainOnce | libs/recoup-common/recoup_common/events/outbox.py:108-142 | the log grows by exactly the rows sent from the first unmarked one on, up to the first failure (and that row too if the broker got it); the table is the drained one if the transaction commits and untouched if it does not; the count is the rows accepted |
| Outbox.OutboxRelay.PublishSelected | libs/recoup-common/recoup_common/events/outbox.py:125-141 | the batch loop publishes in order up to the first failure and marks exactly those rows in the session |
| Outbox.SelectIsRange | libs/recoup-common/recoup_common/events/outbox.py:112-124 | the batch query over a prefix-marked outbox is the next rows in id order, at most the batch size |
| Outbox.DrainKeepsPrefix | libs/recoup-common/recoup_common/events/outbox.py:108-142 | a drain, committed or not, keeps the events and the marks a prefix, and never marks a row that did not reach the broker |
| Outbox.DrainExactly | libs/recoup-common/recoup_common/events/outbox.py:108-142 | on the outcomes and the commit alone: with k deliveries before the first failure exactly k rows are marked, every row tried counts one attempt more, and the table stays as it was if and only if the transaction does not commit or the failure lost it; the log grows by those k rows, and the failing one if it reached the broker |
| Consumer.KafkaConsumerLoop.RunBatch | libs/recoup-common/recoup_common/events/consumer.py:55-72 | one loop turn folds the batch after the committed offset into the tables, skipping records that do not decode; the offset moves only if the loop lives to commit, so the batch comes back otherwise |
| Consumer.BatchExactly | libs/recoup-common/recoup_common/events/consumer.py:56 | a batch is at most 50 records and stops short only at the end of the log |
| Projector.Projector.UpsertRow | services/analytics/recoup_analytics/projector.py:51-60 | insert if absent, else overwrite the listed columns only |
| Projector.Projector.Handle | services/analytics/recoup_analytics/projector.py:92-332 | one delivery is one step of the event fold; a projection that raises leaves the tables as they were; `seen` counts the committed ones |
| ProjectedRows.CaseCreatedWrites | services/analytics/recoup_analytics/projector.py:121-149 | the tables after one such event, column by column: a new case row is NEW; an existing row keeps its status and gets the rest anew |
| ProjectedRows.StateChangedWrites | services/analytics/recoup_analytics/projector.py:150-157 | the tables after one such event, column by column: the new status, closing columns for RESOLVED and WRITTEN_OFF only, the escalation flag for ESCALATED only |
| ProjectedRows.CasePatchWrites | services/analytics/recoup_analytics/projector.py:158-176 | the tables after one such event, column by column: closing for case.resolved, HUMAN_CONTROL for a takeover, AUTONOMOUS for a release, each with its flag |
| ProjectedRows.ActionProposedWrites | services/analytics/recoup_analytics/projector.py:177-195 | the tables after one such event, column by column: a new action is PROPOSED; a repeat refreshes the policy columns and not the outcome |
| ProjectedRows.ActionDecidedWrites | services/analytics/recoup_analytics/projector.py:196-216 | the tables after one such event, column by column: APPROVED, EDITED or REJECTED by the very kind of the event, and the case touched by a human |
| ProjectedRows.CountsReadAsNumbers | services/analytics/recoup_analytics/projector.py:239-265 | which values read as a number of steps or tokens: numbers, nothing and everything empty as zero, true as one; the rest raises |
| ProjectedRows.RunStartedWrites | services/analytics/recoup_analytics/projector.py:217-235 | the tables after one such event, column by column: a RUNNING run; the first agent time of the case in LIVE mode only |
| ProjectedRows.RunCompletedWrites | services/analytics/recoup_analytics/projector.py:236-270 | the tables after one such event, column by column: the run with its figures, or nothing at all if one of them is no number; the root cause on the case if there is one |
| ProjectedRows.StepCompletedWrites | services/analytics/recoup_analytics/projector.py:271-289 | the tables after one such event, column by column: one step row per event; a repeat refreshes status, tokens and latency |
| ProjectedRows.ToolCallWrites | services/analytics/recoup_analytics/projector.py:290-309 | the tables after one such event, column by column: one tool row per event; a repeat refreshes status, decision and latency |
| ProjectedRows.EmailWrites | services/analytics/recoup_analytics/projector.py:310-332 | the tables after one such event, column by column: a sent mail is OUT and counts by one on an existing case row; a received one is IN and does not |
| ProjectedRows.IgnoredWritesNothing | services/analytics/recoup_analytics/projector.py:92-332 | an event without tenant, of another kind, or without the case or action its kind needs writes nothing |
| ProjectedRows.RawCopyWrites | services/analytics/recoup_analytics/projector.py:98-115 | keeping raw events adds one row per event whose payload a repeat refreshes, and none for an event that raises |
| Replay.PrefixAbsorption | services/analytics/recoup_analytics/projector.py:51-332 | folding t, then t followed by u, ends where t followed by u alone ends, for all events and tables, `emails_sent` aside |
| Replay.BatchIdempotent | services/analytics/recoup_analytics/projector.py:51-332 | folding a batch a second time changes nothing, `emails_sent` aside |
| Replay.ScrubCongruence | services/analytics/recoup_analytics/projector.py:51-332 | tables that differ only in `emails_sent` stay so under any events |
| Replay.EmailsSentIdempotentIff | services/analytics/recoup_analytics/projector.py:326-332 | a redelivered batch leaves a case's `emails_sent` alone if and only if it counts no email for that case |
| Replay.EmailsSentDoubleCounts | services/analytics/recoup_analytics/projector.py:326-332 | the concrete case: one sent email delivered twice is counted twice |
| Delivery.ReachableInvariant | libs/recoup-common/recoup_common/events/outbox.py:108-142 | over every schedule the marks stay a prefix, the log covers them in order, and finishing what is left always leads to one fold of the outbox |
| Delivery.RelayOrder | libs/recoup-common/recoup_common/events/outbox.py:108-142 | in every reachable state the marked rows are a prefix, the log without repeats is a prefix of the outbox in id order, and it holds every marked row |
| Delivery.Convergence | services/analytics/recoup_analytics/projector.py:92-332 | for every schedule of enqueues, publish failures, rollbacks and redeliveries: once all is marked and consumed the tables are one fold of the outbox, `emails_sent` aside |
| Delivery.ConvergenceExact | services/analytics/recoup_analytics/projector.py:92-332 | without sent-email events the tables are equal outright |
| DeliveryProgress.EnqueueIff | libs/recoup-common/recoup_common/events/outbox.py:63-85 | an event becomes a new unmarked row exactly if its id is new |
| DeliveryProgress.CanAlwaysDrain | libs/recoup-common/recoup_common/events/outbox.py:108-142 | from every reachable state some schedule drains the pipeline without touching the outbox, and then the tables are those of one pass over it, `emails_sent` aside |
| ReadModel.ReadModelAgrees | services/analytics/recoup_analytics/projector.py:63-83 | after any run of the case service and any delivery schedule, the drained `dim_case` has exactly the existing cases, with their status, closed exactly when the case is resolved |
| ReadModel.ReadModelShowsActions | services/analytics/recoup_analytics/projector.py:177-216 | after any run of the case service and any delivery schedule, the drained `fact_action` has exactly the existing actions with their cases; the outcome is PROPOSED while no decision was emitted, then APPROVED, EDITED or REJECTED by that decision |
| ReadModel.ReadModelShowsModes | services/analytics/recoup_analytics/projector.py:166-176 | likewise the case row shows HUMAN_CONTROL if and only if a human is in control of the case |
| CaseSession.CaseSession.MoveTo | services/case/recoup_case/service.py:100-130 | the in-place status change agrees with its specification, raising exactly on an illegal move |
| CaseSession.CaseSession.OpenCase | services/case/recoup_case/service.py:216-266 | opening a case claims all its invoices or raises |
| CaseSession.CaseSession.ChangeStatus | services/case/recoup_case/service.py:269-284 | an explicit transition: version check, then the legal move, or it raises |
| CaseSession.CaseSession.RecordTriage | services/case/recoup_case/service.py:287-308 | triage fields, and NEW moves to TRIAGED |
| CaseSession.CaseSession.AddProposal | services/case/recoup_case/service.py:386-446 | a proposal is stored with the status its decision gives and moves the case to PENDING_APPROVAL when approval is needed |
| CaseSession.CaseSession.RecordDecision | services/case/recoup_case/service.py:456-539 | a decision passes the role, version and content checks or raises; the last one settles the case |
| CaseSession.CaseSession.RecordExecution | services/case/recoup_case/service.py:542-569 | only an approved or edited action is marked executed, AUTO_EXECUTED only under ALLOW without a decider |
| CaseSession.CaseSession.Execute | libs/recoup-common/recoup_common/db.py:59-67 | any operation is all or nothing: on an exception every field is as before |
| CaseLaws.LegalByTarget | services/case/recoup_case/state_machine.py:34-95 | which moves the transition table allows, read by the status moved to |
| CaseLaws.RolesRanked | libs/recoup-common/recoup_common/auth.py:25-42 | roles rank viewer, analyst, manager, admin, and a principal counts by the highest it has |
| CaseLaws.CreateExactly | services/case/recoup_case/service.py:216-266 | creation commits exactly for one or more distinct unclaimed invoices and a new id; every row and event it leaves |
| CaseLaws.TransitionExactly | services/case/recoup_case/service.py:269-284 | an explicit move commits exactly if it is up to date and legal; status, resolution time, version and events after it |
| CaseLaws.TriageExactly | services/case/recoup_case/service.py:287-308 | triage writes cause and priority on every own case, and moves a NEW one to TRIAGED |
| CaseLaws.ModeExactly | services/case/recoup_case/service.py:345-384 | takeover and release flip the mode exactly when that is a change and, to take over, the case is open; what they leave |
| CaseLaws.ProposeExactly | services/case/recoup_case/service.py:386-446 | a proposal is stored APPROVED, PENDING or DENIED as its policy decision says, and moves the case exactly when it needs approval |
| CaseLaws.DecideExactly | services/case/recoup_case/service.py:456-539 | a decision commits exactly for an own pending action, a principal of the required role and the current version; the action then has that very verdict and principal, and the edit if and only if EDITED; the case goes to INVESTIGATING if and only if REJECTED, else to ACTION_TAKEN, once no other action is pending |
| CaseLaws.ExecuteExactly | services/case/recoup_case/service.py:542-569 | marking executed commits exactly on an own approved or edited action; AUTO_EXECUTED if and only if proposed under ALLOW and decided by nobody |
| CaseLaws.RefusedAs | services/case/recoup_case/service.py:216-569 | the error of every refused operation, by the first check it fails |
| CaseInvariants.ProposeKeeps | services/case/recoup_case/service.py:386-446 | a proposal commits exactly when the case is visible and not closed: its status move is never illegal; it keeps the invariant |
| CaseInvariants.DecideKeeps | services/case/recoup_case/service.py:456-539 | a decision commits exactly when its own checks pass: the move back out of PENDING_APPROVAL is never illegal; it keeps the invariant |
| CaseInvariants.TriageKeeps | services/case/recoup_case/service.py:287-308 | triage of a visible case always commits and keeps the invariant |
| CaseInvariants.StepKeeps | services/case/recoup_case/service.py:216-569 | every operation keeps the action and event-log invariant |
| CaseLifecycle.ActionLifecycle | services/case/recoup_case/service.py:386-569 | over all runs: pending means approval is required; DENY and REJECTED never execute; AUTO_EXECUTED iff executed under ALLOW; an EXECUTED action was decided by a principal of sufficient rank |
| CaseLifecycle.ExecutedAtMostOnce | services/case/recoup_case/service.py:542-569 | over any run an action is marked executed at most once, exactly once iff it ends executed |
| CaseLifecycle.FinalActionsFrozen | services/case/recoup_case/service.py:466-569 | rejected, denied and executed actions never change again |
| CaseLifecycle.StrandedIff | services/case/recoup_case/service.py:269-284 | from a state where every waiting case has a pending action, one operation breaks that if and only if it is a committing explicit transition into PENDING_APPROVAL of a case with nothing pending |
| CaseLifecycle.WaitingRunIff | services/case/recoup_case/service.py:386-539 | along a whole run every waiting case has a pending action at every moment if and only if no operation strands a case in the state it meets |
| CaseLifecycle.NoCaseWaitsForNothing | services/case/recoup_case/service.py:386-539 | in particular, without any explicit transition into PENDING_APPROVAL a case in it always has a pending action |
| CaseLifecycle.JumpWaitsForNothing | services/case/recoup_case/service.py:269-284 | the condition is needed: an explicit transition leaves a case waiting with nothing to approve |
| CaseLifecycle.StatusLogAgrees | services/case/recoup_case/service.py:100-130 | folding the state_changed events of a case from NEW gives its status; resolved_at is set iff the status is terminal iff case.resolved was emitted exactly once |
| CaseLifecycle.StatusChangesChain | services/case/recoup_case/state_machine.py:34-95 | consecutive status events of a case chain through legal moves, and none follows a terminal one |
| CaseHistory.ExecutedWasApproved | services/case/recoup_case/service.py:466-569 | over all runs, an action executed under REQUIRE_APPROVAL has a committed decision APPROVED or EDITED among the operations, by the principal on record, of the role it requires |
| CaseHistory.RejectedNeverExecutes | services/case/recoup_case/service.py:466-569 | over all runs, an action with a committed decision REJECTED stays rejected and never executes |
| CaseHistory.HistoryAgrees | services/case/recoup_case/service.py:386-539 | over all runs the emitted events tell each action's case, policy decision and verdict, and each case's mode, as the rows have them |
| ToolService.ToolService.Audit | services/tool-gateway/alembic/versions/0001_tools_initial.py:49-56 | the insert is refused exactly when a success row of the same tenant, tool and key exists |
| GatewayRuns.CallRunsIff | services/tool-gateway/recoup_tool_gateway/service.py:137-191 | a handler starts if and only if arguments and limit pass, a side effect is live with an unused key, and policy answered ALLOW, or REQUIRE_APPROVAL with a visible, approved or edited, unexecuted action of the same case and type, or the tool is `propose_action` |
| GatewayLaws.AuditedAs | services/tool-gateway/recoup_tool_gateway/service.py:137-207 | the audited status, each with all the ways into it: REJECTED_ARGS, RATE_LIMITED, CACHED, SUCCESS |
| GatewayLaws.AuditedAsDenied | services/tool-gateway/recoup_tool_gateway/service.py:172-356 | likewise SHADOW, DENIED and APPROVAL_REQUIRED |
| GatewayLaws.AuditRow | services/tool-gateway/recoup_tool_gateway/service.py:119-233 | the rest of the audit row: the caller's own fields, the policy's answer exactly if it was asked, the result exactly if the handler completed |
| GatewayLaws.RepeatRow | services/tool-gateway/recoup_tool_gateway/service.py:155-170 | a repeat is audited with decision and result of an earlier success of the same tenant, tool and key |
| GatewayLaws.ReplyFollowsRow | services/tool-gateway/recoup_tool_gateway/service.py:155-220 | the reply to each audited status |
| GatewayLaws.StoreAfter | services/tool-gateway/recoup_tool_gateway/service.py:178-191 | a call leaves the case service alone if its handler did not start, with what the handler did if it did not complete, and with the named action marked executed on top of that exactly if it completed naming case and approval and is no proposal |
| GatewayLaws.ExecutesIff | services/tool-gateway/recoup_tool_gateway/service.py:181-191 | apart from its handler's own doings, a call turns an action executed if and only if it completed naming it, on its case, approved or edited; no other action changes |
| ToolService.ToolService.Invoke | services/tool-gateway/recoup_tool_gateway/service.py:119-220 | the mutable pipeline, audit row included, is the specified outcome of the whole call |
| GatewayRuns.CallAuthorised | services/tool-gateway/recoup_tool_gateway/service.py:297-356 | a gated handler runs only under ALLOW, or under REQUIRE_APPROVAL with an approved or edited, unexecuted action of the same case and action type |
| GatewayRuns.CallAudited | services/tool-gateway/recoup_tool_gateway/service.py:208-211 | a call adds one audit row, SUCCESS iff its handler completed; it adds none, and fails, if and only if the tool has no side effects, its key already has a success row, and arguments, rate limit, gate and handler all pass |
| GatewayRuns.ReadRepeatNotAudited | services/tool-gateway/alembic/versions/0001_tools_initial.py:49-56 | the exception occurs: a read-only tool called twice under one key completes, is not audited and fails |
| GatewayRuns.RetryReplaysStored | services/tool-gateway/recoup_tool_gateway/service.py:155-220 | a retry of a completed side effect, live or not, runs nothing, moves no case and replies with the result the first call stored; the two replies carry the same value if and only if redaction and truncation leave that result as it is |
| GatewayRuns.RetryRepliesUntrimmed | services/tool-gateway/recoup_tool_gateway/service.py:155-220 | they do differ: a concrete call whose result is trimmed in the first reply and comes back untrimmed in the retry |
| GatewayRuns.ShadowIsInert | services/tool-gateway/recoup_tool_gateway/service.py:173-174 | outside LIVE a side-effect tool runs no handler, changes no case and leaves every later lookup as it was |
| GatewayRuns.ShadowDeniesAsLive | services/tool-gateway/recoup_tool_gateway/service.py:234-295 | shadow denies exactly when live would; for `propose_action` shadow denies where live runs |
| GatewayRuns.ExecutionsAuthorised | services/tool-gateway/recoup_tool_gateway/service.py:172-191 | over all runs mixing calls and case operations a gated handler that ran was never under DENY; at some step of the run its own store authorised it, under REQUIRE_APPROVAL by an approved action of its own case and type, decided by sufficient rank or proposed under ALLOW |
| GatewayLaws.StoreIsRun | services/tool-gateway/recoup_tool_gateway/service.py:172-191 | over all runs the case service has seen exactly the operations of the run and of its calls, in order |
| GatewayLaws.HumanSaidYes | services/tool-gateway/recoup_tool_gateway/service.py:297-356 | over all runs, a handler that ran under REQUIRE_APPROVAL rode on an action proposed under ALLOW or one with a committed decision APPROVED or EDITED before that step, by a principal of the role it requires |
| GatewayLaws.RejectedNeverRuns | services/tool-gateway/recoup_tool_gateway/service.py:297-356 | over all runs, once a decision REJECTED was committed on an action it never executes and no handler runs on it under REQUIRE_APPROVAL |
| GatewayRuns.RegisteredIsGoverned | services/tool-gateway/recoup_tool_gateway/registry.py:57-65 | whatever is registered, every side-effect tool but the two low-risk ones is policy-checked |
| GatewayLaws.RegisterExactly | services/tool-gateway/recoup_tool_gateway/registry.py:57-65 | which tools registration takes and which it refuses |
| GatewayRuns.SideEffectsAuthorised | services/tool-gateway/recoup_tool_gateway/registry.py:57-65 | so over all runs any side effect was low-risk, a proposal, or authorised by the run's own store at that step |
| GatewayRuns.ApprovalsSingleUse | services/tool-gateway/recoup_tool_gateway/service.py:181-191 | over all runs no action backs two REQUIRE_APPROVAL executions |
| GatewayRuns.SideEffectsOnce | services/tool-gateway/recoup_tool_gateway/service.py:149-170 | over all runs a side effect completes at most once per tenant, tool and key, and there is at most one SUCCESS row for them |
| PolicyRules.SplitJoins | services/policy/recoup_policy/engine.py:38 | the parts of a fact path are its dot-free pieces |
| PolicyRules.GetFact | services/policy/recoup_policy/engine.py:36-43 | the loop finds the value at the path, or nothing at the first missing part |
| PolicyLaws.FactSteps | services/policy/recoup_policy/engine.py:36-43 | a name is looked up in objects only, and a dotted path goes on from there |
| PolicyRules.ValidateRule | services/policy/recoup_policy/engine.py:105-124 | the recursive check raises the first objection, in order, or none |
| PolicyLaws.ValidByShape | services/policy/recoup_policy/engine.py:105-124 | which rules are valid, by shape |
| PolicyLaws.ObjectionKinds | services/policy/recoup_policy/engine.py:105-124 | an invalid rule is malformed, but for a comparison whose operator is a list or an object |
| PolicyLaws.MatchesByShape | services/policy/recoup_policy/engine.py:127-134 | `all`, then `any`, then `not`, then a comparison: the first decisive part, or the first that raises, decides |
| PolicyRules.NegatedOperators | services/policy/recoup_policy/engine.py:59-85 | `!=`, `not_in`, `not_exists` negate their partners on a present fact |
| PolicyRules.NumbersAreOrdered | services/policy/recoup_policy/engine.py:46-74 | numbers and numeric text are totally ordered by the six comparisons; anything else compares false |
| PolicyLaws.ComparesNumbers | services/policy/recoup_policy/engine.py:66-74 | on numbers, and text that reads as numbers, the six comparisons are the six orders of the values |
| PolicyLaws.ComparesOthers | services/policy/recoup_policy/engine.py:66-74 | unless both operands are numbers, equality is of the values and no order holds |
| PolicyLaws.InHolds | services/policy/recoup_policy/engine.py:75-78 | membership in a list, a piece of text, a name of an object; never in an empty or false value; an error in anything else |
| PolicyLaws.ContainsHolds | services/policy/recoup_policy/engine.py:79-80 | containment in a list or a text, and in nothing else |
| PolicyLaws.TextOperators | services/policy/recoup_policy/engine.py:81-84 | prefixes and patterns, on text only |
| PolicyLaws.MissingFacts | services/policy/recoup_policy/engine.py:59-65 | a missing fact makes exactly `not_exists` hold, a null one exists not |
| PolicyLaws.UnknownRefused | services/policy/recoup_policy/engine.py:59-85 | an operator is refused exactly if it is none of the thirteen |
| PolicyRules.ValidatedOperators | services/policy/recoup_policy/engine.py:59-134 | a validated rule never meets the unknown-operator error, and with typed operands never raises |
| PolicyRules.AbsentMatchesIffBlind | services/policy/recoup_policy/engine.py:59-134 | with all its facts absent a rule matches if and only if it is blind: a property of its `not`/`not_exists` structure alone |
| PolicyRules.NegationMatchesAbsent | services/policy/recoup_policy/engine.py:11-12 | the promise that an absent value cannot make a rule hold fails for `not` |
| PolicyRules.MatchMonotone | services/policy/recoup_policy/engine.py:36-134 | for rules without `not` and `not_exists` whose compared facts are not objects, new facts never turn a match off |
| PolicyEvaluation.SortSound | services/policy/recoup_policy/engine.py:175-178 | the sort is an ordered permutation |
| PolicyEvaluation.SortStable | services/policy/recoup_policy/engine.py:175-178 | rules of equal key keep their order |
| EvaluationLaws.LowerNumberFirst | services/policy/recoup_policy/engine.py:175-178 | the lower priority number ranks first, then the name that comes first |
| PolicyEvaluation.OrderIndependent | services/policy/recoup_policy/engine.py:161-209 | with unique names the result, errors included, is the same for every order of the rule list |
| PolicyEvaluation.SilentRulesDrop | services/policy/recoup_policy/engine.py:179 | rules that do not match can be dropped |
| PolicyEvaluation.WhoDecides | services/policy/recoup_policy/engine.py:189-209 | a matching DENY wins, else the match ranked above all others decides with its role, else the default with its own |
| PolicyEvaluation.MatchesReported | services/policy/recoup_policy/engine.py:180-188 | the report names exactly the matching rules |
| EvaluationLaws.AnswersExactly | services/policy/recoup_policy/engine.py:161-209 | the whole answer: decision, role, reason text and report of the first DENY, else the first match, else the default |
| EvaluationLaws.FailsAsFirst | services/policy/recoup_policy/engine.py:175-179 | an evaluation that fails does so as the first failing rule in rank order |
| PolicyEvaluation.MoreRulesStayDenied | services/policy/recoup_policy/engine.py:189-192 | adding rules anywhere never leaves a DENY that a rule gave |
| PolicyEvaluation.DenySurvivesIff | services/policy/recoup_policy/engine.py:189-209 | every rule list that contains the given rules still yields DENY if and only if some matching rule among the given ones is a DENY |
| PolicyEvaluation.DefaultDenyIsLeft | services/policy/recoup_policy/engine.py:203-209 | the concrete case: with no rules a default DENY is left by adding one ALLOW or one REQUIRE_APPROVAL rule |
| PolicyService.Policy.Update | services/policy/recoup_policy/service.py:90-98 | only description, priority and the switch change, each only if given |
| PolicyService.Policy.AddVersion | services/policy/recoup_policy/service.py:101-118 | versions stay numbered 1, 2, ... and the new one is current |
| PolicyService.CompiledRules | services/policy/recoup_policy/service.py:136-157 | the loop compiles exactly the enabled policies with a current version, in list order |
| EvaluationLaws.CompilesOneByOne | services/policy/recoup_policy/service.py:136-157 | each enabled policy gives its current version, any other one nothing |
| PolicyService.Simulate | services/policy/recoup_policy/service.py:211-259 | the loop compares, context by context, the current rules with the replaced list and counts the changes |
| EvaluationLaws.SimulatesExactly | services/policy/recoup_policy/service.py:211-259 | which two rule lists are compared, what each row says, when it has changed, and how many have |
| PolicyService.SelfSimulation | services/policy/recoup_policy/service.py:211-259 | simulating an enabled policy with its own current rule, decision and role reports no change on any contexts |
| PolicyService.CandidateChangesIff | services/policy/recoup_policy/service.py:233-255 | adding a candidate of a new name changes decision or role if and only if it matches, no matching rule denies, it denies or ranks above every matching rule, and it says something else than what is in force |
| PolicyService.DisabledSimulationIff | services/policy/recoup_policy/service.py:211-259 | simulating a disabled policy, with its own or any rule, marks exactly the rows of those contexts as changed, and reports no change iff there are none |
| PolicyService.DisabledSelfSimulation | services/policy/recoup_policy/service.py:136-140 | the concrete case: a disabled ALLOW policy simulated with its own rule reports one change |
| AgentRuns.ModelAppends | services/orchestrator/recoup_orchestrator/agents/loop.py:164-179 | a model turn adds exactly one assistant message, behind a nudge iff the last one was idle, and leaves every earlier call answered |
| AgentRuns.StepUsage | services/orchestrator/recoup_orchestrator/agents/loop.py:159-183 | a node step takes at most one turn, and usage and iterations grow by exactly that turn |
| AgentLoop.RunTools | services/orchestrator/recoup_orchestrator/agents/loop.py:185-278 | answers real calls in order, then judges submissions in order, counting repairs |
| AgentLaws.ModelStep | services/orchestrator/recoup_orchestrator/agents/loop.py:151-183 | what the model is shown, what is recorded of its turn, and where the run goes next |
| AgentLaws.FirstStep | services/orchestrator/recoup_orchestrator/agents/loop.py:144-183 | a run starts with system and user message and nothing used |
| AgentLaws.ToolsStep | services/orchestrator/recoup_orchestrator/agents/loop.py:185-278 | every tool call is answered with its own result, every submission with its own verdict, the last valid one is the output, and one repair too many ends the run |
| AgentLoop.Run | services/orchestrator/recoup_orchestrator/agents/loop.py:140-149 | the graph loop is the specified run under the recursion limit |
| AgentRuns.JudgedAnswers | services/orchestrator/recoup_orchestrator/agents/loop.py:235-272 | a round of submissions fails exactly when it exceeds the repair budget; otherwise each is answered, repairs grow by the rejected ones, and a valid one is taken if there is any |
| AgentRuns.LastValidCounts | services/orchestrator/recoup_orchestrator/agents/loop.py:235-238 | of several valid submissions in one message the last one counts |
| AgentRuns.ToolsNodeAnswers | services/orchestrator/recoup_orchestrator/agents/loop.py:185-278 | a completed tools step answers every call of the last assistant message exactly once, by id and name |
| AgentRuns.Transcript | services/orchestrator/recoup_orchestrator/agents/loop.py:140-278 | over all runs every call but those of a final message is answered right behind it, repairs equal the invalid answers and stay in budget, iterations equal the assistant messages |
| AgentRuns.RunIsBounded | services/orchestrator/recoup_orchestrator/agents/loop.py:304-307 | every run is over within 2 * max_iterations + 1 node steps, so the recursion limit never decides |
| AgentRuns.UsageIsSum | services/orchestrator/recoup_orchestrator/agents/loop.py:173-182 | token usage is the sum over the turns taken, at most max_iterations |
| AgentRuns.AcceptedNeedsOneMoreTurn | services/orchestrator/recoup_orchestrator/agents/loop.py:148-163 | an accepted submission succeeds if and only if one iteration is left and the model answers once more; else the budget error |
| AgentRuns.SuccessIsSubmitThenTurn | services/orchestrator/recoup_orchestrator/agents/loop.py:145-157 | a run succeeds if and only if some tools step accepts with an iteration left and the model answers |
| AgentRuns.BudgetOfOneNeverSucceeds | services/orchestrator/recoup_orchestrator/agents/loop.py:160-163 | a budget of one never succeeds |
| AgentRuns.LastSubmitLost | services/orchestrator/recoup_orchestrator/agents/loop.py:145-163 | the concrete run: one iteration allowed, the first turn submits validly, the submission is accepted, and the run ends in the budget error |
| Money.HalfEvenIsNearest | services/mock-erp/recoup_mock_erp/routes.py:263-266 | the rounding is the one nearest integer, even on a tie (roundTiesToEven, section 4.3.1 of IEEE 754-2019) |
| Money.DiscountRangeIff | services/mock-erp/recoup_mock_erp/routes.py:262-265 | for any discount at all: the discounted total is negative, or above the open amount, exactly when the discount leaves 0 to 100 percent by more than the rounding |
| Money.DiscountInRange | services/mock-erp/recoup_mock_erp/routes.py:262-265 | a discount of 0 to 100 percent leaves between nothing and everything, exactly so at the ends |
| Money.SplitPlan | services/mock-erp/recoup_mock_erp/routes.py:266-278 | the instalment loop makes the specified plan |
| Money.PlanSums | services/mock-erp/recoup_mock_erp/routes.py:266-278 | instalments sum to the total exactly, for every total and count |
| Money.PlanIsEven | services/mock-erp/recoup_mock_erp/routes.py:266-278 | all but the last are equal, the last differs by at most n/2 cents, due dates rise by 30 days |
| ErpLaws.ShareIsNearest | services/mock-erp/recoup_mock_erp/routes.py:266-270 | each share but the last is the total over the count to the nearest cent |
| Money.PlanNonNegative | services/mock-erp/recoup_mock_erp/routes.py:266-278 | no instalment is negative from n(n-1)/2 cents on |
| Money.LastNegativeIff | services/mock-erp/recoup_mock_erp/routes.py:266-278 | below that, the last is negative if and only if the share was rounded up and quotient plus remainder is under n - 1 |
| Money.SmallPlanGoesNegative | services/mock-erp/recoup_mock_erp/routes.py:266-278 | seven cents in twelve instalments end in minus four |
| Scenarios.ContractPriceRange | services/mock-erp/recoup_mock_erp/scenarios.py:181-183 | contract prices lie between 6.80 and 480.00 |
| Scenarios.OrderLines | services/mock-erp/recoup_mock_erp/scenarios.py:196-232 | the order's total is the subtotal of the invoice made of it |
| Scenarios.Reprice | services/mock-erp/recoup_mock_erp/scenarios.py:312-321 | the pricing loop changes the lines and accumulates the credit as specified |
| Scenarios.RepriceAddsOvercharge | services/mock-erp/recoup_mock_erp/scenarios.py:312-321 | the credit is exactly what the new prices add to the subtotal, even for a line picked twice |
| ScenarioLaws.BumpedLine | services/mock-erp/recoup_mock_erp/scenarios.py:316-320 | a picked line's new price is the old one times the bump to the nearest cent; its amount follows |
| ScenarioLaws.PickedOnce | services/mock-erp/recoup_mock_erp/scenarios.py:312-320 | each picked line is bumped once, by its own factor |
| Scenarios.DeliveredShort | services/mock-erp/recoup_mock_erp/scenarios.py:328-329 | the delivered quantity is never negative and strictly short |
| ScenarioLaws.DeliveredShare | services/mock-erp/recoup_mock_erp/scenarios.py:325-330 | the drawn share to the nearest unit, a half to the even one, and at most one less than billed |
| Scenarios.ShortDelivery | services/mock-erp/recoup_mock_erp/scenarios.py:334-338 | exactly the chosen line is delivered short |
| Scenarios.Generate | services/mock-erp/recoup_mock_erp/scenarios.py:274-470 | one pass of the generator makes the specified invoice and ground truth |
| Scenarios.WithinACent | services/mock-erp/recoup_mock_erp/scenarios.py:234-239 | taxing the credit apart misses the difference of the totals by at most a cent, and hits it iff the taxes add up |
| Scenarios.TruthIsRight | services/mock-erp/recoup_mock_erp/scenarios.py:312-439 | for every draw the expected memo is the invoice total less what is rightly due (contract prices, delivered quantities, freight only where billable, nothing for a second invoice of one order), to the cent except one cent for pricing and quantity, where it is also positive; for the scenarios without a money dispute it says that both are nothing |
| Scenarios.TruthIsIssuable | services/mock-erp/recoup_mock_erp/scenarios.py:437-449 | for every draw the expected memo is between zero and the open amount |
| Scenarios.SeededConsistent | services/mock-erp/recoup_mock_erp/scenarios.py:437-471 | totals are those of the invoice's own lines and the open amount is what is unpaid |
| ScenarioLaws.NearestCents | services/mock-erp/recoup_mock_erp/scenarios.py:181-239 | tax is 7 percent, a credit with tax 107 percent, a contract price the list price less the discount, to the nearest cent |
| ScenarioLaws.InvoiceFields | services/mock-erp/recoup_mock_erp/scenarios.py:295-471 | label, lines, freight, sums, paid amount and status of every generated invoice |
| ScenarioLaws.DeliveredAsBilled | services/mock-erp/recoup_mock_erp/scenarios.py:325-338 | every line is delivered as billed but the chosen one of a quantity dispute |
| ScenarioLaws.ExpectedMemo | services/mock-erp/recoup_mock_erp/scenarios.py:312-439 | the expected memo of every scenario, from the overcharge, the undelivered goods, the freight or the total |
| Scenarios.TaxRoundingMayDiffer | services/mock-erp/recoup_mock_erp/scenarios.py:234-239 | separate rounding of tax does miss by a cent, in both directions |
| ErpLedger.Ledger.CreateCreditMemo | services/mock-erp/recoup_mock_erp/routes.py:204-232 | the handler in place is the specified operation, error cases included |
| ErpLedger.Ledger.ApplyCreditMemo | services/mock-erp/recoup_mock_erp/repo.py:85-88 | open amount and status of the one invoice change, nothing else |
| ErpLedger.Ledger.CreatePaymentPlan | services/mock-erp/recoup_mock_erp/routes.py:247-291 | the handler in place is the specified operation, error cases included |
| ErpLedger.Ledger.ReplaceDataset | services/mock-erp/recoup_mock_erp/repo.py:13-39 | the tables are replaced wholesale |
| ErpLedger.Conservation | services/mock-erp/recoup_mock_erp/routes.py:204-232 | over all runs open + memos = total - paid, open >= 0, one memo per key, and a fully credited invoice is PAID or VOID by whether anything was paid |
| ErpLedger.MemoExactly | services/mock-erp/recoup_mock_erp/routes.py:206-231 | a new key is accepted iff the invoice exists and 0 < amount <= open; then exactly the amount comes off (the clamp never bites) and no other invoice moves; a used key or an error changes nothing |
| ErpLaws.MemoAnswers | services/mock-erp/recoup_mock_erp/routes.py:204-232 | the error or the memo, and every table after it, for each request |
| ErpLaws.Credits | services/mock-erp/recoup_mock_erp/repo.py:85-88 | open amount, clamped at zero, and status of a credited invoice |
| ErpLedger.RetryAnswersTheSame | services/mock-erp/recoup_mock_erp/routes.py:206-210 | after a success its key keeps answering with the same memo |
| ErpLedger.FilterSeesMemos | services/evals/recoup_evals/runner.py:106-108 | over all runs open != total - paid if and only if a memo was issued on the invoice |
| ErpLedger.GroundTruthIsAccepted | services/mock-erp/recoup_mock_erp/scenarios.py:437-449 | a positive expected memo of a generated invoice is accepted under any unused key; zero is not |
| ErpLedger.PlanExactly | services/mock-erp/recoup_mock_erp/routes.py:262-291 | over all runs and for any discount a new plan's total is the nearest cent to the discounted open amount, its instalments sum to it, and no invoice moves; for 0 to 100 percent it is between nothing and the open amount |
| ErpLaws.PlanAnswers | services/mock-erp/recoup_mock_erp/routes.py:247-291 | the error or the plan, and every table after it, for each request; each invoice's open amount is counted once |
| ErpLaws.SeedForgets | services/mock-erp/recoup_mock_erp/repo.py:13-39 | after any history a new dataset leaves its invoices, no memo and no plan |
| ErpLedger.DistinctSound | services/mock-erp/recoup_mock_erp/routes.py:254-258 | the invoices of a plan are taken once each, none is lost |
| Email.AtMostOnce | services/communication/recoup_communication/service.py:119-204 | over all interleavings and crashes a key reaches SMTP at most once and gets at most one event, and a settled row tells that call's outcome |
| Email.SentIff | services/communication/recoup_communication/service.py:161-185 | a settled row is SENT if and only if SMTP returned or raised an exception without text |
| Email.StoredAs | services/communication/recoup_communication/service.py:161-185 | FAILED with the first 2000 characters of the text, SENT without an exception or without text |
| Email.SentWithoutDelivery | services/communication/recoup_communication/service.py:181-184 | so SENT does not imply a successful SMTP call: the concrete run |
| Email.CrashLeavesQueued | services/communication/recoup_communication/service.py:117-118 | a crash after the first commit leaves QUEUED under every continuation, retries included: no second SMTP call, no event |
| Email.Mailer.Enqueue | services/communication/recoup_communication/models.py:59 | the first transaction inserts QUEUED exactly for an unused key and a valid request |
| Email.Mailer.Record | services/communication/recoup_communication/service.py:176-203 | the second transaction settles the row and emits the matching event |
| Email.Mailer.SendEmail | services/communication/recoup_communication/service.py:109-204 | an uninterrupted send is the four protocol steps, and answers with the stored row for a used key |
| Email.SendExactly | services/communication/recoup_communication/service.py:109-204 | an uninterrupted send does nothing under a known key or for a bad request; else one SMTP call, one row, one event that agree |
| TokenBucket.RateLimiter.Allow | services/gateway/recoup_gateway/ratelimit.py:20-31 | refill, cap, take: verdict and whole new table |
| TokenBucket.CallExactly | services/gateway/recoup_gateway/ratelimit.py:20-31 | what a bucket holds at a call, when the call passes, and that it takes one token |
| TokenBucket.IntervalBound | services/gateway/recoup_gateway/ratelimit.py:20-31 | over all runs a key is admitted at most per_minute + (t-s) * per_minute / 60 times in [s, t] |
| TokenBucket.QuietKeyIsAdmitted | services/gateway/recoup_gateway/ratelimit.py:26-30 | a key left alone for the time one token takes is admitted |
| TokenBucket.KeysIndependent | services/gateway/recoup_gateway/ratelimit.py:22-25 | other keys' calls never change a key's verdicts |
| TokenBucket.BurstExact | services/gateway/recoup_gateway/ratelimit.py:26-31 | the bound is tight: of n calls at one instant on a full bucket exactly min(n, per_minute) pass |
| FixedWindow.RateLimiter.Allow | services/tool-gateway/recoup_tool_gateway/ratelimit.py:27-44 | verdict and new table on both paths; the first Redis failure switches to the local one for good |
| FixedWindow.WindowIsAMinute | services/tool-gateway/recoup_tool_gateway/ratelimit.py:28 | window w is the minute from second 60 * w on |
| FixedWindow.CallCounted | services/tool-gateway/recoup_tool_gateway/ratelimit.py:39-44 | a local call counts up its own key, from the start again in any other window |
| FixedWindow.WindowExact | services/tool-gateway/recoup_tool_gateway/ratelimit.py:39-44 | over all local runs a window admits exactly min(calls, per_minute) of a key |
| FixedWindow.MinuteBound | services/tool-gateway/recoup_tool_gateway/ratelimit.py:39-44 | any 60 seconds admit at most 2 * per_minute of a key |
| EvalDataset.FillBuckets | services/evals/recoup_evals/runner.py:87-111 | the buckets hold exactly the eligible invoices per root cause, in order, and the skips are counted |
| EvalDataset.FateIs | services/evals/recoup_evals/runner.py:87-111 | which invoices are taken, which are counted as skipped for either reason, and which are passed over |
| EvalDataset.RoundRobin | services/evals/recoup_evals/runner.py:112-119 | the loop ends with min(size, eligible) picks, a prefix of every bucket, and two causes differ by two picks only if the smaller bucket ran out; the picks come in rounds over the causes in order, none passed over unless the dataset was full before its turn |
| EvalDataset.BuildDataset | services/evals/recoup_evals/runner.py:67-123 | the same for the whole filter and pick, the causes in ascending order; the error exactly when nothing can be picked |
| EvalDataset.EligibleIffNoMemo | services/evals/recoup_evals/runner.py:96-108 | after any ledger run an invoice with a cause and its own case is eligible if and only if no memo was issued on it |
| Chunking.ParagraphsKeepInk | services/knowledge/recoup_knowledge/chunking.py:8-11 | paragraph splitting keeps every non-white character in order and makes no blank paragraph |
| ChunkLaws.StripIs | services/knowledge/recoup_knowledge/chunking.py:8-11 | stripping takes white characters off both ends, all of them, and nothing else |
| ChunkLaws.NewlinesOf | services/knowledge/recoup_knowledge/chunking.py:8 | carriage returns, with the newline behind them, become newlines |
| ChunkLaws.SplitWhole | services/knowledge/recoup_knowledge/chunking.py:11 | text without a blank line is one piece |
| ChunkLaws.SplitAtBlank | services/knowledge/recoup_knowledge/chunking.py:11 | the first run of two or more newlines ends the first piece |
| ChunkLaws.ParagraphsAre | services/knowledge/recoup_knowledge/chunking.py:8-11 | the paragraphs are the stripped non-empty pieces |
| Chunking.ChunkParagraphs | services/knowledge/recoup_knowledge/chunking.py:12-28 | it terminates with non-empty chunks of at most size + overlap + 2; cutting from each chunk a front that repeats the tail of what came before leaves exactly the paragraphs' non-white text, in order |
| Chunking.ChunkText | services/knowledge/recoup_knowledge/chunking.py:6-28 | the same for the text |
| ChunkLaws.LastChunk | services/knowledge/recoup_knowledge/chunking.py:26-27 | what is pending at the end is the last chunk |
| ChunkLaws.FittingParagraph | services/knowledge/recoup_knowledge/chunking.py:14-17 | a paragraph that fits is joined behind a blank line |
| ChunkLaws.OverflowingParagraph | services/knowledge/recoup_knowledge/chunking.py:18-25 | one that does not fit starts the next chunk, behind the last `overlap` characters of a longer one before it |
| ChunkLaws.LongParagraph | services/knowledge/recoup_knowledge/chunking.py:18-25 | of one longer than a chunk the first `size` characters make one, and the rest goes on `overlap` characters before its end |
| ChunkLaws.SmallTextIsOneChunk | services/knowledge/recoup_knowledge/chunking.py:12-28 | a document that fits is one chunk, its paragraphs joined by blank lines |
| Chunking.WindowsOverlap | services/knowledge/recoup_knowledge/chunking.py:21-24 | neighbouring windows of a long paragraph share exactly `overlap` characters |
| Chunking.WindowsEndIff | services/knowledge/recoup_knowledge/chunking.py:21-24 | for any overlap: the window loop ends if and only if there is nothing to cut, or overlap < size, or size < overlap <= 2 * size |
| Chunking.FullOverlapNeverEnds | services/knowledge/recoup_knowledge/chunking.py:21-24 | the concrete case: two characters, window and overlap one |
| Chunking.LargeOverlapDropsText | services/knowledge/recoup_knowledge/chunking.py:21-24 | with overlap > size the window and what is kept fall short of the paragraph if and only if it is longer than the overlap |

## Left out

- Delivery.Convergence: one relay, one partition and one producer stream, rows committed in id order, and handlers that fail the same way on every delivery; several relays with skip-locked rows and the interleaving of topics are not modelled.
- Replay.PrefixAbsorption: leaves out the column `emails_sent`, for which it is false; EmailsSentIdempotentIff says exactly when it holds there.
- GatewayRuns.ApprovalsSingleUse: calls are whole steps and the case service answers; concurrent calls on one key and a swallowed failure to mark the action executed are not modelled.
- GatewayRuns.ExecutionsAuthorised: who decided is the principal the case service recorded; an action proposed under ALLOW may back a call without a human, and the statement says so.
- GatewayRuns.CallAudited: the call's latency and trace identifiers are not modelled, and handler effects are sequences of case operations.
- ToolService.ToolService.Invoke: redaction and truncation of a reply are one arbitrary function; the audit event, the timeline entry and the merge of a human's edit into the arguments (only its validity) are not modelled.
- ReadModel.ReadModelShowsActions: action type and required role of the emitted events are not modelled; ProjectedRows.ActionProposedWrites says what becomes of them.
- Consumer.KafkaConsumerLoop.RunBatch: a batch that spans several partitions is not modelled.
- CaseSession.CaseSession.MoveTo: the actor and the timeline row of a status change are not modelled.
- CaseSession.CaseSession.OpenCase: customer, amount, currency and the computed default priority are not modelled.
- CaseSession.CaseSession.ChangeStatus: the resolution payload and the timeline row are not modelled.
- CaseSession.CaseSession.RecordTriage: confidence, summary and the timeline row are not modelled.
- CaseSession.CaseSession.AddProposal: payload, rationale, evidence, proposer and the timeline row are not modelled.
- CaseSession.CaseSession.RecordDecision: decision time, feedback fields and the timeline row are not modelled.
- CaseSession.CaseSession.RecordExecution: the execution result and the timeline row are not modelled.
- CaseLifecycle.ActionLifecycle: rejections by the web layer, timeline rows, notes, assignment and the notification of new actions are not modelled.
- PolicyLaws.ComparesOthers: equality is that of typed JSON values; Python counts `True` equal to 1 and `False` to 0, also inside lists and objects, which is not modelled.
- PolicyLaws.InHolds: membership uses the same equality.
- PolicyRules.MatchMonotone: numbers are exact and typed apart from booleans (Python's `1 == True` and NaN are excluded); decimal syntax, regular expressions and `str` are arbitrary functions.
- PolicyService.Simulate: the history query's filter, order and limit are not modelled; its answer is an arbitrary list of contexts.
- PolicyService.SelfSimulation: the rule list is a query result in any order.
- AgentRuns.UsageIsSum: token counts only; the cost in dollars is rounded to six digits at every addition, which is a different sum.
- AgentRuns.Transcript: message texts, the truncation of tool results and the idempotency key of a call are not modelled.
- Money.PlanSums: amounts are whole cents and the quotient is exact; the 28-digit decimal context and sub-cent amounts in a request are not modelled.
- Scenarios.TruthIsRight: one invoice at a time.
- Scenarios.Generate: dates, names, contacts, remittances and the paid original of a duplicate are not modelled.
- ErpLedger.Ledger.CreateCreditMemo: reason code, memo text and the generated reference are not modelled.
- ErpLedger.Ledger.CreatePaymentPlan: the plan reference and the stored discount are not modelled.
- ErpLedger.Ledger.ReplaceDataset: only invoices, memos and plans are tables; the seed-run row is not modelled.
- ErpLedger.Conservation: requests are handled one after another; two concurrent requests on one invoice are not modelled.
- Email.Mailer.Enqueue: thread, recipients and rendered text are not modelled.
- Email.Mailer.Record: the thread's last message time and the event payload are not modelled.
- Email.Mailer.SendEmail: the case-service timeline call after the second commit is not modelled.
- Email.AtMostOnce: a process that dies inside SMTP is one that dies right after it.
- TokenBucket.IntervalBound: time and tokens are exact reals and the clock does not run backwards.
- FixedWindow.MinuteBound: the local path only; the shared counter in Redis is an arbitrary answer.
- EvalDataset.BuildDataset: the conflict on an existing dataset name and what is stored afterwards are not modelled.
- Chunking.ChunkText: holds for overlap < size, and for any overlap when no paragraph is longer than size; a longer paragraph with overlap >= size is covered by WindowsEndIff and LargeOverlapDropsText only.
- Gateway proxying, the console, Temporal workflows and activities, prompts, embeddings and search, metrics, scoring and identity management: plumbing, or not decided by this code.
