/**
 What each kind of event writes, column by column: the tables after one delivery, said on the event and
 the tables before.
 */
module ProjectedRows {
  import opened Common
  import opened Projector

  function Given(d: Data, f: Field): Value {
    if f in d then d[f] else Null
  }

  /** The tables with a row inserted as `created`, or the columns of `changes` overwritten if it exists. */
  function Put(db: Tables, k: Key, created: Row, changes: Row): Tables {
    db[k := if k in db then db[k] + changes else created]
  }

  /** A change to a case row, with a stub of four columns if the row is not there yet. */
  function PutCase(db: Tables, t: nat, c: Value, at: int, changes: Row): Tables {
    var stub: Row := map[CaseId := c, TenantId := Id(t), OpenedAt := Instant(at), UpdatedAt := Instant(at)];
    Put(db, Key(DimCase, c), stub + changes, changes[UpdatedAt := Instant(at)])
  }

  /** The event belongs to tenant `t` and names case `c`, in its data or else as its subject; Null if neither. */
  predicate Concerns(e: Event, t: nat, c: Value) {
    && e.tenant == Id(t)
    && c == if Given(e.data, CaseId).Id? then Given(e.data, CaseId) else if e.subject.Id? then e.subject else Null
  }

  function Decimal(v: Value): Value {
    if v.Number? then v else Null
  }

  lemma {:induction false} FoldOne(keepRaw: bool, e: Event, db: Tables)
    ensures Fold(keepRaw, [e], db) == ApplyAll(Writes(keepRaw, e), db)
  {
    assert [e][1..] == [];
  }

  lemma {:induction false} ApplyIsPut(k: Key, values: Row, columns: set<Field>, changes: Row, db: Tables)
    requires changes == Restrict(values, columns)
    ensures Apply(Upsert(k, values, columns), db) == Put(db, k, values, changes)
  {
  }

  lemma {:induction false} PatchIsPut(t: nat, c: Value, patch: Row, at: int, db: Tables)
    requires UpdatedAt !in patch && CaseId !in patch && TenantId !in patch && OpenedAt !in patch
    ensures Apply(CasePatchWrite(c, Id(t), patch, at), db) == PutCase(db, t, c, at, patch)
  {
    var base: Row := map[CaseId := c, TenantId := Id(t), OpenedAt := Instant(at), UpdatedAt := Instant(at)];
    assert Restrict(base + patch, patch.Keys + {UpdatedAt}) == patch[UpdatedAt := Instant(at)];
  }

  /** The columns of `changes` out of a created row. */
  lemma {:induction false} PutOf(ws: seq<Write>, k: Key, created: Row, columns: set<Field>, changes: Row, db: Tables)
    requires ws != [] && ws[0] == Upsert(k, created, columns) && changes == Restrict(created, columns)
    ensures Apply(ws[0], db) == Put(db, k, created, changes)
    ensures |ws| == 1 ==> ApplyAll(ws, db) == Put(db, k, created, changes)
    ensures |ws| == 2 ==> ApplyAll(ws, db) == Apply(ws[1], Put(db, k, created, changes))
  {
    ApplyIsPut(k, created, columns, changes, db);
    if |ws| == 1 {
      ApplyOne(ws, db);
    } else if |ws| == 2 {
      ApplyTwo(ws, db);
    }
  }

  // ---------- cases ----------

  /** The nine columns of a case as it is opened, with who and where. */
  function OpenedRow(e: Event, t: nat, c: Value): Row {
    var d, at := e.data, Instant(e.time);
    map[CaseId := c, TenantId := Id(t), CustomerRef := Given(d, CustomerRef), InvoiceRefs := Given(d, InvoiceRefs),
        Currency := Given(d, Currency), AmountOpen := Decimal(Given(d, AmountOpen)),
        DaysOverdue := Given(d, DaysOverdue), Priority := Given(d, Priority), Status := Text("NEW"),
        OpenedAt := at, UpdatedAt := at]
  }

  function ReopenedColumns(e: Event): Row {
    var d, at := e.data, Instant(e.time);
    map[CustomerRef := Given(d, CustomerRef), InvoiceRefs := Given(d, InvoiceRefs), Currency := Given(d, Currency),
        AmountOpen := Decimal(Given(d, AmountOpen)), DaysOverdue := Given(d, DaysOverdue),
        Priority := Given(d, Priority), OpenedAt := at, UpdatedAt := at]
  }

  const REOPENED: set<Field> :=
    {CustomerRef, InvoiceRefs, Currency, AmountOpen, DaysOverdue, Priority, OpenedAt, UpdatedAt}

  lemma {:induction false} ReopenedOf(e: Event, t: nat, c: Value)
    ensures Restrict(OpenedRow(e, t, c), REOPENED) == ReopenedColumns(e)
  {
  }

  /** case.created: a new row gets every column, status NEW included; an existing row keeps its status. */
  lemma {:induction false} CaseCreatedWrites(e: Event, t: nat, c: Value, db: Tables)
    requires e.kind == CaseCreated && Concerns(e, t, c) && c.Id?
    ensures Fold(false, [e], db) == Put(db, Key(DimCase, c), OpenedRow(e, t, c), ReopenedColumns(e))
  {
    FoldOne(false, e, db);
    var ws := Writes(false, e);
    assert ws == [Upsert(Key(DimCase, c), OpenedRow(e, t, c), REOPENED)];
    ReopenedOf(e, t, c);
    hide Writes, OpenedRow, ReopenedColumns, Restrict;
    PutOf(ws, Key(DimCase, c), OpenedRow(e, t, c), REOPENED, ReopenedColumns(e), db);
  }

  function StatusColumns(e: Event): Row {
    var to := Given(e.data, To);
    if to in {Text("RESOLVED"), Text("WRITTEN_OFF")}
    then map[Status := to, ClosedAt := Instant(e.time), CloseReason := Given(e.data, Reason)]
    else if to == Text("ESCALATED") then map[Status := to, Escalated := Flag(true)]
    else map[Status := to]
  }

  /** case.state_changed: the new status; closing columns for RESOLVED and WRITTEN_OFF only, the escalation
      flag for ESCALATED only. */
  lemma {:induction false} StateChangedWrites(e: Event, t: nat, c: Value, db: Tables)
    requires e.kind == CaseStateChanged && Concerns(e, t, c) && c.Id?
    ensures Fold(false, [e], db) == PutCase(db, t, c, e.time, StatusColumns(e))
  {
    FoldOne(false, e, db);
    StatusPatch(e);
    var patch := StatusColumns(e);
    var ws := Writes(false, e);
    assert ws == [CasePatchWrite(c, Id(t), patch, e.time)];
    ApplyOne(ws, db);
    assert UpdatedAt !in patch && CaseId !in patch && TenantId !in patch && OpenedAt !in patch;
    hide Writes, StatusColumns, StatePatch, CasePatchWrite;
    PatchIsPut(t, c, patch, e.time, db);
  }

  lemma {:induction false} StatusPatch(e: Event)
    ensures StatePatch(e.data, e.time) == StatusColumns(e)
  {
    assert "RESOLVED"[0] != "ESCALATED"[0] && "WRITTEN_OFF"[0] != "ESCALATED"[0];
  }

  function CasePatchColumns(e: Event): Row {
    if e.kind == CaseResolved
    then map[ClosedAt := Instant(e.time), CloseReason := Given(e.data, Reason), Status := Given(e.data, Status)]
    else if e.kind == CaseTakeover then map[HumanTouched := Flag(true), AgentMode := Text("HUMAN_CONTROL")]
    else map[HumanTouched := Flag(true), AgentMode := Text("AUTONOMOUS")]
  }

  /** case.resolved, case.takeover, case.released: the columns each one sets. */
  lemma {:induction false} CasePatchWrites(e: Event, t: nat, c: Value, db: Tables)
    requires e.kind in {CaseResolved, CaseTakeover, CaseReleased} && Concerns(e, t, c) && c.Id?
    ensures Fold(false, [e], db) == PutCase(db, t, c, e.time, CasePatchColumns(e))
  {
    FoldOne(false, e, db);
    var ws := Writes(false, e);
    assert ws == [CasePatchWrite(c, Id(t), CasePatchColumns(e), e.time)];
    ApplyOne(ws, db);
    PatchIsPut(t, c, CasePatchColumns(e), e.time, db);
  }

  // ---------- actions ----------

  function TypeOf(e: Event): Value {
    if ActionType in e.data then e.data[ActionType] else Text("?")
  }

  function ProposedRow(e: Event, t: nat, c: Value, a: nat): Row {
    map[ActionId := Id(a), TenantId := Id(t), CaseId := c, ActionType := TypeOf(e),
        PolicyDecision := Given(e.data, PolicyDecision), RequiredRole := Given(e.data, RequiredRole),
        Outcome := Text("PROPOSED"), ProposedAt := Instant(e.time)]
  }

  function PolicyColumns(e: Event): Row {
    map[PolicyDecision := Given(e.data, PolicyDecision), RequiredRole := Given(e.data, RequiredRole),
        ProposedAt := Instant(e.time)]
  }

  lemma {:induction false} PolicyOf(e: Event, t: nat, c: Value, a: nat)
    ensures Restrict(ProposedRow(e, t, c, a), {PolicyDecision, RequiredRole, ProposedAt}) == PolicyColumns(e)
  {
  }

  /** case.action.proposed: outcome PROPOSED on a new row only; the policy columns in any case. */
  lemma {:induction false} ActionProposedWrites(e: Event, t: nat, c: Value, a: nat, db: Tables)
    requires e.kind == ActionProposed && Concerns(e, t, c) && c.Id? && Given(e.data, ActionId) == Id(a)
    ensures Fold(false, [e], db) == Put(db, Key(FactAction, Id(a)), ProposedRow(e, t, c, a), PolicyColumns(e))
  {
    FoldOne(false, e, db);
    var ws, columns := Writes(false, e), {PolicyDecision, RequiredRole, ProposedAt};
    assert ws == [Upsert(Key(FactAction, Id(a)), ProposedRow(e, t, c, a), columns)];
    PolicyOf(e, t, c, a);
    hide Writes, ProposedRow, PolicyColumns, Restrict;
    PutOf(ws, Key(FactAction, Id(a)), ProposedRow(e, t, c, a), columns, PolicyColumns(e), db);
  }

  /** The outcome an event of this kind announces. */
  function Announced(k: Kind): Value {
    match k
    case ActionApproved => Text("APPROVED")
    case ActionEdited => Text("EDITED")
    case _ => Text("REJECTED")
  }

  function DecidedRow(e: Event, t: nat, c: Value, a: nat): Row {
    map[ActionId := Id(a), TenantId := Id(t), CaseId := c, ActionType := TypeOf(e),
        Outcome := Announced(e.kind), DecidedAt := Instant(e.time)]
  }

  function DecidedColumns(e: Event): Row {
    map[Outcome := Announced(e.kind), DecidedAt := Instant(e.time)]
  }

  lemma {:induction false} DecidedOf(e: Event, t: nat, c: Value, a: nat)
    ensures Restrict(DecidedRow(e, t, c, a), {Outcome, DecidedAt}) == DecidedColumns(e)
  {
  }

  /** case.action.approved, .edited, .rejected: the outcome by that very name, and the case touched by a human. */
  lemma {:induction false} ActionDecidedWrites(e: Event, t: nat, c: Value, a: nat, db: Tables)
    requires e.kind in {ActionApproved, ActionEdited, ActionRejected}
    requires Concerns(e, t, c) && c.Id? && Given(e.data, ActionId) == Id(a)
    ensures Fold(false, [e], db)
         == PutCase(Put(db, Key(FactAction, Id(a)), DecidedRow(e, t, c, a), DecidedColumns(e)),
                    t, c, e.time, map[HumanTouched := Flag(true)])
  {
    FoldOne(false, e, db);
    var ws := Writes(false, e);
    assert ws[0] == Upsert(Key(FactAction, Id(a)), DecidedRow(e, t, c, a), {Outcome, DecidedAt});
    assert |ws| == 2 && ws[1] == CasePatchWrite(c, Id(t), map[HumanTouched := Flag(true)], e.time);
    DecidedOf(e, t, c, a);
    hide Writes, DecidedRow, DecidedColumns, Restrict;
    var after := Put(db, Key(FactAction, Id(a)), DecidedRow(e, t, c, a), DecidedColumns(e));
    PutOf(ws, Key(FactAction, Id(a)), DecidedRow(e, t, c, a), {Outcome, DecidedAt}, DecidedColumns(e), db);
    PatchIsPut(t, c, map[HumanTouched := Flag(true)], e.time, after);
  }

  // ---------- runs, steps, tool calls, mail ----------

  /** `int(v or 0)`: numbers stay, nothing and everything empty is zero, true is one, the rest raises. */
  lemma {:induction false} CountsReadAsNumbers(v: Value)
    ensures AsInt(v) == match v
                        case Null => Some(Number(0))
                        case Number(_) => Some(v)
                        case Flag(b) => Some(Number(if b then 1 else 0))
                        case Text(s) => if s == "" then Some(Number(0)) else None
                        case Document(d) => if d == map[] then Some(Number(0)) else None
                        case _ => None
    ensures Truthy(v) <==> v !in {Null, Number(0), Flag(false), Text(""), Document(map[])}
  {
  }

  function StartedRow(e: Event, t: nat, c: Value, run: Value): Row {
    map[RunId := run, TenantId := Id(t), CaseId := c, Mode := Given(e.data, Mode),
        Status := Text("RUNNING"), StartedAt := Instant(e.time)]
  }

  function StartedColumns(e: Event): Row {
    map[Mode := Given(e.data, Mode), Status := Text("RUNNING"), StartedAt := Instant(e.time)]
  }

  lemma {:induction false} StartedOf(e: Event, t: nat, c: Value, run: Value)
    ensures Restrict(StartedRow(e, t, c, run), {Mode, Status, StartedAt}) == StartedColumns(e)
  {
  }

  /** agent.run.started: a RUNNING run row; the case's first agent time in LIVE mode only. */
  lemma {:induction false} RunStartedWrites(e: Event, t: nat, c: Value, run: Value, db: Tables)
    requires e.kind == RunStarted && Concerns(e, t, c) && Given(e.data, RunId) == run
    ensures var put := Put(db, Key(FactAgentRun, run), StartedRow(e, t, c, run), StartedColumns(e));
            var after := if run.Id? then put else db;
            Fold(false, [e], db)
            == if c.Id? && Given(e.data, Mode) == Text("LIVE")
               then PutCase(after, t, c, e.time, map[FirstAgentAt := Instant(e.time)]) else after
  {
    FoldOne(false, e, db);
    var ws, live := Writes(false, e), c.Id? && Given(e.data, Mode) == Text("LIVE");
    var patch: Row := map[FirstAgentAt := Instant(e.time)];
    var own, key := Upsert(Key(FactAgentRun, run), StartedRow(e, t, c, run), {Mode, Status, StartedAt}),
        Key(FactAgentRun, run);
    var mark := CasePatchWrite(c, Id(t), patch, e.time);
    assert ws == (if run.Id? then [own] else []) + (if live then [mark] else []);
    StartedOf(e, t, c, run);
    hide Writes, StartedRow, StartedColumns, Restrict, CasePatchWrite;
    var after := if run.Id? then Put(db, key, StartedRow(e, t, c, run), StartedColumns(e)) else db;
    if run.Id? {
      PutOf(ws, key, StartedRow(e, t, c, run), {Mode, Status, StartedAt}, StartedColumns(e), db);
    } else if live {
      ApplyOne(ws, db);
    }
    if live {
      PatchIsPut(t, c, patch, e.time, after);
    }
  }

  /** The three figures of a completed run, None if one of them does not read as a number. */
  function Figures(e: Event): Option<(Value, Value, Value)> {
    var steps, tin, tout := AsInt(Given(e.data, Steps)), AsInt(Given(e.data, TokensIn)),
        AsInt(Given(e.data, TokensOut));
    if steps.None? || tin.None? || tout.None? then None else Some((steps.value, tin.value, tout.value))
  }

  function Cost(e: Event): Value {
    if Given(e.data, CostUsd).Number? then e.data[CostUsd] else Number(0)
  }

  function CompletedRow(e: Event, t: nat, c: Value, run: Value, f: (Value, Value, Value)): Row {
    map[RunId := run, TenantId := Id(t), CaseId := c, Status := Given(e.data, Status),
        Steps := f.0, TokensIn := f.1, TokensOut := f.2, CostUsd := Cost(e),
        RootCause := Given(e.data, RootCause), Reason := Given(e.data, Reason), EndedAt := Instant(e.time)]
  }

  function CompletedColumns(e: Event, f: (Value, Value, Value)): Row {
    map[Status := Given(e.data, Status), Steps := f.0, TokensIn := f.1, TokensOut := f.2, CostUsd := Cost(e),
        RootCause := Given(e.data, RootCause), Reason := Given(e.data, Reason), EndedAt := Instant(e.time)]
  }

  const COMPLETED: set<Field> := {Status, Steps, TokensIn, TokensOut, CostUsd, RootCause, Reason, EndedAt}

  lemma {:induction false} CompletedOf(e: Event, t: nat, c: Value, run: Value, f: (Value, Value, Value))
    ensures Restrict(CompletedRow(e, t, c, run, f), COMPLETED) == CompletedColumns(e, f)
  {
  }

  /** agent.run.completed: the run's figures, nothing at all if one of them is no number; a root cause also
      goes to the case. */
  lemma {:induction false} RunCompletedWrites(e: Event, t: nat, c: Value, run: Value, db: Tables)
    requires e.kind == RunCompleted && Concerns(e, t, c) && Given(e.data, RunId) == run
    ensures var cause, k := Given(e.data, RootCause), Key(FactAgentRun, run);
            Fold(false, [e], db)
            == if run.Id? && Figures(e).None? then db
               else
                 var after := if run.Id?
                              then var f := Figures(e).value;
                                  Put(db, k, CompletedRow(e, t, c, run, f), CompletedColumns(e, f))
                              else db;
                 if c.Id? && Truthy(cause) then PutCase(after, t, c, e.time, map[RootCause := cause]) else after
  {
    FoldOne(false, e, db);
    var ws, cause, k := Writes(false, e), Given(e.data, RootCause), Key(FactAgentRun, run);
    if run.Id? && Figures(e).None? {
      assert ws == [];
    } else {
      var noted := c.Id? && Truthy(cause);
      var mark := CasePatchWrite(c, Id(t), map[RootCause := cause], e.time);
      if run.Id? {
        var f := Figures(e).value;
        var own := Upsert(k, CompletedRow(e, t, c, run, f), COMPLETED);
        assert ws == [own] + (if noted then [mark] else []);
        CompletedOf(e, t, c, run, f);
        hide Writes, CompletedRow, CompletedColumns, Restrict, Figures, Truthy, CasePatchWrite;
        var after := Put(db, k, CompletedRow(e, t, c, run, f), CompletedColumns(e, f));
        PutOf(ws, k, CompletedRow(e, t, c, run, f), COMPLETED, CompletedColumns(e, f), db);
        if noted {
          PatchIsPut(t, c, map[RootCause := cause], e.time, after);
        }
      } else if noted {
        assert ws == [mark];
        ApplyOne(ws, db);
        PatchIsPut(t, c, map[RootCause := cause], e.time, db);
      } else {
        assert ws == [];
      }
    }
  }

  function RunOf(e: Event): Value {
    if Given(e.data, RunId).Id? then e.data[RunId] else Null
  }

  function StepRow(e: Event, t: nat, c: Value, tokens: Value): Row {
    map[EventId := Id(e.id), TenantId := Id(t), CaseId := c, RunId := RunOf(e),
        Agent := if Agent in e.data then e.data[Agent] else Text("?"), StepKind := Given(e.data, StepKind),
        Status := Given(e.data, Status), Tokens := tokens, LatencyMs := Given(e.data, LatencyMs),
        OccurredAt := Instant(e.time)]
  }

  function StepColumns(e: Event, tokens: Value): Row {
    map[Status := Given(e.data, Status), Tokens := tokens, LatencyMs := Given(e.data, LatencyMs)]
  }

  lemma {:induction false} StepOf(e: Event, t: nat, c: Value, tokens: Value)
    ensures Restrict(StepRow(e, t, c, tokens), {Status, Tokens, LatencyMs}) == StepColumns(e, tokens)
  {
  }

  /** agent.step.completed: one row per event; a repeat refreshes three columns. */
  lemma {:induction false} StepCompletedWrites(e: Event, t: nat, c: Value, db: Tables)
    requires e.kind == StepCompleted && Concerns(e, t, c)
    ensures Fold(false, [e], db)
         == match AsInt(Given(e.data, Tokens))
            case None => db
            case Some(n) => Put(db, Key(FactAgentStep, Id(e.id)), StepRow(e, t, c, n), StepColumns(e, n))
  {
    FoldOne(false, e, db);
    var ws, tokens := Writes(false, e), AsInt(Given(e.data, Tokens));
    if tokens.None? {
      assert ws == [];
    } else {
      var n, k := tokens.value, Key(FactAgentStep, Id(e.id));
      assert ws == [Upsert(k, StepRow(e, t, c, n), {Status, Tokens, LatencyMs})];
      StepOf(e, t, c, n);
      hide Writes, StepRow, StepColumns, Restrict, AsInt;
      PutOf(ws, k, StepRow(e, t, c, n), {Status, Tokens, LatencyMs}, StepColumns(e, n), db);
    }
  }

  function ToolRow(e: Event, t: nat, c: Value): Row {
    map[EventId := Id(e.id), TenantId := Id(t), CaseId := c, RunId := RunOf(e),
        Tool := if Tool in e.data then e.data[Tool] else Text("?"), Actor := Given(e.data, Actor),
        Status := Given(e.data, Status), PolicyDecision := Given(e.data, PolicyDecision),
        SideEffect := Flag(Truthy(Given(e.data, SideEffect))), LatencyMs := Given(e.data, LatencyMs),
        OccurredAt := Instant(e.time)]
  }

  function ToolColumns(e: Event): Row {
    map[Status := Given(e.data, Status), PolicyDecision := Given(e.data, PolicyDecision),
        LatencyMs := Given(e.data, LatencyMs)]
  }

  lemma {:induction false} ToolOf(e: Event, t: nat, c: Value)
    ensures Restrict(ToolRow(e, t, c), {Status, PolicyDecision, LatencyMs}) == ToolColumns(e)
  {
  }

  /** tool.invoked and tool.blocked: one row per event; a repeat refreshes three columns. */
  lemma {:induction false} ToolCallWrites(e: Event, t: nat, c: Value, db: Tables)
    requires e.kind in {ToolInvoked, ToolBlocked} && Concerns(e, t, c)
    ensures Fold(false, [e], db) == Put(db, Key(FactToolCall, Id(e.id)), ToolRow(e, t, c), ToolColumns(e))
  {
    FoldOne(false, e, db);
    var ws, k := Writes(false, e), Key(FactToolCall, Id(e.id));
    assert ws == [Upsert(k, ToolRow(e, t, c), {Status, PolicyDecision, LatencyMs})];
    ToolOf(e, t, c);
    hide Writes, ToolRow, ToolColumns, Restrict;
    PutOf(ws, k, ToolRow(e, t, c), {Status, PolicyDecision, LatencyMs}, ToolColumns(e), db);
  }

  function MailRow(e: Event, t: nat, c: Value): Row {
    map[EventId := Id(e.id), TenantId := Id(t), CaseId := c,
        Direction := Text(if e.kind == EmailSent then "OUT" else "IN"),
        Template := Given(e.data, Template), OccurredAt := Instant(e.time)]
  }

  lemma {:induction false} MailOf(e: Event, t: nat, c: Value)
    ensures Restrict(MailRow(e, t, c), {Template}) == map[Template := Given(e.data, Template)]
  {
  }

  /** comm.email.sent is OUT, comm.email.received is IN; only the first counts, by one, on an existing case row. */
  lemma {:induction false} EmailWrites(e: Event, t: nat, c: Value, db: Tables)
    requires e.kind in {EmailSent, EmailReceived} && Concerns(e, t, c)
    ensures var template: Row := map[Template := Given(e.data, Template)];
            var after, k := Put(db, Key(FactEmail, Id(e.id)), MailRow(e, t, c), template), Key(DimCase, c);
            Fold(false, [e], db)
            == if e.kind == EmailSent && c.Id? && k in db
               then after[k := db[k][EmailsSent := Number(EmailCount(db[k]) + 1)][UpdatedAt := Instant(e.time)]]
               else after
    ensures forall r: Row :: EmailCount(r) == if EmailsSent in r && r[EmailsSent].Number? then r[EmailsSent].number
        else 0
  {
    FoldOne(false, e, db);
    var ws, k := Writes(false, e), Key(FactEmail, Id(e.id));
    var template: Row := map[Template := Given(e.data, Template)];
    assert ws[0] == Upsert(k, MailRow(e, t, c), {Template});
    assert |ws| == if e.kind == EmailSent && c.Id? then 2 else 1;
    assert e.kind == EmailSent && c.Id? ==> ws[1] == CountEmail(Key(DimCase, c), e.time);
    MailOf(e, t, c);
    hide Writes, MailRow, Restrict;
    PutOf(ws, k, MailRow(e, t, c), {Template}, template, db);
  }

  // ---------- what is left alone ----------

  /** An event without a tenant, of another kind, of a case kind that names no case, or of an action kind
      that names no action writes nothing. */
  lemma {:induction false} IgnoredWritesNothing(e: Event, db: Tables)
    requires || !e.tenant.Id?
             || e.kind.OtherKind?
             || (&& e.kind in {CaseCreated, CaseStateChanged, CaseResolved, CaseTakeover, CaseReleased, ActionProposed,
                               ActionApproved, ActionEdited, ActionRejected}
                 && !Given(e.data, CaseId).Id? && !e.subject.Id?)
             || (&& e.kind in {ActionProposed, ActionApproved, ActionEdited, ActionRejected}
                 && !Given(e.data, ActionId).Id?)
    ensures Fold(false, [e], db) == db
  {
    FoldOne(false, e, db);
  }

  /** The handler raises on a figure that does not read as a number. */
  predicate Raises(e: Event) {
    || (e.kind == RunCompleted && Given(e.data, RunId).Id? && Figures(e).None?)
    || (e.kind == StepCompleted && AsInt(Given(e.data, Tokens)).None?)
  }

  lemma {:induction false} RaisesIff(e: Event, t: nat, c: Value)
    ensures Raises(e) <==> ProjectWrites(e, Id(t), c).None?
    ensures Raises(e) ==> forall db :: Fold(false, [e], db) == db
  {
    forall db | Raises(e) ensures Fold(false, [e], db) == db {
      FoldOne(false, e, db);
    }
  }

  function RawRow(e: Event, t: nat, c: Value): Row {
    map[EventId := Id(e.id), TenantId := Id(t), EventType := TypeName(e.kind), CaseId := c,
        Source := e.source, Payload := Document(e.data), OccurredAt := Instant(e.time)]
  }

  lemma {:induction false} RawPut(e: Event, t: nat, c: Value, db: Tables)
    ensures Apply(RawWrite(e, Id(t), c), db)
         == Put(db, Key(FactEvent, Id(e.id)), RawRow(e, t, c), map[Payload := Document(e.data)])
  {
    var w := RawWrite(e, Id(t), c);
    assert w.values == RawRow(e, t, c);
    assert Restrict(w.values, w.update) == map[Payload := Document(e.data)];
  }

  /** Keeping raw events adds one row per event, whose payload a repeat refreshes, and changes nothing else;
      an event that raises leaves no row either. */
  lemma {:induction false} RawCopyWrites(e: Event, t: nat, c: Value, db: Tables)
    requires Concerns(e, t, c)
    ensures var raw := Put(db, Key(FactEvent, Id(e.id)), RawRow(e, t, c), map[Payload := Document(e.data)]);
            Fold(true, [e], db) == if Raises(e) then db else Fold(false, [e], raw)
  {
    FoldOne(true, e, db);
    RaisesIff(e, t, c);
    hide ProjectWrites, Raises, RawWrite, RawRow, Put, Apply;
    var w, ws := RawWrite(e, Id(t), c), ProjectWrites(e, Id(t), c);
    RawPut(e, t, c, db);
    if ws.Some? {
      ApplyAllConcat([w], ws.value, db);
      ApplyOne([w], db);
      FoldOne(false, e, Apply(w, db));
      assert [] + ws.value == ws.value;
    }
  }
}
