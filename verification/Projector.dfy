/**
 The analytics projector: every domain event becomes a few upserts on the read model.

 A text that spells a uuid is the constructor `Id`, a text that spells a number is `Number`;
 every other text is `Text`. Tables are one map from (table, primary key) to a row.
 */
module Projector {
  import opened Common

  datatype Value =
    | Null
    | Id(id: nat)
    | Number(number: int)
    | Text(text: string)
    | Flag(flag: bool)
    | Instant(at: int)
    | Document(data: Data)
    | TypeName(kind: Kind)

  /** Names shared by event payloads and table columns. */
  datatype Field =
    | CaseId | TenantId | CustomerRef | InvoiceRefs | Currency | AmountOpen | DaysOverdue | Priority
    | Status | RootCause | AgentMode | OpenedAt | FirstAgentAt | ClosedAt | CloseReason | Escalated
    | HumanTouched | EmailsSent | UpdatedAt | EventId | EventType | Source | Payload | OccurredAt
    | ActionId | ActionType | PolicyDecision | RequiredRole | Outcome | ProposedAt | DecidedAt
    | RunId | Mode | Steps | TokensIn | TokensOut | CostUsd | Reason | StartedAt | EndedAt
    | Agent | StepKind | Tokens | LatencyMs | Tool | Actor | SideEffect | Direction | Template | To | From

  type Data = map<Field, Value>

  datatype Kind =
    | CaseCreated | CaseStateChanged | CaseResolved | CaseTakeover | CaseReleased
    | ActionProposed | ActionApproved | ActionEdited | ActionRejected
    | RunStarted | RunCompleted | StepCompleted | ToolInvoked | ToolBlocked
    | EmailSent | EmailReceived | OtherKind(name: string)

  datatype Event = Event(id: nat, kind: Kind, source: Value, subject: Value, tenant: Value, time: int, data: Data)

  datatype Table = DimCase | FactEvent | FactAction | FactAgentRun | FactAgentStep | FactToolCall | FactEmail

  datatype Key = Key(table: Table, id: Value)

  type Row = map<Field, Value>
  type Tables = map<Key, Row>

  // ---------- coercions ----------

  function Get(d: Data, f: Field): Value {
    if f in d then d[f] else Null
  }

  function GetOr(d: Data, f: Field, default: Value): Value {
    if f in d then d[f] else default
  }

  function AsId(v: Value): Value {
    if v.Id? then v else Null
  }

  function AsDecimal(v: Value): Value {
    if v.Number? then v else Null
  }

  predicate Truthy(v: Value) {
    match v
    case Null => false
    case Number(n) => n != 0
    case Text(s) => s != ""
    case Flag(b) => b
    case Document(d) => d != map[]
    case _ => true
  }

  /** `int(v or 0)`; None stands for the exception the conversion raises. */
  function AsInt(v: Value): Option<Value> {
    if !Truthy(v) then Some(Number(0))
    else match v
    case Number(_) => Some(v)
    case Flag(_) => Some(Number(1))
    case _ => None
  }

  function CaseOf(e: Event): Value {
    var own := AsId(Get(e.data, CaseId));
    if own.Id? then own else AsId(e.subject)
  }

  // ---------- writes ----------

  /** `Upsert` inserts `values`, or on conflict overwrites the columns in `update`.
      `CountEmail` changes an existing case row only. */
  datatype Write =
    | Upsert(key: Key, values: Row, update: set<Field>)
    | CountEmail(key: Key, at: int)

  function Restrict(values: Row, columns: set<Field>): Row {
    map c | c in values && c in columns :: values[c]
  }

  function EmailCount(r: Row): int {
    if EmailsSent in r && r[EmailsSent].Number? then r[EmailsSent].number else 0
  }

  function Apply(w: Write, db: Tables): Tables {
    match w
    case Upsert(k, values, update) =>
      if k in db then db[k := db[k] + Restrict(values, update)] else db[k := values]
    case CountEmail(k, at) =>
      if k in db
      then db[k := db[k][EmailsSent := Number(EmailCount(db[k]) + 1)][UpdatedAt := Instant(at)]]
      else db
  }

  function ApplyAll(ws: seq<Write>, db: Tables): Tables {
    if ws == [] then db else ApplyAll(ws[1..], Apply(ws[0], db))
  }

  function CasePatchWrite(caseId: Value, tenant: Value, patch: Row, at: int): Write {
    var base: Row := map[CaseId := caseId, TenantId := tenant, OpenedAt := Instant(at), UpdatedAt := Instant(at)];
    Upsert(Key(DimCase, caseId), base + patch, patch.Keys + {UpdatedAt})
  }

  function StatePatch(d: Data, at: int): Row {
    var to := Get(d, To);
    map[Status := to]
    + (if to == Text("RESOLVED") || to == Text("WRITTEN_OFF")
       then map[ClosedAt := Instant(at), CloseReason := Get(d, Reason)] else map[])
    + (if to == Text("ESCALATED") then map[Escalated := Flag(true)] else map[])
  }

  function OutcomeOf(k: Kind): Value {
    if k == ActionApproved then Text("APPROVED") else if k == ActionEdited then Text("EDITED") else Text("REJECTED")
  }

  function RunCompletedWrite(e: Event, tenant: Value, caseId: Value, runId: Value): Option<Write> {
    var steps, tokensIn, tokensOut :=
      AsInt(Get(e.data, Steps)), AsInt(Get(e.data, TokensIn)), AsInt(Get(e.data, TokensOut));
    if steps.None? || tokensIn.None? || tokensOut.None? then None
    else
      var cost := AsDecimal(Get(e.data, CostUsd));
      Some(Upsert(Key(FactAgentRun, runId),
                  map[RunId := runId, TenantId := tenant, CaseId := caseId, Status := Get(e.data, Status),
                      Steps := steps.value, TokensIn := tokensIn.value, TokensOut := tokensOut.value,
                      CostUsd := if cost.Null? then Number(0) else cost,
                      RootCause := Get(e.data, RootCause), Reason := Get(e.data, Reason), EndedAt := Instant(e.time)],
                  {Status, Steps, TokensIn, TokensOut, CostUsd, RootCause, Reason, EndedAt}))
  }

  /** The writes of one event after the raw copy; None when the handler raises. */
  function ProjectWrites(e: Event, tenant: Value, caseId: Value): Option<seq<Write>> {
    var d, at := e.data, e.time;
    match e.kind
    case CaseCreated =>
      if !caseId.Id? then Some([])
      else Some([Upsert(Key(DimCase, caseId),
                        map[CaseId := caseId, TenantId := tenant, CustomerRef := Get(d, CustomerRef),
                            InvoiceRefs := Get(d, InvoiceRefs), Currency := Get(d, Currency),
                            AmountOpen := AsDecimal(Get(d, AmountOpen)), DaysOverdue := Get(d, DaysOverdue),
                            Priority := Get(d, Priority), Status := Text("NEW"),
                            OpenedAt := Instant(at), UpdatedAt := Instant(at)],
                        {CustomerRef, InvoiceRefs, Currency, AmountOpen, DaysOverdue, Priority, OpenedAt, UpdatedAt})])
    case CaseStateChanged =>
      if !caseId.Id? then Some([]) else Some([CasePatchWrite(caseId, tenant, StatePatch(d, at), at)])
    case CaseResolved =>
      if !caseId.Id? then Some([])
      else Some([CasePatchWrite(caseId, tenant,
                                map[ClosedAt := Instant(at), CloseReason := Get(d, Reason), Status := Get(d, Status)],
                                    at)])
    case CaseTakeover =>
      if !caseId.Id? then Some([])
      else Some([CasePatchWrite(caseId, tenant, map[HumanTouched := Flag(true), AgentMode := Text("HUMAN_CONTROL")],
          at)])
    case CaseReleased =>
      if !caseId.Id? then Some([])
      else Some([CasePatchWrite(caseId, tenant, map[HumanTouched := Flag(true), AgentMode := Text("AUTONOMOUS")], at)])
    case ActionProposed =>
      var action := AsId(Get(d, ActionId));
      if !caseId.Id? || !action.Id? then Some([])
      else Some([Upsert(Key(FactAction, action),
                        map[ActionId := action, TenantId := tenant, CaseId := caseId,
                            ActionType := GetOr(d, ActionType, Text("?")), PolicyDecision := Get(d, PolicyDecision),
                            RequiredRole := Get(d, RequiredRole), Outcome := Text("PROPOSED"),
                            ProposedAt := Instant(at)],
                        {PolicyDecision, RequiredRole, ProposedAt})])
    case ActionApproved | ActionEdited | ActionRejected =>
      var action := AsId(Get(d, ActionId));
      if !caseId.Id? || !action.Id? then Some([])
      else Some([Upsert(Key(FactAction, action),
                        map[ActionId := action, TenantId := tenant, CaseId := caseId,
                            ActionType := GetOr(d, ActionType, Text("?")), Outcome := OutcomeOf(e.kind),
                            DecidedAt := Instant(at)],
                        {Outcome, DecidedAt}),
                 CasePatchWrite(caseId, tenant, map[HumanTouched := Flag(true)], at)])
    case RunStarted =>
      var run := AsId(Get(d, RunId));
      Some((if run.Id?
            then [Upsert(Key(FactAgentRun, run),
                         map[RunId := run, TenantId := tenant, CaseId := caseId, Mode := Get(d, Mode),
                             Status := Text("RUNNING"), StartedAt := Instant(at)],
                         {Mode, Status, StartedAt})]
            else [])
           + (if caseId.Id? && Get(d, Mode) == Text("LIVE")
              then [CasePatchWrite(caseId, tenant, map[FirstAgentAt := Instant(at)], at)] else []))
    case RunCompleted =>
      var run := AsId(Get(d, RunId));
      var own := if run.Id? then RunCompletedWrite(e, tenant, caseId, run) else None;
      if run.Id? && own.None? then None
      else Some((if own.Some? then [own.value] else [])
                + (if caseId.Id? && Truthy(Get(d, RootCause))
                   then [CasePatchWrite(caseId, tenant, map[RootCause := Get(d, RootCause)], at)] else []))
    case StepCompleted =>
      var tokens := AsInt(Get(d, Tokens));
      if tokens.None? then None
      else Some([Upsert(Key(FactAgentStep, Id(e.id)),
                        map[EventId := Id(e.id), TenantId := tenant, CaseId := caseId, RunId := AsId(Get(d, RunId)),
                            Agent := GetOr(d, Agent, Text("?")), StepKind := Get(d, StepKind), Status := Get(d, Status),
                            Tokens := tokens.value, LatencyMs := Get(d, LatencyMs), OccurredAt := Instant(at)],
                        {Status, Tokens, LatencyMs})])
    case ToolInvoked | ToolBlocked =>
      Some([Upsert(Key(FactToolCall, Id(e.id)),
                   map[EventId := Id(e.id), TenantId := tenant, CaseId := caseId, RunId := AsId(Get(d, RunId)),
                       Tool := GetOr(d, Tool, Text("?")), Actor := Get(d, Actor), Status := Get(d, Status),
                       PolicyDecision := Get(d, PolicyDecision), SideEffect := Flag(Truthy(Get(d, SideEffect))),
                       LatencyMs := Get(d, LatencyMs), OccurredAt := Instant(at)],
                   {Status, PolicyDecision, LatencyMs})])
    case EmailSent =>
      Some([EmailWrite(e, tenant, caseId, Text("OUT"))]
           + (if caseId.Id? then [CountEmail(Key(DimCase, caseId), at)] else []))
    case EmailReceived =>
      Some([EmailWrite(e, tenant, caseId, Text("IN"))])
    case OtherKind(_) => Some([])
  }

  function EmailWrite(e: Event, tenant: Value, caseId: Value, direction: Value): Write {
    Upsert(Key(FactEmail, Id(e.id)),
           map[EventId := Id(e.id), TenantId := tenant, CaseId := caseId, Direction := direction,
               Template := Get(e.data, Template), OccurredAt := Instant(e.time)],
           {Template})
  }

  function RawWrite(e: Event, tenant: Value, caseId: Value): Write {
    Upsert(Key(FactEvent, Id(e.id)),
           map[EventId := Id(e.id), TenantId := tenant, EventType := TypeName(e.kind), CaseId := caseId,
               Source := e.source, Payload := Document(e.data), OccurredAt := Instant(e.time)],
           {Payload})
  }

  /** All writes of one delivery; a handler that raises rolls its transaction back, so it writes nothing. */
  function Writes(keepRaw: bool, e: Event): seq<Write> {
    var tenant, caseId := AsId(e.tenant), CaseOf(e);
    if !tenant.Id? then []
    else match ProjectWrites(e, tenant, caseId)
    case None => []
    case Some(ws) => (if keepRaw then [RawWrite(e, tenant, caseId)] else []) + ws
  }

  function AllWrites(keepRaw: bool, es: seq<Event>): seq<Write> {
    if es == [] then [] else Writes(keepRaw, es[0]) + AllWrites(keepRaw, es[1..])
  }

  /** The read model after handling `es` in order. */
  function Fold(keepRaw: bool, es: seq<Event>, db: Tables): Tables {
    if es == [] then db else Fold(keepRaw, es[1..], ApplyAll(Writes(keepRaw, es[0]), db))
  }

  lemma {:induction false} ApplyAllConcat(a: seq<Write>, b: seq<Write>, db: Tables)
    ensures ApplyAll(a + b, db) == ApplyAll(b, ApplyAll(a, db))
  {
    if a == [] {
      assert a + b == b;
    } else {
      assert (a + b)[1..] == a[1..] + b;
      ApplyAllConcat(a[1..], b, Apply(a[0], db));
    }
  }

  lemma {:induction false} ApplyOne(ws: seq<Write>, db: Tables)
    requires |ws| == 1
    ensures ApplyAll(ws, db) == Apply(ws[0], db)
  {
  }

  lemma {:induction false} ApplyTwo(ws: seq<Write>, db: Tables)
    requires |ws| == 2
    ensures ApplyAll(ws, db) == Apply(ws[1], Apply(ws[0], db))
  {
    ApplyOne(ws[1..], Apply(ws[0], db));
  }

  lemma {:induction false} FoldEmpty(keepRaw: bool, db: Tables)
    ensures Fold(keepRaw, [], db) == db
  {
  }

  lemma {:induction false} FoldConcat(keepRaw: bool, s: seq<Event>, t: seq<Event>, db: Tables)
    ensures Fold(keepRaw, s + t, db) == Fold(keepRaw, t, Fold(keepRaw, s, db))
  {
    if s == [] {
      assert s + t == t;
    } else {
      assert (s + t)[1..] == s[1..] + t;
      FoldConcat(keepRaw, s[1..], t, ApplyAll(Writes(keepRaw, s[0]), db));
    }
  }

  lemma {:induction false} FoldIsApplyAll(keepRaw: bool, es: seq<Event>, db: Tables)
    ensures Fold(keepRaw, es, db) == ApplyAll(AllWrites(keepRaw, es), db)
  {
    if es != [] {
      var first := Writes(keepRaw, es[0]);
      ApplyAllConcat(first, AllWrites(keepRaw, es[1..]), db);
      FoldIsApplyAll(keepRaw, es[1..], ApplyAll(first, db));
    }
  }

  class Projector {
    const keepRaw: bool
    var tables: Tables
    var seen: nat

    constructor (keepRaw: bool)
      ensures this.keepRaw == keepRaw && tables == map[] && seen == 0
    {
      this.keepRaw := keepRaw;
      tables, seen := map[], 0;
    }

    method UpsertRow(key: Key, values: Row, update: set<Field>)
      modifies this`tables
      ensures tables == Apply(Upsert(key, values, update), old(tables))
    {
      if key in tables {
        tables := tables[key := tables[key] + Restrict(values, update)];
      } else {
        tables := tables[key := values];
      }
    }

    method Execute(w: Write)
      modifies this`tables
      ensures tables == Apply(w, old(tables))
    {
      match w
      case Upsert(key, values, update) =>
        UpsertRow(key, values, update);
      case CountEmail(key, at) =>
        if key in tables {
          var row := tables[key];
          tables := tables[key := row[EmailsSent := Number(EmailCount(row) + 1)][UpdatedAt := Instant(at)]];
        }
    }

    /** Handles one delivery. `seen` counts the handlers that committed. */
    method Handle(e: Event)
      modifies this
      ensures tables == Fold(keepRaw, [e], old(tables))
      ensures seen == old(seen)
          + (if AsId(e.tenant).Id? && ProjectWrites(e, AsId(e.tenant), CaseOf(e)).Some? then 1 else 0)
    {
      var tenant := AsId(e.tenant);
      assert Fold(keepRaw, [e], tables) == ApplyAll(Writes(keepRaw, e), tables) by {
        assert [e][1..] == [];
      }
      if !tenant.Id? {
        return;
      }
      var caseId := CaseOf(e);
      var saved := tables;
      var raw := if keepRaw then [RawWrite(e, tenant, caseId)] else [];
      if keepRaw {
        Execute(raw[0]);
      }
      assert tables == ApplyAll(raw, saved);
      var ws := ProjectWrites(e, tenant, caseId);
      if ws.None? {
        tables := saved;  // the session rolls back
        return;
      }
      ApplyAllConcat(raw, ws.value, saved);
      var i := 0;
      while i < |ws.value|
        invariant 0 <= i <= |ws.value|
        invariant ApplyAll(ws.value[i..], tables) == ApplyAll(raw + ws.value, saved)
        invariant seen == old(seen)
      {
        assert ws.value[i..][1..] == ws.value[i + 1..];
        Execute(ws.value[i]);
        i := i + 1;
      }
      seen := seen + 1;
    }
  }
}
