/**
 The case service and the read model together: whatever the delivery schedule did, a drained
 pipeline shows every case in the status the case service has for it.
 */
module ReadModel {
  import opened Common
  import opened StateMachine
  import opened CaseService
  import opened CaseInvariants
  import CaseLifecycle
  import H = CaseHistory
  import P = Projector
  import R = ProjectedRows
  import Replay
  import Outbox
  import Delivery

  function StatusName(s: CaseStatus): string {
    match s
    case New => "NEW"
    case Triaged => "TRIAGED"
    case Investigating => "INVESTIGATING"
    case AwaitingCustomer => "AWAITING_CUSTOMER"
    case Negotiating => "NEGOTIATING"
    case PendingApproval => "PENDING_APPROVAL"
    case ActionTaken => "ACTION_TAKEN"
    case Resolved => "RESOLVED"
    case Escalated => "ESCALATED"
    case WrittenOff => "WRITTEN_OFF"
  }

  function DecisionName(d: Decision): string {
    match d
    case Allow => "ALLOW"
    case RequireApproval => "REQUIRE_APPROVAL"
    case Deny => "DENY"
  }

  function ReasonOf(r: Option<string>): P.Value {
    if r.Some? then P.Text(r.value) else P.Null
  }

  function KindOf(b: Body): P.Kind {
    match b
    case Created => P.CaseCreated
    case StateChanged(_, _, _) => P.CaseStateChanged
    case CaseClosed(_, _) => P.CaseResolved
    case ActionProposed(_, _) => P.ActionProposed
    case ActionDecided(_, v) =>
      if v == Approved then P.ActionApproved else if v == Edited then P.ActionEdited else P.ActionRejected
    case TakenOver => P.CaseTakeover
    case Released => P.CaseReleased
  }

  function DataOf(caseId: nat, b: Body): P.Data {
    var own: P.Data := map[P.CaseId := P.Id(caseId)];
    match b
    case StateChanged(from, to, reason) =>
      own[P.From := P.Text(StatusName(from))][P.To := P.Text(StatusName(to))][P.Reason := ReasonOf(reason)]
    case CaseClosed(status, reason) => own[P.Status := P.Text(StatusName(status))][P.Reason := ReasonOf(reason)]
    case ActionProposed(a, decision) =>
      own[P.ActionId := P.Id(a)][P.PolicyDecision := P.Text(DecisionName(decision))]
    case ActionDecided(a, _) => own[P.ActionId := P.Id(a)]
    case _ => own
  }

  /** The envelope `_emit` writes for outbox row `id`. */
  function Envelope(e: CaseEvent, id: nat, tenant: nat): P.Event {
    P.Event(id, KindOf(e.body), P.Text("case-service"), P.Id(e.caseId), P.Id(tenant), e.at, DataOf(e.caseId, e.body))
  }

  function Envelopes(evs: seq<CaseEvent>, tenantOf: nat -> nat): (es: seq<P.Event>)
    ensures |es| == |evs|
  {
    seq(|evs|, i requires 0 <= i < |evs| => Envelope(evs[i], i, tenantOf(evs[i].caseId)))
  }

  function CaseKey(c: nat): P.Key {
    P.Key(P.DimCase, P.Id(c))
  }

  /** The case row shows log state `st`. */
  predicate Shows(db: P.Tables, c: nat, st: LogState) {
    match st
    case Absent => CaseKey(c) !in db
    case At(status) =>
      && CaseKey(c) in db
      && P.Get(db[CaseKey(c)], P.Status) == P.Text(StatusName(status))
      && (P.ClosedAt in db[CaseKey(c)] <==> IsTerminal(status))
    case Broken => true
  }

  lemma {:induction false} TerminalNames(s: CaseStatus)
    ensures StatusName(s) == "RESOLVED" || StatusName(s) == "WRITTEN_OFF" <==> IsTerminal(s)
  {
    match s
    case Negotiating => assert StatusName(s)[0] == 'N';
    case _ =>
  }

  lemma {:induction false} OtherKeyKept(w: P.Write, db: P.Tables, k: P.Key)
    requires w.key != k
    ensures Replay.Lookup(P.Apply(w, db), k) == Replay.Lookup(db, k)
  {
  }

  /** What a case-row patch does to the two columns that show the status. */
  lemma {:induction false} PatchShows(db: P.Tables, c: nat, tenant: P.Value, patch: P.Row, at: int)
    requires CaseKey(c) in db
    ensures var t := P.Apply(P.CasePatchWrite(P.Id(c), tenant, patch, at), db);
            && CaseKey(c) in t
            && P.Get(t[CaseKey(c)], P.Status)
                == (if P.Status in patch then patch[P.Status] else P.Get(db[CaseKey(c)], P.Status))
            && (P.ClosedAt in t[CaseKey(c)] <==> P.ClosedAt in patch || P.ClosedAt in db[CaseKey(c)])
  {
  }

  lemma {:induction false} StateChangeShows(
      db: P.Tables, c: nat, tenant: P.Value, d: P.Data, at: int, from: CaseStatus, to: CaseStatus)
    requires Shows(db, c, At(from)) && Legal(from, to) && P.Get(d, P.To) == P.Text(StatusName(to))
    ensures Shows(P.Apply(P.CasePatchWrite(P.Id(c), tenant, P.StatePatch(d, at), at), db), c, At(to))
  {
    TerminalNames(to);
    PatchShows(db, c, tenant, P.StatePatch(d, at), at);
  }

  /** The writes of one envelope that patches the case row, after the raw copy that touches another table. */
  lemma {:induction false} PatchStep(db: P.Tables, e: CaseEvent, id: nat, tenant: nat, st: LogState)
    requires e.body.CaseClosed? || e.body.TakenOver? || e.body.Released?
    requires Shows(db, e.caseId, st) && ReplayOne(st, e, e.caseId) != Broken && st != Broken
    ensures var ws := P.ProjectWrites(Envelope(e, id, tenant), P.Id(tenant), P.Id(e.caseId)).value;
            Shows(P.ApplyAll(ws, db), e.caseId, ReplayOne(st, e, e.caseId))
  {
    var env := Envelope(e, id, tenant);
    var patch :=
      match e.body
      case TakenOver => map[P.HumanTouched := P.Flag(true), P.AgentMode := P.Text("HUMAN_CONTROL")]
      case Released => map[P.HumanTouched := P.Flag(true), P.AgentMode := P.Text("AUTONOMOUS")]
      case _ =>
        map[P.ClosedAt := P.Instant(env.time), P.CloseReason := P.Get(env.data, P.Reason),
            P.Status := P.Get(env.data, P.Status)];
    P.ApplyOne(P.ProjectWrites(env, P.Id(tenant), P.Id(e.caseId)).value, db);
    PatchShows(db, e.caseId, P.Id(tenant), patch, env.time);
  }

  lemma {:induction false} EnvelopeStep(db: P.Tables, e: CaseEvent, id: nat, tenant: nat, c: nat, st: LogState)
    requires Shows(db, c, st) && ReplayOne(st, e, c) != Broken && st != Broken
    ensures var ws := P.ProjectWrites(Envelope(e, id, tenant), P.Id(tenant), P.Id(e.caseId)).value;
            Shows(P.ApplyAll(ws, db), c, ReplayOne(st, e, c))
  {
    var env := Envelope(e, id, tenant);
    var ws := P.ProjectWrites(env, P.Id(tenant), P.Id(e.caseId)).value;
    if e.caseId != c || e.body.ActionProposed? {
      OtherCase(ws, db, c);
      return;
    }
    match e.body
    case ActionDecided(_, _) =>
      P.ApplyTwo(ws, db);
      OtherKeyKept(ws[0], db, CaseKey(c));
      PatchShows(P.Apply(ws[0], db), c, P.Id(tenant), map[P.HumanTouched := P.Flag(true)], env.time);
    case Created =>
      P.ApplyOne(ws, db);
    case StateChanged(from, to, reason) =>
      P.ApplyOne(ws, db);
      StateChangeShows(db, c, P.Id(tenant), env.data, env.time, from, to);
    case _ =>
      PatchStep(db, e, id, tenant, st);
  }

  lemma {:induction false} OtherCase(ws: seq<P.Write>, db: P.Tables, c: nat)
    requires forall i :: 0 <= i < |ws| ==> ws[i].key != CaseKey(c)
    ensures Replay.Lookup(P.ApplyAll(ws, db), CaseKey(c)) == Replay.Lookup(db, CaseKey(c))
  {
    if ws != [] {
      OtherKeyKept(ws[0], db, CaseKey(c));
      OtherCase(ws[1..], P.Apply(ws[0], db), c);
    }
  }

  lemma {:induction false} HandleShows(
      keepRaw: bool, db: P.Tables, e: CaseEvent, id: nat, tenant: nat, c: nat, st: LogState)
    requires Shows(db, c, st) && ReplayOne(st, e, c) != Broken && st != Broken
    ensures Shows(P.Fold(keepRaw, [Envelope(e, id, tenant)], db), c, ReplayOne(st, e, c))
  {
    var env := Envelope(e, id, tenant);
    var raw := if keepRaw then [P.RawWrite(env, P.Id(tenant), P.Id(e.caseId))] else [];
    var ws := P.ProjectWrites(env, P.Id(tenant), P.Id(e.caseId)).value;
    assert P.Writes(keepRaw, env) == raw + ws;
    assert P.Fold(keepRaw, [env], db) == P.ApplyAll(raw + ws, db) by { assert [env][1..] == []; }
    P.ApplyAllConcat(raw, ws, db);
    OtherCase(raw, db, c);
    EnvelopeStep(P.ApplyAll(raw, db), e, id, tenant, c, st);
  }

  lemma {:induction false} FoldShows(keepRaw: bool, evs: seq<CaseEvent>, tenantOf: nat -> nat, c: nat)
    requires CaseInvariants.Replay(evs, c) != Broken
    ensures Shows(P.Fold(keepRaw, Envelopes(evs, tenantOf), map[]), c, CaseInvariants.Replay(evs, c))
    decreases |evs|
  {
    if evs != [] {
      var front, last := evs[..|evs| - 1], evs[|evs| - 1];
      FoldShows(keepRaw, front, tenantOf, c);
      var env := Envelope(last, |front|, tenantOf(last.caseId));
      assert Envelopes(evs, tenantOf) == Envelopes(front, tenantOf) + [env];
      P.FoldConcat(keepRaw, Envelopes(front, tenantOf), [env], map[]);
      HandleShows(keepRaw, P.Fold(keepRaw, Envelopes(front, tenantOf), map[]), last, |front|, tenantOf(last.caseId), c,
                  CaseInvariants.Replay(front, c));
    }
  }

  lemma {:induction false} ScrubShows(db: P.Tables, once: P.Tables, c: nat, st: LogState)
    requires Replay.Scrub(db) == Replay.Scrub(once) && Shows(once, c, st)
    ensures Shows(db, c, st)
  {
    assert CaseKey(c) in db <==> CaseKey(c) in Replay.Scrub(db);
    assert CaseKey(c) in once <==> CaseKey(c) in Replay.Scrub(once);
    if CaseKey(c) in db {
      ColumnSurvives(db[CaseKey(c)], P.Status);
      ColumnSurvives(once[CaseKey(c)], P.Status);
      ColumnSurvives(db[CaseKey(c)], P.ClosedAt);
      ColumnSurvives(once[CaseKey(c)], P.ClosedAt);
      assert Replay.Scrub(db)[CaseKey(c)] == Replay.Scrub(once)[CaseKey(c)];
    }
  }

  lemma {:induction false} ColumnSurvives(row: P.Row, f: P.Field)
    requires f != P.EmailsSent
    ensures var r := row - {P.EmailsSent}; (f in r <==> f in row) && P.Get(r, f) == P.Get(row, f)
  {
  }

  /** Any run of the case service, any schedule of relay and consumer: once drained, `dim_case` has a
      row for exactly the existing cases, with the case's own status, closed exactly when the case is. */
  lemma {:induction false} ReadModelAgrees(
      ops: seq<Op>, cfg: Delivery.Config, steps: seq<Delivery.Step>, tenantOf: nat -> nat, c: nat)
    requires Delivery.Quiescent(Delivery.Run(cfg, Delivery.EMPTY, steps))
    requires Outbox.Events(Delivery.Run(cfg, Delivery.EMPTY, steps).rows) == Envelopes(Run(EMPTY, ops).outbox, tenantOf)
    ensures var db, s := Delivery.Run(cfg, Delivery.EMPTY, steps).tables, Run(EMPTY, ops);
            && (CaseKey(c) in db <==> c in s.cases)
            && (c in s.cases ==>
                  && P.Get(db[CaseKey(c)], P.Status) == P.Text(StatusName(s.cases[c].status))
                  && (P.ClosedAt in db[CaseKey(c)] <==> s.cases[c].resolvedAt.Some?))
  {
    hide P.Fold, Delivery.Run, Run, CaseInvariants.Replay, Replay.Scrub;
    var db, s := Delivery.Run(cfg, Delivery.EMPTY, steps).tables, Run(EMPTY, ops);
    CaseLifecycle.Reachable(ops);
    assert CaseLogOk(s, c);
    FoldShows(cfg.keepRaw, s.outbox, tenantOf, c);
    Delivery.Convergence(cfg, steps);
    ScrubShows(db, P.Fold(cfg.keepRaw, Envelopes(s.outbox, tenantOf), map[]), c, CaseInvariants.Replay(s.outbox, c));
  }

  // ---------- actions and modes ----------

  function ActionKey(a: nat): P.Key {
    P.Key(P.FactAction, P.Id(a))
  }

  function OutcomeName(verdict: ActionStatus): string {
    match verdict
    case Approved => "APPROVED"
    case Edited => "EDITED"
    case _ => "REJECTED"
  }

  /** The action's row shows what the events say about it. */
  predicate ActionShows(db: P.Tables, a: nat, p: H.Past) {
    match p
    case Unknown => ActionKey(a) !in db
    case Proposed(c, decision) =>
      && ActionKey(a) in db && P.Get(db[ActionKey(a)], P.CaseId) == P.Id(c)
      && P.Get(db[ActionKey(a)], P.Outcome) == P.Text("PROPOSED")
      && P.Get(db[ActionKey(a)], P.PolicyDecision) == P.Text(DecisionName(decision))
    case Settled(c, verdict) =>
      && ActionKey(a) in db && P.Get(db[ActionKey(a)], P.CaseId) == P.Id(c)
      && P.Get(db[ActionKey(a)], P.Outcome) == P.Text(OutcomeName(verdict))
    case Corrupt => true
  }

  /** The case's row shows a human in control exactly when one is. */
  predicate ModeShows(db: P.Tables, c: nat, m: AgentMode) {
    m == HumanControl <==> CaseKey(c) in db && P.Get(db[CaseKey(c)], P.AgentMode) == P.Text("HUMAN_CONTROL")
  }

  lemma {:induction false} EnvelopeConcerns(e: CaseEvent, id: nat, tenant: nat)
    ensures R.Concerns(Envelope(e, id, tenant), tenant, P.Id(e.caseId))
    ensures (e.body.ActionProposed? || e.body.ActionDecided?) ==>
              R.Given(Envelope(e, id, tenant).data, P.ActionId) == P.Id(e.body.action)
  {
  }

  /** A change to case row `c`, seen from any key: an action's row stands, and so does the mode of a case whose
      change does not name one. */
  lemma {:induction false} CaseRowPut(
      db: P.Tables, c: nat, created: P.Row, changes: P.Row, x: nat, p: H.Past, m: AgentMode)
    ensures var t := R.Put(db, CaseKey(c), created, changes);
            && (ActionShows(db, x, p) ==> ActionShows(t, x, p))
            && (ModeShows(db, x, m) && (c != x || (P.AgentMode !in created && P.AgentMode !in changes)) ==>
                  ModeShows(t, x, m))
  {
  }

  lemma {:induction false} NoModeNamed(e: P.Event, t: nat, c: P.Value)
    ensures P.AgentMode !in R.OpenedRow(e, t, c) && P.AgentMode !in R.ReopenedColumns(e)
    ensures P.AgentMode !in R.StatusColumns(e) && P.AgentMode !in R.CasePatchColumns(e.(kind := P.CaseResolved))
  {
  }

  lemma {:induction false} CasePut(
      db: P.Tables, t: nat, c: nat, at: int, changes: P.Row, x: nat, p: H.Past, m: AgentMode)
    ensures var after := R.PutCase(db, t, P.Id(c), at, changes);
            && (ActionShows(db, x, p) ==> ActionShows(after, x, p))
            && (ModeShows(db, x, m) && (c != x || P.AgentMode !in changes) ==> ModeShows(after, x, m))
            && (P.AgentMode in changes ==>
                  CaseKey(c) in after && P.Get(after[CaseKey(c)], P.AgentMode) == changes[P.AgentMode])
  {
    var stub: P.Row := map[P.CaseId := P.Id(c), P.TenantId := P.Id(t), P.OpenedAt := P.Instant(at),
        P.UpdatedAt := P.Instant(at)];
    CaseRowPut(db, c, stub + changes, changes[P.UpdatedAt := P.Instant(at)], x, p, m);
  }

  /** One event of a case, seen by an action's row and by a case's mode. */
  lemma {:induction false} CaseEventStep(
      db: P.Tables, e: CaseEvent, id: nat, tenant: nat, x: nat, p: H.Past, m: AgentMode)
    requires !e.body.ActionProposed? && !e.body.ActionDecided?
    ensures var after := P.Fold(false, [Envelope(e, id, tenant)], db);
            && (ActionShows(db, x, p) ==> ActionShows(after, x, p))
            && (ModeShows(db, x, m) ==> ModeShows(after, x, H.ModeOne(m, e, x)))
  {
    var env, c := Envelope(e, id, tenant), P.Id(e.caseId);
    EnvelopeConcerns(e, id, tenant);
    NoModeNamed(env, tenant, c);
    if e.body.Created? {
      R.CaseCreatedWrites(env, tenant, c, db);
      hide P.Fold, R.OpenedRow, R.ReopenedColumns, R.Put, ActionShows, ModeShows;
      CaseRowPut(db, e.caseId, R.OpenedRow(env, tenant, c), R.ReopenedColumns(env), x, p, m);
    } else if e.body.StateChanged? {
      R.StateChangedWrites(env, tenant, c, db);
      hide P.Fold, R.StatusColumns, R.PutCase, ActionShows, ModeShows;
      CasePut(db, tenant, e.caseId, env.time, R.StatusColumns(env), x, p, m);
    } else {
      R.CasePatchWrites(env, tenant, c, db);
      assert "HUMAN_CONTROL"[0] != "AUTONOMOUS"[0];
      hide P.Fold, R.PutCase, ActionShows;
      CasePut(db, tenant, e.caseId, env.time, R.CasePatchColumns(env), x, p, m);
    }
  }

  lemma {:induction false} ActionStep(db: P.Tables, e: CaseEvent, id: nat, tenant: nat, a: nat, p: H.Past)
    requires ActionShows(db, a, p) && H.PastOne(p, e, a) != H.Corrupt && p != H.Corrupt
    ensures ActionShows(P.Fold(false, [Envelope(e, id, tenant)], db), a, H.PastOne(p, e, a))
  {
    var env, c := Envelope(e, id, tenant), P.Id(e.caseId);
    EnvelopeConcerns(e, id, tenant);
    if e.body.ActionProposed? {
      R.ActionProposedWrites(env, tenant, c, e.body.action, db);
      hide P.Fold;
    } else if e.body.ActionDecided? {
      R.ActionDecidedWrites(env, tenant, c, e.body.action, db);
      DecidedPut(db, env, e, tenant, a, p);
      hide P.Fold, R.PutCase, ActionShows, R.Put, R.DecidedRow, R.DecidedColumns;
      var b := e.body.action;
      var mid := R.Put(db, ActionKey(b), R.DecidedRow(env, tenant, c, b), R.DecidedColumns(env));
      CasePut(mid, tenant, e.caseId, env.time, map[P.HumanTouched := P.Flag(true)], a, H.PastOne(p, e, a), Autonomous);
    } else {
      CaseEventStep(db, e, id, tenant, a, p, Autonomous);
    }
  }

  lemma {:induction false} DecidedPut(db: P.Tables, env: P.Event, e: CaseEvent, tenant: nat, a: nat, p: H.Past)
    requires e.body.ActionDecided? && env.kind == KindOf(e.body)
    requires ActionShows(db, a, p) && H.PastOne(p, e, a) != H.Corrupt && p != H.Corrupt
    ensures var c, b := P.Id(e.caseId), e.body.action;
            ActionShows(R.Put(db, ActionKey(b), R.DecidedRow(env, tenant, c, b), R.DecidedColumns(env)),
                        a, H.PastOne(p, e, a))
  {
  }

  lemma {:induction false} ModeStep(db: P.Tables, e: CaseEvent, id: nat, tenant: nat, x: nat, m: AgentMode)
    requires ModeShows(db, x, m)
    ensures ModeShows(P.Fold(false, [Envelope(e, id, tenant)], db), x, H.ModeOne(m, e, x))
  {
    var env, c := Envelope(e, id, tenant), P.Id(e.caseId);
    EnvelopeConcerns(e, id, tenant);
    if e.body.ActionProposed? {
      R.ActionProposedWrites(env, tenant, c, e.body.action, db);
      hide P.Fold, R.ProposedRow, R.PolicyColumns;
    } else if e.body.ActionDecided? {
      var b := e.body.action;
      R.ActionDecidedWrites(env, tenant, c, b, db);
      hide P.Fold, R.PutCase, R.DecidedRow, R.DecidedColumns;
      var mid := R.Put(db, ActionKey(b), R.DecidedRow(env, tenant, c, b), R.DecidedColumns(env));
      assert ModeShows(mid, x, m);
      hide ModeShows;
      CasePut(mid, tenant, e.caseId, env.time, map[P.HumanTouched := P.Flag(true)], x, H.Corrupt, m);
    } else {
      CaseEventStep(db, e, id, tenant, x, H.Corrupt, m);
    }
  }

  /** The raw copy of a case event touches no other table. */
  lemma {:induction false} RawApart(keepRaw: bool, db: P.Tables, e: CaseEvent, id: nat, tenant: nat)
    returns (raw: P.Tables)
    ensures P.Fold(keepRaw, [Envelope(e, id, tenant)], db) == P.Fold(false, [Envelope(e, id, tenant)], raw)
    ensures forall k: P.Key :: k.table != P.FactEvent ==> Replay.Lookup(raw, k) == Replay.Lookup(db, k)
  {
    var env, c := Envelope(e, id, tenant), P.Id(e.caseId);
    raw := db;
    if keepRaw {
      EnvelopeConcerns(e, id, tenant);
      R.RawCopyWrites(env, tenant, c, db);
      assert !R.Raises(env);
      hide P.Fold;
      raw := R.Put(db, P.Key(P.FactEvent, P.Id(env.id)), R.RawRow(env, tenant, c),
          map[P.Payload := P.Document(env.data)]);
    }
  }

  lemma {:induction false} HistoryShows(keepRaw: bool, evs: seq<CaseEvent>, tenantOf: nat -> nat, x: nat)
    requires H.PastOf(evs, x) != H.Corrupt
    ensures var db := P.Fold(keepRaw, Envelopes(evs, tenantOf), map[]);
            ActionShows(db, x, H.PastOf(evs, x)) && ModeShows(db, x, H.ModeOf(evs, x))
    decreases |evs|
  {
    if evs != [] {
      var front, last := evs[..|evs| - 1], evs[|evs| - 1];
      HistoryShows(keepRaw, front, tenantOf, x);
      var tenant := tenantOf(last.caseId);
      var env := Envelope(last, |front|, tenant);
      assert Envelopes(evs, tenantOf) == Envelopes(front, tenantOf) + [env];
      var db := P.Fold(keepRaw, Envelopes(front, tenantOf), map[]);
      P.FoldConcat(keepRaw, Envelopes(front, tenantOf), [env], map[]);
      hide P.Fold, Envelopes;
      var raw := RawApart(keepRaw, db, last, |front|, tenant);
      SameShows(db, raw, x, H.PastOf(front, x), H.ModeOf(front, x));
      hide ActionShows, ModeShows;
      ActionStep(raw, last, |front|, tenant, x, H.PastOf(front, x));
      ModeStep(raw, last, |front|, tenant, x, H.ModeOf(front, x));
    }
  }

  lemma {:induction false} SameShows(db: P.Tables, raw: P.Tables, x: nat, p: H.Past, m: AgentMode)
    requires forall k: P.Key :: k.table != P.FactEvent ==> Replay.Lookup(raw, k) == Replay.Lookup(db, k)
    ensures ActionShows(db, x, p) ==> ActionShows(raw, x, p)
    ensures ModeShows(db, x, m) ==> ModeShows(raw, x, m)
  {
    assert Replay.Lookup(raw, ActionKey(x)) == Replay.Lookup(db, ActionKey(x));
    assert Replay.Lookup(raw, CaseKey(x)) == Replay.Lookup(db, CaseKey(x));
  }

  lemma {:induction false} ScrubKeeps(db: P.Tables, once: P.Tables, k: P.Key, f: P.Field)
    requires Replay.Scrub(db) == Replay.Scrub(once) && f != P.EmailsSent
    ensures k in db <==> k in once
    ensures k in db ==> P.Get(db[k], f) == P.Get(once[k], f)
  {
    assert k in db <==> k in Replay.Scrub(db);
    assert k in once <==> k in Replay.Scrub(once);
    if k in db {
      ColumnSurvives(db[k], f);
      ColumnSurvives(once[k], f);
      assert Replay.Scrub(db)[k] == Replay.Scrub(once)[k];
    }
  }

  lemma {:induction false} ScrubShowsHistory(db: P.Tables, once: P.Tables, x: nat, p: H.Past, m: AgentMode)
    requires Replay.Scrub(db) == Replay.Scrub(once) && ActionShows(once, x, p) && ModeShows(once, x, m)
    ensures ActionShows(db, x, p) && ModeShows(db, x, m)
  {
    ScrubKeeps(db, once, ActionKey(x), P.CaseId);
    ScrubKeeps(db, once, ActionKey(x), P.Outcome);
    ScrubKeeps(db, once, ActionKey(x), P.PolicyDecision);
    ScrubKeeps(db, once, CaseKey(x), P.AgentMode);
  }

  lemma {:induction false} DrainedHistory(
      ops: seq<Op>, cfg: Delivery.Config, steps: seq<Delivery.Step>, tenantOf: nat -> nat, x: nat)
    requires Delivery.Quiescent(Delivery.Run(cfg, Delivery.EMPTY, steps))
    requires Outbox.Events(Delivery.Run(cfg, Delivery.EMPTY, steps).rows) == Envelopes(Run(EMPTY, ops).outbox, tenantOf)
    ensures var db, s := Delivery.Run(cfg, Delivery.EMPTY, steps).tables, Run(EMPTY, ops);
            && H.PastAgrees(s, x) && H.ModeAgrees(s, x)
            && ActionShows(db, x, H.PastOf(s.outbox, x)) && ModeShows(db, x, H.ModeOf(s.outbox, x))
  {
    var db, s := Delivery.Run(cfg, Delivery.EMPTY, steps).tables, Run(EMPTY, ops);
    H.HistoryAgrees(ops, x);
    assert H.PastOf(s.outbox, x) != H.Corrupt;
    HistoryShows(cfg.keepRaw, s.outbox, tenantOf, x);
    Delivery.Convergence(cfg, steps);
    hide P.Fold, Delivery.Run, Run, Replay.Scrub, ActionShows, ModeShows, Envelopes;
    ScrubShowsHistory(db, P.Fold(cfg.keepRaw, Envelopes(s.outbox, tenantOf), map[]), x,
                      H.PastOf(s.outbox, x), H.ModeOf(s.outbox, x));
  }

  predicate Decides(e: CaseEvent, a: nat) {
    e.body.ActionDecided? && e.body.action == a
  }

  /** Any run of the case service, any schedule of relay and consumer: once drained, `fact_action` has a row
      for exactly the existing actions, with its case; the outcome is PROPOSED while the outbox holds no
      decision on the action, and then APPROVED, EDITED or REJECTED as that decision said. */
  lemma {:induction false} ReadModelShowsActions(
      ops: seq<Op>, cfg: Delivery.Config, steps: seq<Delivery.Step>, tenantOf: nat -> nat, a: nat)
    requires Delivery.Quiescent(Delivery.Run(cfg, Delivery.EMPTY, steps))
    requires Outbox.Events(Delivery.Run(cfg, Delivery.EMPTY, steps).rows) == Envelopes(Run(EMPTY, ops).outbox, tenantOf)
    ensures var db, s := Delivery.Run(cfg, Delivery.EMPTY, steps).tables, Run(EMPTY, ops);
            && (ActionKey(a) in db <==> a in s.actions)
            && (a in s.actions ==>
                  var row, outcome := s.actions[a], P.Get(db[ActionKey(a)], P.Outcome);
                  && P.Get(db[ActionKey(a)], P.CaseId) == P.Id(row.caseId)
                  && (forall i :: 0 <= i < |s.outbox| && Decides(s.outbox[i], a) ==>
                        outcome == P.Text(match s.outbox[i].body.verdict
                                          case Approved => "APPROVED" case Edited => "EDITED" case _ => "REJECTED"))
                  && ((forall i :: 0 <= i < |s.outbox| ==> !Decides(s.outbox[i], a)) ==>
                        outcome == P.Text("PROPOSED"))
                  && (row.decidedBy.None? <==> outcome == P.Text("PROPOSED"))
                  && (row.status == Rejected <==> outcome == P.Text("REJECTED")))
  {
    DrainedHistory(ops, cfg, steps, tenantOf, a);
    var db, s := Delivery.Run(cfg, Delivery.EMPTY, steps).tables, Run(EMPTY, ops);
    H.PastFound(s.outbox, a);
    CaseLifecycle.Reachable(ops);
    assert a in s.actions ==> ActionOk(s.actions[a]);
    hide Delivery.Run, Run, H.PastOf, H.ModeOf, Inv;
    assert "PROPOSED"[0] == 'P' && "APPROVED"[0] == 'A' && "EDITED"[0] == 'E' && "REJECTED"[0] == 'R';
  }

  /** Likewise every case's row shows HUMAN_CONTROL exactly when a human is in control of the case. */
  lemma {:induction false} ReadModelShowsModes(
      ops: seq<Op>, cfg: Delivery.Config, steps: seq<Delivery.Step>, tenantOf: nat -> nat, c: nat)
    requires Delivery.Quiescent(Delivery.Run(cfg, Delivery.EMPTY, steps))
    requires Outbox.Events(Delivery.Run(cfg, Delivery.EMPTY, steps).rows) == Envelopes(Run(EMPTY, ops).outbox, tenantOf)
    ensures var db, s := Delivery.Run(cfg, Delivery.EMPTY, steps).tables, Run(EMPTY, ops);
            c in s.cases ==>
              && CaseKey(c) in db
              && (s.cases[c].mode == HumanControl <==> P.Get(db[CaseKey(c)], P.AgentMode) == P.Text("HUMAN_CONTROL"))
  {
    DrainedHistory(ops, cfg, steps, tenantOf, c);
    ReadModelAgrees(ops, cfg, steps, tenantOf, c);
    hide Delivery.Run, Run, H.PastOf, H.ModeOf;
  }
}
