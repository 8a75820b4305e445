/**
 Replaying a batch of events on top of its own result changes nothing but `emails_sent`:
 every other write is insert-if-absent plus overwrite.
 */
module Replay {
  import opened Common
  import opened Projector

  /** The tables without the one column that is incremented instead of overwritten. */
  function Scrub(db: Tables): Tables {
    map k | k in db :: db[k] - {EmailsSent}
  }

  function Lookup(db: Tables, k: Key): Option<Row> {
    if k in db then Some(db[k]) else None
  }

  lemma {:induction false} SameLookups(a: Tables, b: Tables)
    requires forall k :: Lookup(a, k) == Lookup(b, k)
    ensures a == b
  {
    forall k ensures k in a <==> k in b {
      assert Lookup(a, k) == Lookup(b, k);
    }
    forall k | k in a ensures a[k] == b[k] {
      assert Lookup(a, k) == Lookup(b, k);
    }
  }

  /** What replay needs of a write. */
  predicate Replayable(w: Write) {
    match w
    case Upsert(k, values, update) =>
      EmailsSent !in values && (k.table == DimCase ==> UpdatedAt in update && UpdatedAt in values)
    case CountEmail(k, _) => k.table == DimCase
  }

  predicate AllReplayable(ws: seq<Write>) {
    forall i :: 0 <= i < |ws| ==> Replayable(ws[i])
  }

  lemma {:induction false} PatchReplayable(caseId: Value, tenant: Value, patch: Row, at: int)
    requires EmailsSent !in patch
    ensures Replayable(CasePatchWrite(caseId, tenant, patch, at))
  {
  }

  lemma {:induction false} CaseWritesReplayable(e: Event, tenant: Value, caseId: Value)
    requires e.kind in {CaseCreated, CaseStateChanged, CaseResolved, CaseTakeover, CaseReleased}
    ensures ProjectWrites(e, tenant, caseId).Some? && AllReplayable(ProjectWrites(e, tenant, caseId).value)
  {
    if e.kind.CaseStateChanged? {
      PatchReplayable(caseId, tenant, StatePatch(e.data, e.time), e.time);
    }
  }

  lemma {:induction false} RunWritesReplayable(e: Event, tenant: Value, caseId: Value)
    requires e.kind.RunStarted? || e.kind.RunCompleted?
    ensures var ws := ProjectWrites(e, tenant, caseId); ws.Some? ==> AllReplayable(ws.value)
  {
    PatchReplayable(caseId, tenant, map[FirstAgentAt := Instant(e.time)], e.time);
    PatchReplayable(caseId, tenant, map[RootCause := Get(e.data, RootCause)], e.time);
  }

  lemma {:induction false} ProjectWritesReplayable(e: Event, tenant: Value, caseId: Value)
    ensures var ws := ProjectWrites(e, tenant, caseId); ws.Some? ==> AllReplayable(ws.value)
  {
    match e.kind
    case CaseCreated | CaseStateChanged | CaseResolved | CaseTakeover | CaseReleased =>
      CaseWritesReplayable(e, tenant, caseId);
    case RunStarted | RunCompleted =>
      RunWritesReplayable(e, tenant, caseId);
    case ActionApproved | ActionEdited | ActionRejected =>
      PatchReplayable(caseId, tenant, map[HumanTouched := Flag(true)], e.time);
    case _ =>
  }

  lemma {:induction false} StreamReplayable(keepRaw: bool, es: seq<Event>)
    ensures AllReplayable(AllWrites(keepRaw, es))
  {
    if es != [] {
      ProjectWritesReplayable(es[0], AsId(es[0].tenant), CaseOf(es[0]));
      StreamReplayable(keepRaw, es[1..]);
    }
  }

  // ---------- one row at a time ----------

  /** The columns a write overwrites in an existing row `k`. */
  function Change(w: Write, k: Key): Row {
    if w.key != k then map[]
    else match w
    case Upsert(_, values, update) => Restrict(values, update)
    case CountEmail(_, at) => map[UpdatedAt := Instant(at)]
  }

  function RowStep(w: Write, k: Key, r: Option<Row>): Option<Row> {
    if r.Some? then Some(r.value + Change(w, k))
    else if w.Upsert? && w.key == k then Some(w.values)
    else None
  }

  function RowAfter(ws: seq<Write>, k: Key, r: Option<Row>): Option<Row> {
    if ws == [] then r else RowAfter(ws[1..], k, RowStep(ws[0], k, r))
  }

  function Overlay(ws: seq<Write>, k: Key): Row {
    if ws == [] then map[] else Change(ws[0], k) + Overlay(ws[1..], k)
  }

  lemma {:induction false} ScrubStep(w: Write, db: Tables, k: Key)
    requires Replayable(w)
    ensures Lookup(Scrub(Apply(w, db)), k) == RowStep(w, k, Lookup(Scrub(db), k))
  {
    if k in db && w.key == k {
      match w
      case Upsert(_, values, update) =>
        assert (db[k] + Restrict(values, update)) - {EmailsSent} == (db[k] - {EmailsSent}) + Restrict(values, update);
      case CountEmail(_, at) =>
        assert db[k][EmailsSent := Number(EmailCount(db[k]) + 1)][UpdatedAt := Instant(at)] - {EmailsSent}
            == (db[k] - {EmailsSent}) + map[UpdatedAt := Instant(at)];
    } else if k in db {
      assert (db[k] - {EmailsSent}) + map[] == db[k] - {EmailsSent};
    } else if w.key == k && w.Upsert? {
      assert w.values - {EmailsSent} == w.values;
    }
  }

  lemma {:induction false} ScrubFollows(ws: seq<Write>, db: Tables, k: Key)
    requires AllReplayable(ws)
    ensures Lookup(Scrub(ApplyAll(ws, db)), k) == RowAfter(ws, k, Lookup(Scrub(db), k))
  {
    if ws != [] {
      ScrubStep(ws[0], db, k);
      ScrubFollows(ws[1..], Apply(ws[0], db), k);
    }
  }

  lemma {:induction false} MergeAssociates(a: Row, b: Row, c: Row)
    ensures (a + b) + c == a + (b + c)
  {
  }

  lemma {:induction false} ExistingRow(ws: seq<Write>, k: Key, row: Row)
    ensures RowAfter(ws, k, Some(row)) == Some(row + Overlay(ws, k))
  {
    if ws == [] {
      assert row + map[] == row;
    } else {
      ExistingRow(ws[1..], k, row + Change(ws[0], k));
      MergeAssociates(row, Change(ws[0], k), Overlay(ws[1..], k));
    }
  }

  /** A case row that `ws` creates also gets its `updated_at` from `ws`. */
  lemma {:induction false} CreatedRowIsTouched(ws: seq<Write>, k: Key)
    requires AllReplayable(ws)
    requires k.table == DimCase && RowAfter(ws, k, None).Some?
    ensures UpdatedAt in Overlay(ws, k)
  {
    assert Replayable(ws[0]);
    if RowStep(ws[0], k, None).None? {
      CreatedRowIsTouched(ws[1..], k);
    }
  }

  /** Whatever row `ws` leaves, the overwrites of `ws` already hold in it. */
  lemma {:induction false} OverlayAbsorbed(ws: seq<Write>, k: Key, r: Option<Row>)
    requires AllReplayable(ws)
    requires RowAfter(ws, k, r).Some?
    ensures var row := RowAfter(ws, k, r).value; row + Overlay(ws, k) == row
  {
    if r.Some? {
      ExistingRow(ws, k, r.value);
    } else {
      var w, rest := ws[0], ws[1..];
      assert Replayable(w);
      var row := RowAfter(ws, k, r).value;
      var next := RowStep(w, k, None);
      if next.Some? {
        ExistingRow(rest, k, next.value);
        assert row == w.values + Overlay(rest, k);
        assert row + Overlay(ws, k) == row;
      } else {
        OverlayAbsorbed(rest, k, None);
        if w.CountEmail? && w.key == k {
          CreatedRowIsTouched(rest, k);
          assert Overlay(ws, k) == Overlay(rest, k);
        } else {
          assert Overlay(ws, k) == Overlay(rest, k);
        }
      }
    }
  }

  // ---------- the absorption law ----------

  lemma {:induction false} ScrubCongruence(keepRaw: bool, es: seq<Event>, a: Tables, b: Tables)
    requires Scrub(a) == Scrub(b)
    ensures Scrub(Fold(keepRaw, es, a)) == Scrub(Fold(keepRaw, es, b))
  {
    var ws := AllWrites(keepRaw, es);
    StreamReplayable(keepRaw, es);
    FoldIsApplyAll(keepRaw, es, a);
    FoldIsApplyAll(keepRaw, es, b);
    forall k ensures Lookup(Scrub(Fold(keepRaw, es, a)), k) == Lookup(Scrub(Fold(keepRaw, es, b)), k) {
      ScrubFollows(ws, a, k);
      ScrubFollows(ws, b, k);
    }
    SameLookups(Scrub(Fold(keepRaw, es, a)), Scrub(Fold(keepRaw, es, b)));
  }

  lemma {:induction false} BatchIdempotent(keepRaw: bool, es: seq<Event>, db: Tables)
    ensures Scrub(Fold(keepRaw, es, Fold(keepRaw, es, db))) == Scrub(Fold(keepRaw, es, db))
  {
    var ws, once := AllWrites(keepRaw, es), Fold(keepRaw, es, db);
    StreamReplayable(keepRaw, es);
    FoldIsApplyAll(keepRaw, es, db);
    FoldIsApplyAll(keepRaw, es, once);
    forall k ensures Lookup(Scrub(Fold(keepRaw, es, once)), k) == Lookup(Scrub(once), k) {
      ScrubFollows(ws, db, k);
      ScrubFollows(ws, once, k);
      var r := Lookup(Scrub(db), k);
      var after := RowAfter(ws, k, r);
      if after.Some? {
        OverlayAbsorbed(ws, k, r);
        ExistingRow(ws, k, after.value);
      } else {
        NothingCreated(ws, k, r);
      }
    }
    SameLookups(Scrub(Fold(keepRaw, es, once)), Scrub(once));
  }

  lemma {:induction false} NothingCreated(ws: seq<Write>, k: Key, r: Option<Row>)
    requires RowAfter(ws, k, r).None?
    ensures r.None?
  {
    if r.Some? {
      ExistingRow(ws, k, r.value);
    }
  }

  /** Redelivering a prefix first does not change where a stream ends. */
  lemma {:induction false} PrefixAbsorption(keepRaw: bool, t: seq<Event>, u: seq<Event>, db: Tables)
    ensures Scrub(Fold(keepRaw, t + u, Fold(keepRaw, t, db))) == Scrub(Fold(keepRaw, t + u, db))
  {
    var once := Fold(keepRaw, t, db);
    FoldConcat(keepRaw, t, u, once);
    FoldConcat(keepRaw, t, u, db);
    BatchIdempotent(keepRaw, t, db);
    ScrubCongruence(keepRaw, u, Fold(keepRaw, t, once), once);
  }

  // ---------- emails_sent ----------

  function CountFor(ws: seq<Write>, k: Key): nat {
    if ws == [] then 0 else (if ws[0].CountEmail? && ws[0].key == k then 1 else 0) + CountFor(ws[1..], k)
  }

  /** Handled deliveries in `es` that count an outgoing email for case row `k`. */
  function SentFor(keepRaw: bool, es: seq<Event>, k: Key): nat {
    CountFor(AllWrites(keepRaw, es), k)
  }

  lemma {:induction false} EmailsCounted(ws: seq<Write>, db: Tables, k: Key)
    requires k in db && AllReplayable(ws)
    ensures k in ApplyAll(ws, db)
    ensures EmailCount(ApplyAll(ws, db)[k]) == EmailCount(db[k]) + CountFor(ws, k)
  {
    if ws != [] {
      assert Replayable(ws[0]);
      EmailsCounted(ws[1..], Apply(ws[0], db), k);
    }
  }

  /** The exception: a redelivered batch changes `emails_sent` of a case exactly when it counts an email for it. */
  lemma {:induction false} EmailsSentIdempotentIff(keepRaw: bool, es: seq<Event>, db: Tables, k: Key)
    requires k in Fold(keepRaw, es, db)
    ensures var once := Fold(keepRaw, es, db);
            k in Fold(keepRaw, es, once)
            && (EmailCount(Fold(keepRaw, es, once)[k]) == EmailCount(once[k]) <==> SentFor(keepRaw, es, k) == 0)
  {
    var ws, once := AllWrites(keepRaw, es), Fold(keepRaw, es, db);
    StreamReplayable(keepRaw, es);
    FoldIsApplyAll(keepRaw, es, once);
    EmailsCounted(ws, once, k);
  }

  /** An outgoing email of case `caseId`, handled twice, is counted twice. */
  lemma {:induction false} EmailsSentDoubleCounts(keepRaw: bool, caseId: nat, tenant: nat, db: Tables)
    requires Key(DimCase, Id(caseId)) in db
    ensures var k, mail := Key(DimCase, Id(caseId)),
        Event(7, EmailSent, Text("communication-service"), Id(caseId), Id(tenant), 0, map[]);
            var once := Fold(keepRaw, [mail], db);
            k in once && k in Fold(keepRaw, [mail], once)
            && EmailCount(Fold(keepRaw, [mail], once)[k]) == EmailCount(once[k]) + 1
  {
    var k, mail := Key(DimCase, Id(caseId)),
        Event(7, EmailSent, Text("communication-service"), Id(caseId), Id(tenant), 0, map[]);
    var es, ws := [mail], Writes(keepRaw, mail);
    var once := Fold(keepRaw, es, db);
    assert es[1..] == [];
    assert AllWrites(keepRaw, es) == ws;
    assert ws[|ws| - 1] == CountEmail(k, 0) && |ws| == if keepRaw then 3 else 2;
    assert CountFor(ws, k) == 1 by {
      CountLast(ws, k);
    }
    StreamReplayable(keepRaw, es);
    FoldIsApplyAll(keepRaw, es, db);
    FoldIsApplyAll(keepRaw, es, once);
    EmailsCounted(ws, db, k);
    EmailsCounted(ws, once, k);
  }

  lemma {:induction false} CountLast(ws: seq<Write>, k: Key)
    requires ws != [] && ws[|ws| - 1].CountEmail? && ws[|ws| - 1].key == k
    requires forall i :: 0 <= i < |ws| - 1 ==> ws[i].Upsert?
    ensures CountFor(ws, k) == 1
  {
    if |ws| > 1 {
      CountLast(ws[1..], k);
    }
  }

  predicate AllUpserts(ws: seq<Write>) {
    forall i :: 0 <= i < |ws| ==> ws[i].Upsert?
  }

  lemma {:induction false} OnlySentMailProjects(e: Event, tenant: Value, caseId: Value)
    requires e.kind != EmailSent
    ensures var ws := ProjectWrites(e, tenant, caseId); ws.Some? ==> AllUpserts(ws.value)
  {
    match e.kind
    case RunStarted =>
    case RunCompleted =>
    case _ =>
  }

  lemma {:induction false} OnlySentMailCounts(keepRaw: bool, e: Event)
    requires e.kind != EmailSent
    ensures AllReplayable(Writes(keepRaw, e)) && AllUpserts(Writes(keepRaw, e))
  {
    hide ProjectWrites;
    OnlySentMailProjects(e, AsId(e.tenant), CaseOf(e));
    ProjectWritesReplayable(e, AsId(e.tenant), CaseOf(e));
  }

  /** A stream that counts no email keeps the column out of the tables, so nothing needs scrubbing. */
  lemma {:induction false} NoEmailsNoScrub(keepRaw: bool, es: seq<Event>, db: Tables)
    requires Scrub(db) == db && forall e :: e in es ==> e.kind != EmailSent
    ensures Scrub(Fold(keepRaw, es, db)) == Fold(keepRaw, es, db)
  {
    if es != [] {
      hide Writes, ApplyAll;
      OnlySentMailCounts(keepRaw, es[0]);
      NoCountNoScrub(Writes(keepRaw, es[0]), db);
      NoEmailsNoScrub(keepRaw, es[1..], ApplyAll(Writes(keepRaw, es[0]), db));
    }
  }

  lemma {:induction false} NoCountNoScrub(ws: seq<Write>, db: Tables)
    requires Scrub(db) == db && AllReplayable(ws) && AllUpserts(ws)
    ensures Scrub(ApplyAll(ws, db)) == ApplyAll(ws, db)
  {
    if ws != [] {
      var next := Apply(ws[0], db);
      forall k | k in next ensures next[k] - {EmailsSent} == next[k] {
        if k in db {
          assert Scrub(db)[k] == db[k];
        }
      }
      assert Scrub(next) == next;
      NoCountNoScrub(ws[1..], next);
    }
  }
}
