/**
 The whole pipeline, outbox -> relay -> log -> consumer -> tables, as one transition system over
 arbitrary schedules of enqueues, drains (with publish failures, crashes and rollbacks) and
 consumer batches (with redelivery from the last committed offset).
 */
module Delivery {
  import opened Common
  import opened Projector
  import opened Replay
  import opened Outbox
  import opened Consumer

  datatype Pipeline = Pipeline(rows: seq<Outbox.Row<Event>>, log: seq<Event>, tables: Tables, committed: nat)

  datatype Step =
    | Enqueue(event: Event)
    | Drain(outcomes: nat -> Outcome, commit: bool)
    | Consume(records: nat, dies: bool)

  datatype Config = Config(keepRaw: bool, batchSize: nat)

  const EMPTY := Pipeline([], [], map[], 0)

  /** `event_id` is unique in the outbox, so a second insert of the same id fails. */
  predicate KnownId(rows: seq<Outbox.Row<Event>>, e: Event) {
    exists i :: 0 <= i < |rows| && rows[i].event.id == e.id
  }

  function Next(cfg: Config, s: Pipeline, step: Step): Pipeline
    requires s.committed <= |s.log|
  {
    match step
    case Enqueue(e) =>
      if KnownId(s.rows, e) then s else s.(rows := s.rows + [Outbox.Row(e, false, 0)])
    case Drain(outcomes, commit) =>
      s.(rows := Drained(s.rows, cfg.batchSize, outcomes, commit),
         log := s.log + Sent(s.rows, cfg.batchSize, outcomes))
    case Consume(records, dies) =>
      var n := BatchSize(|s.log|, s.committed, records);
      s.(tables := Fold(cfg.keepRaw, s.log[s.committed..s.committed + n], s.tables),
         committed := if dies then s.committed else s.committed + n)
  }

  function Run(cfg: Config, s: Pipeline, steps: seq<Step>): (r: Pipeline)
    requires s.committed <= |s.log|
    ensures r.committed <= |r.log|
    decreases |steps|
  {
    if steps == [] then s else Run(cfg, Next(cfg, s, steps[0]), steps[1..])
  }

  /** Keeps the first occurrence of every event. */
  function Dedup(log: seq<Event>): seq<Event> {
    if log == [] then []
    else
      var d, last := Dedup(log[..|log| - 1]), log[|log| - 1];
      if last in d then d else d + [last]
  }

  function View(cfg: Config, es: seq<Event>, from: Tables): Tables {
    Scrub(Fold(cfg.keepRaw, es, from))
  }

  ghost predicate DistinctIds(rows: seq<Outbox.Row<Event>>) {
    forall i, j :: 0 <= i < j < |rows| ==> rows[i].event.id != rows[j].event.id
  }

  /** `reach` rows have been seen by the broker at least once. */
  ghost predicate LogReaches(s: Pipeline, reach: int) {
    Marks(s.rows) <= reach <= |s.rows| && Dedup(s.log) == Events(s.rows)[..reach]
  }

  /** Publishing the unmarked rows after the log, or handling the uncommitted records after the
      tables, would each end where a single pass ends. */
  ghost predicate Invariant(cfg: Config, s: Pipeline) {
    && s.committed <= |s.log|
    && PrefixMarked(s.rows) && DistinctIds(s.rows)
    && (exists reach :: LogReaches(s, reach))
    && View(cfg, Events(s.rows)[Marks(s.rows)..], Fold(cfg.keepRaw, s.log, map[])) == View(cfg, Events(s.rows), map[])
    && View(cfg, s.log[s.committed..], s.tables) == View(cfg, s.log, map[])
  }

  // ---------- relay order ----------

  lemma {:induction false} DedupSnoc(log: seq<Event>, e: Event)
    ensures Dedup(log + [e]) == if e in Dedup(log) then Dedup(log) else Dedup(log) + [e]
  {
    assert (log + [e])[..|log|] == log;
  }

  lemma {:induction false} SliceSnoc<T>(log: seq<T>, es: seq<T>, a: nat, b: nat)
    requires a <= b < |es|
    ensures log + es[a..b + 1] == (log + es[a..b]) + [es[b]] && es[..b + 1] == es[..b] + [es[b]]
  {
  }

  lemma {:induction false} DedupSlice(log: seq<Event>, es: seq<Event>, reach: nat, a: nat, b: nat)
    requires forall i, j :: 0 <= i < j < |es| ==> es[i] != es[j]
    requires a <= reach <= |es| && a <= b <= |es| && Dedup(log) == es[..reach]
    ensures Dedup(log + es[a..b]) == es[..Max(reach, b)]
    decreases b
  {
    hide Dedup;
    if a == b {
      assert log + es[a..b] == log;
    } else {
      DedupSlice(log, es, reach, a, b - 1);
      SliceSnoc(log, es, a, b - 1);
      DedupSnoc(log + es[a..b - 1], es[b - 1]);
      if b - 1 < reach {
        assert es[..reach][b - 1] == es[b - 1];
      }
    }
  }

  lemma {:induction false} DedupKeepsAll(log: seq<Event>, e: Event)
    ensures e in Dedup(log) <==> e in log
  {
    if log != [] {
      DedupKeepsAll(log[..|log| - 1], e);
      assert log == log[..|log| - 1] + [log[|log| - 1]];
    }
  }

  // ---------- every step keeps the invariant ----------

  /** A new row is caught up with by publishing it last. */
  lemma {:induction false} EnqueueCatchesUp(cfg: Config, es: seq<Event>, e: Event, m: nat, start: Tables)
    requires m <= |es| && View(cfg, es[m..], start) == View(cfg, es, map[])
    ensures View(cfg, (es + [e])[m..], start) == View(cfg, es + [e], map[])
  {
    hide Fold;
    assert (es + [e])[m..] == es[m..] + [e];
    FoldConcat(cfg.keepRaw, es[m..], [e], start);
    FoldConcat(cfg.keepRaw, es, [e], map[]);
    ScrubCongruence(cfg.keepRaw, [e], Fold(cfg.keepRaw, es[m..], start), Fold(cfg.keepRaw, es, map[]));
  }

  lemma {:induction false} NewRowMarks(rows: seq<Outbox.Row<Event>>, e: Event)
    requires PrefixMarked(rows)
    ensures var more := rows + [Outbox.Row(e, false, 0)];
            PrefixMarked(more) && Marks(more) == Marks(rows) && Events(more) == Events(rows) + [e]
  {
    var more := rows + [Outbox.Row(e, false, 0)];
    var m :| MarkedUpTo(rows, m);
    MarksUnique(rows, m);
    assert MarkedUpTo(more, m);
    MarksUnique(more, m);
  }

  lemma {:induction false} EnqueueKeeps(cfg: Config, s: Pipeline, e: Event)
    requires Invariant(cfg, s) && !KnownId(s.rows, e)
    ensures Invariant(cfg, Next(cfg, s, Enqueue(e)))
  {
    hide Fold, View, Marks, PrefixMarked, Events, Dedup;
    NewRowMarks(s.rows, e);
    EnqueueCatchesUp(cfg, Events(s.rows), e, Marks(s.rows), Fold(cfg.keepRaw, s.log, map[]));
    var reach :| LogReaches(s, reach);
    assert (Events(s.rows) + [e])[..reach] == Events(s.rows)[..reach];
    assert LogReaches(Next(cfg, s, Enqueue(e)), reach);
  }

  lemma {:induction false} DistinctEvents(rows: seq<Outbox.Row<Event>>, es: seq<Event>)
    requires DistinctIds(rows) && es == Events(rows)
    ensures forall i, j :: 0 <= i < j < |es| ==> es[i] != es[j]
  {
    forall i, j | 0 <= i < j < |es| ensures es[i] != es[j] {
      assert rows[i].event.id != rows[j].event.id;
    }
  }

  lemma {:induction false} SameEventsDistinct(rows: seq<Outbox.Row<Event>>, rows': seq<Outbox.Row<Event>>)
    requires DistinctIds(rows) && Events(rows') == Events(rows)
    ensures DistinctIds(rows')
  {
    forall i, j | 0 <= i < j < |rows'| ensures rows'[i].event.id != rows'[j].event.id {
      assert Events(rows')[i] == Events(rows)[i] && Events(rows')[j] == Events(rows)[j];
      assert rows[i].event.id != rows[j].event.id;
    }
  }

  /** Appending to the log keeps a consumer that was on course on course. */
  lemma {:induction false} AppendKeepsConsumer(
      cfg: Config, log: seq<Event>, more: seq<Event>, committed: nat, db: Tables)
    requires committed <= |log| && View(cfg, log[committed..], db) == View(cfg, log, map[])
    ensures View(cfg, (log + more)[committed..], db) == View(cfg, log + more, map[])
  {
    hide Fold;
    var rest := log[committed..];
    assert (log + more)[committed..] == rest + more;
    FoldConcat(cfg.keepRaw, rest, more, db);
    FoldConcat(cfg.keepRaw, log, more, map[]);
    ScrubCongruence(cfg.keepRaw, more, Fold(cfg.keepRaw, rest, db), Fold(cfg.keepRaw, log, map[]));
  }

  lemma {:induction false} DrainKeeps(cfg: Config, s: Pipeline, outcomes: nat -> Outcome, commit: bool)
    requires Invariant(cfg, s)
    ensures Invariant(cfg, Next(cfg, s, Drain(outcomes, commit)))
  {
    hide Fold, View, Drained, Events, Dedup, DistinctIds, PrefixMarked, Marks, Reached;
    var t := Next(cfg, s, Drain(outcomes, commit));
    DrainKeepsPrefix(s.rows, cfg.batchSize, outcomes, commit);
    var es, m, m' := Events(s.rows), Marks(s.rows), Marks(t.rows);
    var b := m + Reached(s.rows, cfg.batchSize, outcomes);
    DistinctEvents(s.rows, es);
    SameEventsDistinct(s.rows, t.rows);
    var reach :| LogReaches(s, reach);
    DedupSlice(s.log, es, reach, m, b);
    assert LogReaches(t, Max(reach, b));
    DrainCatchesUp(cfg, s, es, m, m', b);
    AppendKeepsConsumer(cfg, s.log, es[m..b], s.committed, s.tables);
  }

  /** Publishing `es[m..b]` but marking only up to `m'`: what is left still ends at the single pass. */
  lemma {:induction false} DrainCatchesUp(cfg: Config, s: Pipeline, es: seq<Event>, m: nat, m': nat, b: nat)
    requires m <= m' <= b <= |es|
    requires View(cfg, es[m..], Fold(cfg.keepRaw, s.log, map[])) == View(cfg, es, map[])
    ensures View(cfg, es[m'..], Fold(cfg.keepRaw, s.log + es[m..b], map[])) == View(cfg, es, map[])
  {
    hide Fold;
    var start := Fold(cfg.keepRaw, s.log, map[]);
    FoldConcat(cfg.keepRaw, s.log, es[m..b], map[]);
    var marked, again, rest := es[m..m'], es[m'..b], es[b..];
    assert es[m..b] == marked + again;
    assert es[m'..] == again + rest;
    assert es[m..] == marked + es[m'..];
    FoldConcat(cfg.keepRaw, marked, again, start);
    FoldConcat(cfg.keepRaw, marked, es[m'..], start);
    PrefixAbsorption(cfg.keepRaw, again, rest, Fold(cfg.keepRaw, marked, start));
  }

  lemma {:induction false} ConsumeKeeps(cfg: Config, s: Pipeline, records: nat, dies: bool)
    requires Invariant(cfg, s)
    ensures Invariant(cfg, Next(cfg, s, Consume(records, dies)))
  {
    hide Fold;
    var n := BatchSize(|s.log|, s.committed, records);
    var batch, rest := s.log[s.committed..s.committed + n], s.log[s.committed + n..];
    SplitRest(s.log, s.committed, n);
    FoldConcat(cfg.keepRaw, batch, rest, s.tables);
    PrefixAbsorption(cfg.keepRaw, batch, rest, s.tables);
    var reach :| LogReaches(s, reach);
    assert LogReaches(Next(cfg, s, Consume(records, dies)), reach);
  }

  lemma {:induction false} SplitRest<T>(s: seq<T>, a: nat, n: nat)
    requires a + n <= |s|
    ensures s[a..] == s[a..a + n] + s[a + n..]
  {
  }

  lemma {:induction false} StepKeeps(cfg: Config, s: Pipeline, step: Step)
    requires Invariant(cfg, s)
    ensures Invariant(cfg, Next(cfg, s, step))
  {
    match step
    case Enqueue(e) => if !KnownId(s.rows, e) { EnqueueKeeps(cfg, s, e); }
    case Drain(outcomes, commit) => DrainKeeps(cfg, s, outcomes, commit);
    case Consume(records, dies) => ConsumeKeeps(cfg, s, records, dies);
  }

  lemma {:induction false} RunKeeps(cfg: Config, s: Pipeline, steps: seq<Step>)
    requires Invariant(cfg, s)
    ensures Invariant(cfg, Run(cfg, s, steps))
    decreases |steps|
  {
    if steps != [] {
      StepKeeps(cfg, s, steps[0]);
      RunKeeps(cfg, Next(cfg, s, steps[0]), steps[1..]);
    }
  }

  lemma {:induction false} ReachableInvariant(cfg: Config, steps: seq<Step>)
    ensures Invariant(cfg, Run(cfg, EMPTY, steps))
  {
    assert MarkedUpTo(EMPTY.rows, 0);
    assert LogReaches(EMPTY, 0);
    RunKeeps(cfg, EMPTY, steps);
  }

  // ---------- main results ----------

  /** In every reachable state the marks are a prefix of the outbox, and the log without repeats is
      a prefix of the outbox in id order that holds every marked row. */
  lemma {:induction false} RelayOrder(cfg: Config, steps: seq<Step>)
    ensures var s := Run(cfg, EMPTY, steps);
            && PrefixMarked(s.rows)
            && Dedup(s.log) <= Events(s.rows)
            && forall i :: 0 <= i < |s.rows| && s.rows[i].published ==> s.rows[i].event in s.log
  {
    ReachableInvariant(cfg, steps);
    var s := Run(cfg, EMPTY, steps);
    var reach :| LogReaches(s, reach);
    var m :| MarkedUpTo(s.rows, m);
    MarksUnique(s.rows, m);
    forall i | 0 <= i < |s.rows| && s.rows[i].published ensures s.rows[i].event in s.log {
      assert Events(s.rows)[..reach][i] == s.rows[i].event;
      DedupKeepsAll(s.log, s.rows[i].event);
    }
  }

  predicate Quiescent(s: Pipeline) {
    Marks(s.rows) == |s.rows| && s.committed == |s.log|
  }

  /** Once everything is marked and consumed, the tables are those of one pass over the outbox,
      whatever was published twice or redelivered; `emails_sent` is left out of the comparison. */
  lemma {:induction false} Convergence(cfg: Config, steps: seq<Step>)
    requires Quiescent(Run(cfg, EMPTY, steps))
    ensures var s := Run(cfg, EMPTY, steps);
            Scrub(s.tables) == Scrub(Fold(cfg.keepRaw, Events(s.rows), map[]))
  {
    ReachableInvariant(cfg, steps);
    var s := Run(cfg, EMPTY, steps);
    assert s.log[s.committed..] == [] && Events(s.rows)[Marks(s.rows)..] == [];
  }

  /** On a stream without outgoing emails, such as the case service's, the tables are equal outright. */
  lemma {:induction false} ConvergenceExact(cfg: Config, steps: seq<Step>)
    requires Quiescent(Run(cfg, EMPTY, steps))
    requires forall i :: 0 <= i < |steps| && steps[i].Enqueue? ==> steps[i].event.kind != EmailSent
    ensures var s := Run(cfg, EMPTY, steps); s.tables == Fold(cfg.keepRaw, Events(s.rows), map[])
  {
    Convergence(cfg, steps);
    assert NoEmails(EMPTY) by { assert Scrub(EMPTY.tables) == EMPTY.tables; }
    NoEmailsInRun(cfg, EMPTY, steps);
    var s := Run(cfg, EMPTY, steps);
    assert Scrub(map[]) == map[];
    NoEmailsNoScrub(cfg.keepRaw, Events(s.rows), map[]);
  }

  ghost predicate NoEmails(s: Pipeline) {
    && (forall i :: 0 <= i < |s.rows| ==> s.rows[i].event.kind != EmailSent)
    && (forall i :: 0 <= i < |s.log| ==> s.log[i].kind != EmailSent)
    && Scrub(s.tables) == s.tables
  }

  lemma {:induction false} NoEmailsInRun(cfg: Config, s: Pipeline, steps: seq<Step>)
    requires s.committed <= |s.log| && NoEmails(s)
    requires forall i :: 0 <= i < |steps| && steps[i].Enqueue? ==> steps[i].event.kind != EmailSent
    ensures NoEmails(Run(cfg, s, steps))
    decreases |steps|
  {
    hide Fold;
    if steps != [] {
      if steps[0].Consume? {
        var n := BatchSize(|s.log|, s.committed, steps[0].records);
        NoEmailsNoScrub(cfg.keepRaw, s.log[s.committed..s.committed + n], s.tables);
      }
      NoEmailsInRun(cfg, Next(cfg, s, steps[0]), steps[1..]);
    }
  }
}
