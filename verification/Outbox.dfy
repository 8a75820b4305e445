/**
 The transactional outbox relay: rows committed with the state change are published in id order,
 the batch stops at the first failure, and the marks commit or roll back as one transaction.
 */
module Outbox {
  import opened Common

  datatype Row<E> = Row(event: E, published: bool, attempts: nat)

  /** What one `publish` does. A failed call may still have `reached` the broker;
      `Crashed` also loses the relay's transaction. */
  datatype Outcome = Delivered | Refused(reached: bool) | Crashed(reached: bool)

  function Events<E>(rows: seq<Row<E>>): (es: seq<E>)
    ensures |es| == |rows|
  {
    seq(|rows|, i requires 0 <= i < |rows| => rows[i].event)
  }

  /** Number of leading published rows. */
  function Marks<E>(rows: seq<Row<E>>): (m: nat)
    ensures m <= |rows|
  {
    if rows == [] || !rows[0].published then 0 else 1 + Marks(rows[1..])
  }

  /** The published rows are a prefix of the outbox. */
  ghost predicate PrefixMarked<E>(rows: seq<Row<E>>) {
    exists m :: MarkedUpTo(rows, m)
  }

  ghost predicate MarkedUpTo<E>(rows: seq<Row<E>>, m: int) {
    0 <= m <= |rows| && forall i :: 0 <= i < |rows| ==> (rows[i].published <==> i < m)
  }

  lemma {:induction false} MarksUnique<E>(rows: seq<Row<E>>, m: int)
    requires MarkedUpTo(rows, m)
    ensures Marks(rows) == m
  {
    if rows != [] && rows[0].published {
      assert MarkedUpTo(rows[1..], m - 1) by {
        forall i | 0 <= i < |rows| - 1 ensures rows[1..][i].published <==> i < m - 1 {
          assert rows[1..][i] == rows[i + 1];
        }
      }
      MarksUnique(rows[1..], m - 1);
    }
  }

  /** Unpublished row numbers from `from` on, in id order, at most `limit` of them. */
  function Select<E>(rows: seq<Row<E>>, from: nat, limit: nat): seq<nat>
    requires from <= |rows|
    decreases |rows| - from
  {
    if from == |rows| || limit == 0 then []
    else if rows[from].published then Select(rows, from + 1, limit)
    else [from] + Select(rows, from + 1, limit - 1)
  }

  lemma {:induction false} SelectIsRange<E>(rows: seq<Row<E>>, m: nat, from: nat, limit: nat)
    requires MarkedUpTo(rows, m) && from <= |rows|
    ensures var start := Max(m, from); var s := Select(rows, from, limit);
            |s| == Min(limit, |rows| - start) && forall i :: 0 <= i < |s| ==> s[i] == start + i
    decreases |rows| - from
  {
    if from < |rows| && limit > 0 {
      SelectIsRange(rows, m, from + 1, if rows[from].published then limit else limit - 1);
    }
  }

  // ---------- what one drain does ----------

  /** Publishes accepted before the first failure among the attempts `i .. n`. */
  function Accepted(outcomes: nat -> Outcome, i: nat, n: nat): (k: nat)
    ensures k <= n - i || k == 0
    ensures i + k < n ==> !outcomes(i + k).Delivered?
    decreases n - i
  {
    if i >= n || !outcomes(i).Delivered? then 0 else 1 + Accepted(outcomes, i + 1, n)
  }

  lemma {:induction false} AcceptedStep(outcomes: nat -> Outcome, i: nat, n: nat)
    ensures Accepted(outcomes, i, n) == if i >= n || !outcomes(i).Delivered? then 0
        else 1 + Accepted(outcomes, i + 1, n)
  {
  }

  function BatchOf<E>(rows: seq<Row<E>>, limit: nat): nat {
    Min(limit, |rows| - Marks(rows))
  }

  predicate StoppedEarly<E>(rows: seq<Row<E>>, limit: nat, outcomes: nat -> Outcome) {
    Accepted(outcomes, 0, BatchOf(rows, limit)) < BatchOf(rows, limit)
  }

  /** Records that reach the broker: the accepted ones and possibly the failing one. */
  function Reached<E>(rows: seq<Row<E>>, limit: nat, outcomes: nat -> Outcome): (n: nat)
    ensures n <= |rows| - Marks(rows)
  {
    var k := Accepted(outcomes, 0, BatchOf(rows, limit));
    k + if StoppedEarly(rows, limit, outcomes) && outcomes(k).reached then 1 else 0
  }

  predicate Commits<E>(rows: seq<Row<E>>, limit: nat, outcomes: nat -> Outcome, commit: bool) {
    commit && !(StoppedEarly(rows, limit, outcomes) && outcomes(Accepted(outcomes, 0, BatchOf(rows, limit))).Crashed?)
  }

  function Sent<E>(rows: seq<Row<E>>, limit: nat, outcomes: nat -> Outcome): seq<E> {
    Events(rows)[Marks(rows)..Marks(rows) + Reached(rows, limit, outcomes)]
  }

  /** Row `i` after a committed drain that accepted `k` of the rows from `m` on. */
  function After<E>(row: Row<E>, i: int, m: nat, k: nat, refused: bool): Row<E> {
    if m <= i < m + k then Row(row.event, true, row.attempts + 1)
    else if i == m + k && refused then row.(attempts := row.attempts + 1)
    else row
  }

  function Drained<E>(rows: seq<Row<E>>, limit: nat, outcomes: nat -> Outcome, commit: bool): (r: seq<Row<E>>)
    ensures |r| == |rows|
    ensures !Commits(rows, limit, outcomes, commit) ==> r == rows
  {
    if !Commits(rows, limit, outcomes, commit) then rows
    else
      var m, k := Marks(rows), Accepted(outcomes, 0, BatchOf(rows, limit));
      var refused := StoppedEarly(rows, limit, outcomes);
      seq(|rows|, i requires 0 <= i < |rows| => After(rows[i], i, m, k, refused))
  }

  /** A drain keeps the events, keeps the marks a prefix, and marks only what it published. */
  lemma {:induction false} DrainKeepsPrefix<E>(rows: seq<Row<E>>, limit: nat, outcomes: nat -> Outcome, commit: bool)
    requires PrefixMarked(rows)
    ensures var r := Drained(rows, limit, outcomes, commit);
            PrefixMarked(r) && Events(r) == Events(rows)
            && Marks(r) == Marks(rows) + (if Commits(rows, limit, outcomes, commit)
                                          then Accepted(outcomes, 0, BatchOf(rows, limit)) else 0)
            && Marks(r) <= Marks(rows) + Reached(rows, limit, outcomes)
  {
    var m :| MarkedUpTo(rows, m);
    MarksUnique(rows, m);
    if Commits(rows, limit, outcomes, commit) {
      var r, k := Drained(rows, limit, outcomes, commit), Accepted(outcomes, 0, BatchOf(rows, limit));
      assert MarkedUpTo(r, m + k);
      MarksUnique(r, m + k);
      assert Events(r) == Events(rows);
    }
  }

  /** The first `k` outcomes of the batch are deliveries, and no more. */
  predicate FirstFailure(outcomes: nat -> Outcome, k: nat, batch: nat) {
    && k <= batch && (k < batch ==> !outcomes(k).Delivered?)
    && forall i :: 0 <= i < k ==> outcomes(i).Delivered?
  }

  lemma {:induction false} AcceptedIsFirstFailure(outcomes: nat -> Outcome, i: nat, k: nat, batch: nat)
    requires FirstFailure(outcomes, k, batch) && i <= k
    ensures Accepted(outcomes, i, batch) == k - i
    decreases k - i
  {
    if i < k {
      AcceptedIsFirstFailure(outcomes, i + 1, k, batch);
    }
  }

  lemma {:induction false} DrainTerms<E>(
      rows: seq<Row<E>>, limit: nat, outcomes: nat -> Outcome, commit: bool, m: nat, k: nat)
    requires MarkedUpTo(rows, m) && FirstFailure(outcomes, k, Min(limit, |rows| - m))
    ensures Marks(rows) == m && Accepted(outcomes, 0, BatchOf(rows, limit)) == k
    ensures StoppedEarly(rows, limit, outcomes) <==> k < Min(limit, |rows| - m)
    ensures Commits(rows, limit, outcomes, commit) <==> commit && (k == Min(limit, |rows| - m) || outcomes(k).Refused?)
  {
    MarksUnique(rows, m);
    AcceptedIsFirstFailure(outcomes, 0, k, Min(limit, |rows| - m));
    hide Accepted, Marks;
  }

  /** A drain on the outcomes alone: with the first `m` rows marked and `k` deliveries before the first
      failure, rows m .. m + k go to the log, and the failing one too if the broker got it. If the
      transaction commits and the failure, if any, is a refusal, exactly those k rows are marked and the
      attempts of every row tried go up by one; otherwise the table is untouched. */
  lemma {:induction false} DrainExactly<E>(
      rows: seq<Row<E>>, limit: nat, outcomes: nat -> Outcome, commit: bool, m: nat, k: nat)
    requires MarkedUpTo(rows, m) && FirstFailure(outcomes, k, Min(limit, |rows| - m))
    ensures var batch, r := Min(limit, |rows| - m), Drained(rows, limit, outcomes, commit);
            var done := commit && (k == batch || outcomes(k).Refused?);
            && |r| == |rows| && (Commits(rows, limit, outcomes, commit) <==> done)
            && Accepted(outcomes, 0, BatchOf(rows, limit)) == k
            && (!done ==> r == rows)
            && (done ==> MarkedUpTo(r, m + k) && Marks(r) == m + k)
            && (forall i :: 0 <= i < |rows| ==>
                  && r[i].event == rows[i].event
                  && r[i].attempts == rows[i].attempts + (if done && m <= i < m + Min(k + 1, batch) then 1 else 0))
            && (batch > 0 ==> (r == rows <==> !commit || (k < batch && outcomes(k).Crashed?)))
    ensures var reached := k < Min(limit, |rows| - m) && outcomes(k).reached;
            Sent(rows, limit, outcomes) == Events(rows)[m..m + k + if reached then 1 else 0]
  {
    DrainTerms(rows, limit, outcomes, commit, m, k);
    hide Accepted, Marks, StoppedEarly, Commits, BatchOf, Events, FirstFailure;
    var r := Drained(rows, limit, outcomes, commit);
    if Commits(rows, limit, outcomes, commit) {
      assert MarkedUpTo(r, m + k);
      MarksUnique(r, m + k);
      if Min(limit, |rows| - m) > 0 {
        assert r[m].attempts == rows[m].attempts + 1;
      }
    }
  }

  lemma {:induction false} SentStep<E>(rows: seq<Row<E>>, a: nat, b: nat)
    requires a <= b < |rows|
    ensures Events(rows)[a..b] + [rows[b].event] == Events(rows)[a..b + 1]
  {
  }

  /** A log after the events of rows `a .. b` were appended. */
  function Logged<E>(log: seq<E>, rows: seq<Row<E>>, a: nat, b: nat): seq<E>
    requires a <= b <= |rows|
  {
    log + Events(rows)[a..b]
  }

  lemma {:induction false} LogStart<E>(log: seq<E>, rows: seq<Row<E>>, a: nat)
    requires a <= |rows|
    ensures log == Logged(log, rows, a, a)
  {
  }

  lemma {:induction false} LogStep<E>(log: seq<E>, rows: seq<Row<E>>, a: nat, b: nat)
    requires a <= b < |rows|
    ensures Logged(log, rows, a, b) + [rows[b].event] == Logged(log, rows, a, b + 1)
  {
    SentStep(rows, a, b);
    AppendAssociates(log, Events(rows)[a..b], [rows[b].event]);
  }

  lemma {:induction false} SessionIsDrained<E>(
      rows: seq<Row<E>>, session: seq<Row<E>>, limit: nat, outcomes: nat -> Outcome)
    requires |session| == |rows| && Commits(rows, limit, outcomes, true)
    requires forall i :: 0 <= i < |rows| ==>
               session[i] == After(rows[i], i, Marks(rows), Accepted(outcomes, 0, BatchOf(rows, limit)),
                                   StoppedEarly(rows, limit, outcomes))
    ensures session == Drained(rows, limit, outcomes, true)
  {
  }

  /** The session copy after `k` rows from `m` on were published. */
  ghost predicate Copied<E>(rows: seq<Row<E>>, session: seq<Row<E>>, m: nat, k: nat) {
    |session| == |rows| && forall i :: 0 <= i < |session| ==> session[i] == After(rows[i], i, m, k, false)
  }

  lemma {:induction false} CopiedNone<E>(rows: seq<Row<E>>, m: nat)
    ensures Copied(rows, rows, m, 0)
  {
  }

  lemma {:induction false} CopiedNext<E>(rows: seq<Row<E>>, session: seq<Row<E>>, m: nat, k: nat)
    requires Copied(rows, session, m, k) && m + k < |session|
    ensures Copied(rows, session[m + k := Row(session[m + k].event, true, session[m + k].attempts + 1)], m, k + 1)
  {
  }

  class OutboxRelay<E> {
    const batchSize: nat
    var rows: seq<Row<E>>
    var log: seq<E>

    ghost predicate Valid() reads this {
      PrefixMarked(rows)
    }

    constructor (batchSize: nat)
      ensures Valid() && rows == [] && log == [] && this.batchSize == batchSize
    {
      this.batchSize := batchSize;
      rows, log := [], [];
      new;
      assert MarkedUpTo(rows, 0);
    }

    /** `enqueue_event` followed by the commit of its transaction. */
    method Enqueue(event: E)
      requires Valid()
      modifies this`rows
      ensures Valid() && rows == old(rows) + [Row(event, false, 0)] && Marks(rows) == Marks(old(rows))
    {
      ghost var m :| MarkedUpTo(rows, m);
      MarksUnique(rows, m);
      rows := rows + [Row(event, false, 0)];
      assert MarkedUpTo(rows, m);
      MarksUnique(rows, m);
    }

    /** The batch loop: publishes `selected` in order up to the first failure, marking the rows in a
        session copy of the table. */
    method PublishSelected(selected: seq<nat>, outcomes: nat -> Outcome, ghost m: nat)
      returns (session: seq<Row<E>>, k: nat)
      requires |selected| <= |rows| - m
      requires forall i :: 0 <= i < |selected| ==> selected[i] == m + i
      modifies this`log
      ensures k == Accepted(outcomes, 0, |selected|)
      ensures log == Logged(old(log), rows, m, m + k)
      ensures Copied(rows, session, m, k)
    {
      hide Events, Copied, Logged, Accepted;
      CopiedNone(rows, m);
      LogStart(log, rows, m);
      session := rows;
      k := 0;
      while k < |selected| && outcomes(k).Delivered?
        invariant 0 <= k <= |selected|
        invariant k + Accepted(outcomes, k, |selected|) == Accepted(outcomes, 0, |selected|)
        invariant log == Logged(old(log), rows, m, m + k)
        invariant |session| == |rows| && Copied(rows, session, m, k)
      {
        var id := selected[k];
        AcceptedStep(outcomes, k, |selected|);
        LogStep(old(log), rows, m, m + k);
        CopiedNext(rows, session, m, k);
        log := log + [rows[id].event];
        session := session[id := Row(session[id].event, true, session[id].attempts + 1)];
        k := k + 1;
      }
      AcceptedStep(outcomes, k, |selected|);
    }

    /** Publishes one batch. None is the exception of a transaction that did not commit. */
    method DrainOnce(outcomes: nat -> Outcome, commit: bool) returns (published: Option<nat>)
      requires Valid()
      modifies this`rows, this`log
      ensures Valid()
      ensures rows == Drained(old(rows), batchSize, outcomes, commit)
      ensures log == old(log) + Sent(old(rows), batchSize, outcomes)
      ensures published == if Commits(old(rows), batchSize, outcomes, commit)
                           then Some(Accepted(outcomes, 0, BatchOf(old(rows), batchSize))) else None
    {
      hide Events, Drained, Marks, Accepted;
      ghost var m :| MarkedUpTo(rows, m);
      MarksUnique(rows, m);
      SelectIsRange(rows, m, 0, batchSize);
      DrainKeepsPrefix(rows, batchSize, outcomes, commit);
      var selected := Select(rows, 0, batchSize);
      var session, k := PublishSelected(selected, outcomes, m);
      var early := k < |selected|;
      if early {
        var id := selected[k];
        SentStep(rows, m, m + k);
        if outcomes(k).reached {
          log := log + [rows[id].event];
        }
        session := session[id := session[id].(attempts := session[id].attempts + 1)];
      }
      assert log == old(log) + Sent(rows, batchSize, outcomes);
      if !commit || (early && outcomes(k).Crashed?) {
        return None;
      }
      SessionIsDrained(rows, session, batchSize, outcomes);
      rows := session;
      return Some(k);
    }
  }
}
