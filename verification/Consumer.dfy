/**
 The Kafka consumer loop: fetch a batch from the last committed offset, run the handler on every
 record, then commit the offset. Dying before the commit means the batch comes back.
 */
module Consumer {
  import opened Common
  import opened Projector

  const MAX_RECORDS: nat := 50

  function BatchSize(available: nat, committed: nat, records: nat): nat
    requires committed <= available
  {
    Min(Min(records, MAX_RECORDS), available - committed)
  }

  /** A batch is at most 50 records and at most what was asked for, and stops short only at the end of the log. */
  lemma {:induction false} BatchExactly(available: nat, committed: nat, records: nat)
    requires committed <= available
    ensures var n := BatchSize(available, committed, records);
            && n <= 50 && n <= records && committed + n <= available
            && (n == 50 || n == records || committed + n == available)
  {
  }

  /** The events of the records that decode. */
  function Decoded(records: seq<Option<Event>>): seq<Event> {
    if records == [] then []
    else if records[0].Some? then [records[0].value] + Decoded(records[1..])
    else Decoded(records[1..])
  }

  lemma {:induction false} DecodedSnoc(records: seq<Option<Event>>, last: Option<Event>)
    ensures Decoded(records + [last]) == if last.Some? then Decoded(records) + [last.value] else Decoded(records)
  {
    if records == [] {
      assert ([] + [last])[1..] == [];
    } else {
      assert (records + [last])[1..] == records[1..] + [last];
      DecodedSnoc(records[1..], last);
    }
  }

  /** The tables after the records `a .. b` were handled. */
  function Handled(keepRaw: bool, log: seq<Option<Event>>, a: nat, b: nat, from: Tables): Tables
    requires a <= b <= |log|
  {
    Fold(keepRaw, Decoded(log[a..b]), from)
  }

  lemma {:induction false} HandledNone(keepRaw: bool, log: seq<Option<Event>>, a: nat, from: Tables)
    requires a <= |log|
    ensures Handled(keepRaw, log, a, a, from) == from
  {
    FoldEmpty(keepRaw, from);
  }

  lemma {:induction false} HandledNext(keepRaw: bool, log: seq<Option<Event>>, a: nat, b: nat, from: Tables)
    requires a <= b < |log|
    ensures Handled(keepRaw, log, a, b + 1, from)
         == var before := Handled(keepRaw, log, a, b, from);
            if log[b].Some? then Fold(keepRaw, [log[b].value], before) else before
  {
    hide Fold, Decoded;
    assert log[a..b + 1] == log[a..b] + [log[b]];
    DecodedSnoc(log[a..b], log[b]);
    if log[b].Some? {
      FoldConcat(keepRaw, Decoded(log[a..b]), [log[b].value], from);
    }
  }

  class KafkaConsumerLoop {
    const projector: Projector
    var committed: nat

    constructor (projector: Projector)
      ensures this.projector == projector && committed == 0
    {
      this.projector := projector;
      committed := 0;
    }

    /** One turn of the loop on a partition holding `log`, where None is a record that does not decode and is
        skipped; `dies` after handling the records, before the commit. */
    method RunBatch(log: seq<Option<Event>>, records: nat, dies: bool)
      requires committed <= |log| && projector as object != this
      modifies this`committed, projector
      ensures var n := BatchSize(|log|, old(committed), records);
              && projector.tables == Handled(projector.keepRaw, log, old(committed), old(committed) + n,
                  old(projector.tables))
              && committed == if dies then old(committed) else old(committed) + n
    {
      hide Handled;
      var n := BatchSize(|log|, committed, records);
      var i := 0;
      HandledNone(projector.keepRaw, log, committed, projector.tables);
      while i < n
        invariant 0 <= i <= n && committed == old(committed)
        invariant projector.tables == Handled(projector.keepRaw, log, committed, committed + i, old(projector.tables))
      {
        var record := log[committed + i];
        HandledNext(projector.keepRaw, log, committed, committed + i, old(projector.tables));
        if record.Some? {
          projector.Handle(record.value);
        }
        i := i + 1;
      }
      if !dies {
        committed := committed + n;
      }
    }
  }
}
