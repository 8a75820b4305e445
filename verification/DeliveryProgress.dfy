/** The pipeline gets somewhere: whatever has happened, a broker that accepts and a consumer that lives finish the
    work, and nothing but a new event ever adds a row. */
module DeliveryProgress {
  import opened Common
  import opened Projector
  import opened Outbox
  import opened Consumer
  import opened Delivery
  import Replay

  /** An event is taken into the outbox, unmarked and untried, exactly if no row has its id. */
  lemma {:induction false} EnqueueIff(cfg: Config, s: Pipeline, e: Event)
    requires s.committed <= |s.log|
    ensures var known := exists i :: 0 <= i < |s.rows| && s.rows[i].event.id == e.id;
            Next(cfg, s, Enqueue(e))
            == if known then s else Pipeline(s.rows + [Outbox.Row(e, false, 0)], s.log, s.tables, s.committed)
  {
  }

  lemma {:induction false} RunConcat(cfg: Config, s: Pipeline, a: seq<Step>, b: seq<Step>)
    requires s.committed <= |s.log|
    ensures Run(cfg, s, a + b) == Run(cfg, Run(cfg, s, a), b)
    decreases |a|
  {
    if a == [] {
      assert a + b == b;
    } else {
      assert (a + b)[1..] == a[1..] + b;
      RunConcat(cfg, Next(cfg, s, a[0]), a[1..], b);
    }
  }

  /** One drain on a broker that accepts everything. */
  function Publish(): Step {
    Drain((i: nat) => Delivered, true)
  }

  /** It publishes and marks the next rows, as many as a batch holds. */
  lemma {:induction false} PublishRound(cfg: Config, s: Pipeline, m: nat)
    requires s.committed <= |s.log| && MarkedUpTo(s.rows, m)
    ensures var n, t := Min(cfg.batchSize, |s.rows| - m), Next(cfg, s, Publish());
            && |t.rows| == |s.rows| && MarkedUpTo(t.rows, m + n) && Events(t.rows) == Events(s.rows)
            && t == s.(rows := t.rows, log := s.log + Events(s.rows)[m..m + n])
  {
    var n, outcomes := Min(cfg.batchSize, |s.rows| - m), (i: nat) => Delivered;
    var t := Next(cfg, s, Publish());
    DrainExactly(s.rows, cfg.batchSize, outcomes, true, m, n);
    assert t.rows == Drained(s.rows, cfg.batchSize, outcomes, true);
    assert Events(t.rows) == Events(s.rows);
  }

  lemma {:induction false} PublishAll(cfg: Config, s: Pipeline, m: nat) returns (steps: seq<Step>)
    requires cfg.batchSize > 0 && s.committed <= |s.log| && MarkedUpTo(s.rows, m)
    ensures var t := Run(cfg, s, steps);
            MarkedUpTo(t.rows, |t.rows|) && Events(t.rows) == Events(s.rows) && t.committed == s.committed
    decreases |s.rows| - m
  {
    hide Events, Next, Publish;
    steps := [];
    if m < |s.rows| {
      PublishRound(cfg, s, m);
      var more := PublishAll(cfg, Next(cfg, s, Publish()), m + Min(cfg.batchSize, |s.rows| - m));
      steps := [Publish()] + more;
      assert steps[1..] == more;
    }
  }

  lemma {:induction false} ConsumeAll(cfg: Config, s: Pipeline) returns (steps: seq<Step>)
    requires s.committed <= |s.log|
    ensures var t := Run(cfg, s, steps); t.rows == s.rows && t.log == s.log && t.committed == |t.log|
    decreases |s.log| - s.committed
  {
    hide Fold;
    steps := [];
    if s.committed < |s.log| {
      BatchExactly(|s.log|, s.committed, 1);
      var more := ConsumeAll(cfg, Next(cfg, s, Consume(1, false)));
      steps := [Consume(1, false)] + more;
      assert steps[1..] == more;
    }
  }

  /** From every reachable state the pipeline can be drained, without touching what is in the outbox; then the tables
      are those of one pass over it. */
  lemma {:induction false} CanAlwaysDrain(cfg: Config, steps: seq<Step>) returns (more: seq<Step>)
    requires cfg.batchSize > 0
    ensures var s, t := Run(cfg, EMPTY, steps), Run(cfg, EMPTY, steps + more);
            && (forall i :: 0 <= i < |t.rows| ==> t.rows[i].published) && t.committed == |t.log| && Quiescent(t)
            && Events(t.rows) == Events(s.rows)
            && Replay.Scrub(t.tables) == Replay.Scrub(Fold(cfg.keepRaw, Events(s.rows), map[]))
  {
    var s := Run(cfg, EMPTY, steps);
    RelayOrder(cfg, steps);
    var m :| MarkedUpTo(s.rows, m);
    var publish := PublishAll(cfg, s, m);
    var mid := Run(cfg, s, publish);
    var consume := ConsumeAll(cfg, mid);
    more := publish + consume;
    RunConcat(cfg, s, publish, consume);
    RunConcat(cfg, EMPTY, steps, more);
    MarksUnique(mid.rows, |mid.rows|);
    hide Run, Fold, Events, Marks;
    Convergence(cfg, steps + more);
  }
}
