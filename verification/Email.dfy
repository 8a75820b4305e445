/**
 The idempotent email send as separate transactions: look the key up, insert QUEUED and commit, call
 SMTP outside any transaction, then commit SENT or FAILED with its event. Many sends run at once and any
 of them may die between two steps.
 */
module Email {
  import opened Common

  datatype Status = Queued | Sent | Failed

  datatype Row = Row(status: Status, error: string)

  /** What `smtp.send` did: returned, or raised an exception with this text. */
  datatype Outcome = Delivered | Raised(text: string)

  datatype Call = Call(key: string, outcome: Outcome)

  datatype Event = Event(key: string, sent: bool)

  /** Where one running send is. */
  datatype Phase = Looked(key: string) | Committed(key: string) | Called(key: string, outcome: Outcome)

  datatype World = World(rows: map<string, Row>, running: map<nat, Phase>, smtp: seq<Call>, events: seq<Event>)

  datatype Step =
    | Look(pid: nat, key: string, valid: bool)
    | Insert(pid: nat)
    | Deliver(pid: nat, outcome: Outcome)
    | Settle(pid: nat)
    | Crash(pid: nat)

  function Gone(w: World, pid: nat): World {
    w.(running := w.running - {pid})
  }

  /** `error = str(e)[:2000]`, kept as None without an exception. */
  function ErrorText(o: Outcome): Option<string> {
    match o
    case Delivered => None
    case Raised(text) => Some(if |text| <= 2000 then text else text[..2000])
  }

  /** The `if error:` test: an exception without text does not count as a failure. */
  predicate IsError(o: Outcome) {
    ErrorText(o).Some? && ErrorText(o).value != ""
  }

  function SettledRow(o: Outcome): Row {
    if IsError(o) then Row(Failed, ErrorText(o).value) else Row(Sent, "")
  }

  function Next(w: World, step: Step): World {
    match step
    case Look(pid, key, valid) =>
      if pid in w.running || key in w.rows || !valid then w  // the stored row is returned, or the request refused
      else w.(running := w.running[pid := Looked(key)])
    case Insert(pid) =>
      if pid !in w.running || !w.running[pid].Looked? then w
      else
        var key := w.running[pid].key;
        if key in w.rows then Gone(w, pid)  // the unique key refuses the second insert
        else w.(rows := w.rows[key := Row(Queued, "")], running := w.running[pid := Committed(key)])
    case Deliver(pid, outcome) =>
      if pid !in w.running || !w.running[pid].Committed? then w
      else
        var key := w.running[pid].key;
        w.(smtp := w.smtp + [Call(key, outcome)], running := w.running[pid := Called(key, outcome)])
    case Settle(pid) =>
      if pid !in w.running || !w.running[pid].Called? || w.running[pid].key !in w.rows then w
      else
        var key, outcome := w.running[pid].key, w.running[pid].outcome;
        Gone(w, pid).(rows := w.rows[key := SettledRow(outcome)], events := w.events + [Event(key, !IsError(outcome))])
    case Crash(pid) => Gone(w, pid)
  }

  function Run(w: World, steps: seq<Step>): World
    decreases |steps|
  {
    if steps == [] then w else Run(Next(w, steps[0]), steps[1..])
  }

  const START := World(map[], map[], [], [])

  // ---------- counting per key ----------

  function Calls(smtp: seq<Call>, key: string): seq<Outcome> {
    if smtp == [] then []
    else if smtp[0].key == key then [smtp[0].outcome] + Calls(smtp[1..], key)
    else Calls(smtp[1..], key)
  }

  function Events(events: seq<Event>, key: string): seq<bool> {
    if events == [] then []
    else if events[0].key == key then [events[0].sent] + Events(events[1..], key)
    else Events(events[1..], key)
  }

  lemma {:induction false} CallsAppend(smtp: seq<Call>, c: Call, key: string)
    ensures Calls(smtp + [c], key) == Calls(smtp, key) + (if c.key == key then [c.outcome] else [])
  {
    if smtp == [] {
      assert (smtp + [c])[1..] == [];
    } else {
      assert (smtp + [c])[1..] == smtp[1..] + [c];
      CallsAppend(smtp[1..], c, key);
      if smtp[0].key == key {
        AppendAssociates([smtp[0].outcome], Calls(smtp[1..], key), if c.key == key then [c.outcome] else []);
      }
    }
  }

  lemma {:induction false} EventsAppend(events: seq<Event>, e: Event, key: string)
    ensures Events(events + [e], key) == Events(events, key) + (if e.key == key then [e.sent] else [])
  {
    if events == [] {
      assert (events + [e])[1..] == [];
    } else {
      assert (events + [e])[1..] == events[1..] + [e];
      EventsAppend(events[1..], e, key);
      if events[0].key == key {
        AppendAssociates([events[0].sent], Events(events[1..], key), if e.key == key then [e.sent] else []);
      }
    }
  }

  // ---------- the invariant ----------

  predicate Owns(phase: Phase, key: string) {
    !phase.Looked? && phase.key == key
  }

  /** What one key's row, calls and events can look like together. */
  predicate KeyOk(w: World, key: string) {
    var calls, events := Calls(w.smtp, key), Events(w.events, key);
    if key !in w.rows then calls == [] && events == []
    else
      var row := w.rows[key];
      match row.status
      case Queued => |calls| <= 1 && events == []
      case _ => |calls| == 1 && row == SettledRow(calls[0]) && events == [row.status == Sent]
  }

  predicate PhaseOk(w: World, phase: Phase) {
    match phase
    case Looked(_) => true
    case Committed(key) => key in w.rows && w.rows[key].status == Queued && Calls(w.smtp, key) == []
    case Called(key, o) => key in w.rows && w.rows[key].status == Queued && Calls(w.smtp, key) == [o]
  }

  ghost predicate Inv(w: World) {
    && (forall key :: KeyOk(w, key))
    && (forall p :: p in w.running ==> PhaseOk(w, w.running[p]))
    && (forall p, q :: p in w.running && q in w.running && p != q && !w.running[p].Looked? ==>
        !Owns(w.running[q], w.running[p].key))
  }

  lemma {:induction false} InsertKeeps(w: World, pid: nat)
    requires Inv(w)
    ensures Inv(Next(w, Insert(pid)))
  {
    var t := Next(w, Insert(pid));
    if pid in w.running {
      assert KeyOk(w, w.running[pid].key);
    }
    forall key ensures KeyOk(t, key) {
      assert KeyOk(w, key);
    }
  }

  lemma {:induction false} DeliverKeeps(w: World, pid: nat, outcome: Outcome)
    requires Inv(w)
    ensures Inv(Next(w, Deliver(pid, outcome)))
  {
    var t := Next(w, Deliver(pid, outcome));
    if t != w {
      var k := w.running[pid].key;
      forall key ensures KeyOk(t, key) && (key != k ==> Calls(t.smtp, key) == Calls(w.smtp, key)) {
        assert KeyOk(w, key);
        CallsAppend(w.smtp, Call(k, outcome), key);
      }
      CallsAppend(w.smtp, Call(k, outcome), k);
    }
  }

  lemma {:induction false} SettleKeeps(w: World, pid: nat)
    requires Inv(w)
    ensures Inv(Next(w, Settle(pid)))
  {
    var t := Next(w, Settle(pid));
    if t != w {
      var k, o := w.running[pid].key, w.running[pid].outcome;
      forall key ensures KeyOk(t, key) {
        assert KeyOk(w, key);
        EventsAppend(w.events, Event(k, !IsError(o)), key);
      }
    }
  }

  lemma {:induction false} NextKeeps(w: World, step: Step)
    requires Inv(w)
    ensures Inv(Next(w, step))
  {
    match step
    case Look(pid, key, valid) =>
      forall k ensures KeyOk(Next(w, step), k) {
        assert KeyOk(w, k);
      }
    case Insert(pid) => InsertKeeps(w, pid);
    case Deliver(pid, outcome) => DeliverKeeps(w, pid, outcome);
    case Settle(pid) => SettleKeeps(w, pid);
    case Crash(pid) =>
      forall k ensures KeyOk(Next(w, step), k) {
        assert KeyOk(w, k);
      }
  }

  lemma {:induction false} RunKeeps(w: World, steps: seq<Step>)
    requires Inv(w)
    ensures Inv(Run(w, steps))
    decreases |steps|
  {
    if steps != [] {
      NextKeeps(w, steps[0]);
      RunKeeps(Next(w, steps[0]), steps[1..]);
    }
  }

  // ---------- main results ----------

  /** Over every interleaving and crash pattern a key reaches SMTP at most once and gets at most one
      event; a settled row tells that one call's outcome, and its event tells the same. */
  lemma {:induction false} AtMostOnce(steps: seq<Step>, key: string)
    ensures var w := Run(START, steps);
            && |Calls(w.smtp, key)| <= 1 && |Events(w.events, key)| <= 1
            && (Events(w.events, key) != [] <==> key in w.rows && w.rows[key].status != Queued)
            && (key in w.rows && w.rows[key].status != Queued ==>
                  && |Calls(w.smtp, key)| == 1 && w.rows[key] == SettledRow(Calls(w.smtp, key)[0])
                  && Events(w.events, key) == [w.rows[key].status == Sent])
  {
    RunKeeps(START, steps);
    assert KeyOk(Run(START, steps), key);
  }

  /** A row is SENT exactly when its one SMTP call returned, or raised an exception without text. */
  lemma {:induction false} SentIff(steps: seq<Step>, key: string)
    requires key in Run(START, steps).rows && Run(START, steps).rows[key].status != Queued
    ensures var w := Run(START, steps);
            |Calls(w.smtp, key)| == 1
                && (w.rows[key].status == Sent <==> Calls(w.smtp, key)[0] in {Delivered, Raised("")})
  {
    AtMostOnce(steps, key);
  }

  /** So SENT does not imply delivery: an exception without text is recorded as SENT. */
  lemma {:induction false} SentWithoutDelivery()
    ensures var w := Run(START, [Look(0, "k", true), Insert(0), Deliver(0, Raised("")), Settle(0)]);
            "k" in w.rows && w.rows["k"].status == Sent && Calls(w.smtp, "k") == [Raised("")]
                && w.events == [Event("k", true)]
  {
    var w1 := Next(START, Look(0, "k", true));
    var w2 := Next(w1, Insert(0));
    var w3 := Next(w2, Deliver(0, Raised("")));
    var w4 := Next(w3, Settle(0));
    RunFour(START, Look(0, "k", true), Insert(0), Deliver(0, Raised("")), Settle(0));
    assert w3.smtp == [Call("k", Raised(""))] && w3.smtp[1..] == [];
    assert w4.smtp == w3.smtp;
  }

  lemma {:induction false} RunFour(w: World, a: Step, b: Step, c: Step, d: Step)
    ensures Run(w, [a, b, c, d]) == Next(Next(Next(Next(w, a), b), c), d)
  {
    var s := [a, b, c, d];
    assert s[1..] == [b, c, d] && s[1..][1..] == [c, d] && s[1..][1..][1..] == [d] && s[1..][1..][1..][1..] == [];
    hide Next;
    assert Run(Next(w, a), [b, c, d]) == Run(w, s);
    assert Run(Next(Next(w, a), b), [c, d]) == Run(Next(w, a), [b, c, d]);
    assert Run(Next(Next(Next(w, a), b), c), [d]) == Run(Next(Next(w, a), b), [c, d]);
    assert Run(Next(Next(Next(Next(w, a), b), c), d), []) == Run(Next(Next(Next(w, a), b), c), [d]);
  }

  /** What an SMTP outcome is stored as: FAILED with the first 2000 characters of the exception's text, SENT if
      there was no exception or it had no text; and the event says SENT in exactly the latter cases. */
  lemma {:induction false} StoredAs(o: Outcome)
    ensures SettledRow(o) == match o
                             case Delivered => Row(Sent, "")
                             case Raised(text) =>
                               if |text| == 0 then Row(Sent, "")
                               else Row(Failed, if |text| > 2000 then text[..2000] else text)
    ensures !IsError(o) <==> o == Delivered || (o.Raised? && |o.text| == 0)
  {
  }

  /** A send that nothing interrupts does nothing under a known key or for a request that is no good; otherwise it
      calls SMTP once, stores what came of it, and emits the one event that says so. */
  lemma {:induction false} SendExactly(w: World, pid: nat, key: string, valid: bool, outcome: Outcome)
    requires pid !in w.running
    ensures Next(w, Look(pid, key, valid)) == w <==> key in w.rows || !valid
    ensures var t := Run(w, [Look(pid, key, valid), Insert(pid), Deliver(pid, outcome), Settle(pid)]);
            if key in w.rows || !valid then t == w
            else
              var sent := outcome == Delivered || (outcome.Raised? && |outcome.text| == 0);
              && t.rows.Keys == w.rows.Keys + {key} && (forall k :: k in w.rows ==> t.rows[k] == w.rows[k])
              && t.rows[key].status == (if sent then Sent else Failed)
              && t.running == w.running && t.smtp == w.smtp + [Call(key, outcome)]
              && t.events == w.events + [Event(key, sent)]
  {
    RunFour(w, Look(pid, key, valid), Insert(pid), Deliver(pid, outcome), Settle(pid));
    StoredAs(outcome);
    if key !in w.rows && valid {
      assert w.running[pid := Called(key, outcome)] - {pid} == w.running;
    }
  }

  predicate Abandoned(w: World, key: string) {
    key in w.rows && w.rows[key].status == Queued && forall p :: p in w.running ==> !Owns(w.running[p], key)
  }

  lemma {:induction false} NextKeepsAbandoned(w: World, step: Step, key: string)
    requires Abandoned(w, key)
    ensures Abandoned(Next(w, step), key) && Calls(Next(w, step).smtp, key) == Calls(w.smtp, key)
  {
    if step.Deliver? && Next(w, step) != w {
      CallsAppend(w.smtp, Call(w.running[step.pid].key, step.outcome), key);
    }
  }

  /** A crash after the first commit leaves QUEUED for good: whatever runs later, retries included, the
      row stays QUEUED, the key never reaches SMTP again and gets no event. */
  lemma {:induction false} CrashLeavesQueued(before: seq<Step>, pid: nat, after: seq<Step>)
    requires var w := Run(START, before); pid in w.running && !w.running[pid].Looked?
    ensures var w := Run(START, before);
            var key, t := w.running[pid].key, Run(Next(w, Crash(pid)), after);
            && key in t.rows && t.rows[key].status == Queued
            && Calls(t.smtp, key) == Calls(w.smtp, key) && Events(t.events, key) == []
  {
    RunKeeps(START, before);
    var w := Run(START, before);
    NextKeeps(w, Crash(pid));
    RunKeeps(Next(w, Crash(pid)), after);
    AbandonedStays(Next(w, Crash(pid)), after, w.running[pid].key);
    assert KeyOk(Run(Next(w, Crash(pid)), after), w.running[pid].key);
  }

  lemma {:induction false} AbandonedStays(w: World, steps: seq<Step>, key: string)
    requires Abandoned(w, key)
    ensures Abandoned(Run(w, steps), key) && Calls(Run(w, steps).smtp, key) == Calls(w.smtp, key)
    decreases |steps|
  {
    if steps != [] {
      NextKeepsAbandoned(w, steps[0], key);
      AbandonedStays(Next(w, steps[0]), steps[1..], key);
    }
  }

  // ---------- as the code runs it ----------

  datatype Reply = Stored(row: Row) | Refused

  class Mailer {
    var rows: map<string, Row>
    var smtp: seq<Call>
    var events: seq<Event>

    ghost function State(running: map<nat, Phase>): World reads this {
      World(rows, running, smtp, events)
    }

    constructor ()
      ensures State(map[]) == START
    {
      rows, smtp, events := map[], [], [];
    }

    /** The first transaction; None means a new row is committed and the send goes on. */
    method Enqueue(key: string, valid: bool) returns (early: Option<Reply>)
      modifies this`rows
      ensures early.None? <==> key !in old(rows) && valid
      ensures early.None? ==> rows == old(rows)[key := Row(Queued, "")]
      ensures early.Some? ==> rows == old(rows) && early.value == if key in rows then Stored(rows[key]) else Refused
    {
      if key in rows {
        return Some(Stored(rows[key]));
      }
      if !valid {
        return Some(Refused);
      }
      rows := rows[key := Row(Queued, "")];
      return None;
    }

    /** The second transaction. */
    method Record(key: string, outcome: Outcome) returns (row: Row)
      requires key in rows
      modifies this`rows, this`events
      ensures row == SettledRow(outcome) && rows == old(rows)[key := row]
      ensures events == old(events) + [Event(key, !IsError(outcome))]
    {
      var error := ErrorText(outcome);
      var failed := error.Some? && error.value != "";
      row := if failed then Row(Failed, error.value) else Row(Sent, "");
      rows := rows[key := row];
      events := events + [Event(key, !failed)];
    }

    /** One send that nothing interrupts is the four steps in a row. */
    method SendEmail(key: string, valid: bool, outcome: Outcome, ghost pid: nat, ghost running: map<nat, Phase>)
        returns (r: Reply)
      requires pid !in running
      modifies this
      ensures State(running) == Run(old(State(running)),
          [Look(pid, key, valid), Insert(pid), Deliver(pid, outcome), Settle(pid)])
      ensures r == if key in old(rows) then Stored(old(rows)[key]) else if valid then Stored(SettledRow(outcome))
          else Refused
    {
      ghost var w := State(running);
      RunFour(w, Look(pid, key, valid), Insert(pid), Deliver(pid, outcome), Settle(pid));
      var early := Enqueue(key, valid);
      if early.Some? {
        return early.value;
      }
      smtp := smtp + [Call(key, outcome)];
      assert State(running[pid := Called(key, outcome)])
          == Next(Next(Next(w, Look(pid, key, valid)), Insert(pid)), Deliver(pid, outcome));
      var row := Record(key, outcome);
      assert (running[pid := Called(key, outcome)]) - {pid} == running;
      return Stored(row);
    }
  }
}
