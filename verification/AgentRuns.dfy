/** Bounds and transcripts of whole agent runs. */
module AgentRuns {
  import opened Common
  import opened AgentLoop

  // ---------- what one tools step answers ----------

  datatype Tag = Tag(id: string, name: string)

  function Asked(calls: seq<Call>): (r: seq<Tag>)
    ensures |r| == |calls|
  {
    if calls == [] then [] else [Tag(calls[0].id, calls[0].name)] + Asked(calls[1..])
  }

  predicate AllTool(ms: seq<Message>) {
    forall i :: 0 <= i < |ms| ==> ms[i].Tool?
  }

  function Answered(ms: seq<Message>): (r: seq<Tag>)
    requires AllTool(ms)
    ensures |r| == |ms|
  {
    if ms == [] then [] else [Tag(ms[0].callId, ms[0].name)] + Answered(ms[1..])
  }

  lemma {:induction false} AnsweredConcat(a: seq<Message>, b: seq<Message>)
    requires AllTool(a) && AllTool(b)
    ensures AllTool(a + b) && Answered(a + b) == Answered(a) + Answered(b)
  {
    if a == [] {
      assert a + b == b;
    } else {
      assert (a + b)[1..] == a[1..] + b && (a + b)[0] == a[0];
      AnsweredConcat(a[1..], b);
      AppendAssociates([Tag(a[0].callId, a[0].name)], Answered(a[1..]), Answered(b));
    }
  }

  function Invalids(ms: seq<Message>): nat {
    if ms == [] then 0 else (if ms[0].Tool? && ms[0].content == Invalid then 1 else 0) + Invalids(ms[1..])
  }

  function ToolCount(ms: seq<Message>): nat {
    if ms == [] then 0 else (if ms[0].Tool? then 1 else 0) + ToolCount(ms[1..])
  }

  function Turned(ms: seq<Message>): nat {
    if ms == [] then 0 else (if ms[0].Assistant? then 1 else 0) + Turned(ms[1..])
  }

  lemma {:induction false} CountsConcat(a: seq<Message>, b: seq<Message>)
    ensures Invalids(a + b) == Invalids(a) + Invalids(b)
    ensures ToolCount(a + b) == ToolCount(a) + ToolCount(b)
    ensures Turned(a + b) == Turned(a) + Turned(b)
  {
    if a == [] {
      assert a + b == b;
    } else {
      assert (a + b)[1..] == a[1..] + b;
      CountsConcat(a[1..], b);
    }
  }

  lemma {:induction false} CountsOfTools(ms: seq<Message>)
    requires AllTool(ms)
    ensures ToolCount(ms) == |ms| && Turned(ms) == 0
  {
    if ms != [] {
      CountsOfTools(ms[1..]);
    }
  }

  lemma {:induction false} AskAnswers(a: Agent, iteration: nat, calls: seq<Call>, from: nat, repairs: nat)
    ensures var r := Ask(a, iteration, calls, from, repairs);
            AllTool(r.results) && Answered(r.results) == Asked(calls) && |r.log| == |r.results|
                && Invalids(r.results) == 0
  {
    if calls != [] {
      AskAnswers(a, iteration, calls[1..], from + 1, repairs);
      var first := Answer(a, iteration, calls[0], from, repairs);
      AnsweredConcat(first.results, Ask(a, iteration, calls[1..], from + 1, repairs).results);
      CountsConcat(first.results, Ask(a, iteration, calls[1..], from + 1, repairs).results);
    }
  }

  function Rejected(a: Agent, calls: seq<Call>): nat {
    if calls == [] then 0 else (if a.validate(calls[0].args).None? then 1 else 0) + Rejected(a, calls[1..])
  }

  /** A round of submissions fails exactly when it would exceed the repair budget; otherwise every
      submission is answered in order and a valid one is taken. */
  lemma {:induction false} JudgedAnswers(a: Agent, calls: seq<Call>, repairs: nat)
    requires repairs <= a.maxRepairs
    ensures var r := Judged(a, calls, repairs);
            && (r.Ok? <==> repairs + Rejected(a, calls) <= a.maxRepairs)
            && (r.Err? ==> r.error == Repairs)
            && (r.Ok? ==> && r.value.repairs == repairs + Rejected(a, calls)
                          && AllTool(r.value.results) && Answered(r.value.results) == Asked(calls)
                          && |r.value.log| == |r.value.results| && Invalids(r.value.results) == Rejected(a, calls)
                          && (r.value.output.Some? <==> Rejected(a, calls) < |calls|)
                          && (r.value.output.Some? ==> exists c :: c in calls && a.validate(c.args) == r.value.output))
    ensures Rejected(a, calls) <= |calls|
  {
    if calls != [] {
      var first := Judge(a, calls[0], repairs);
      assert first.results[1..] == [];
      if first.repairs <= a.maxRepairs {
        JudgedAnswers(a, calls[1..], first.repairs);
        var rest := Judged(a, calls[1..], first.repairs);
        if rest.Ok? {
          AnsweredConcat(first.results, rest.value.results);
          CountsConcat(first.results, rest.value.results);
        }
      } else {
        RejectedBound(a, calls[1..]);
      }
    }
  }

  /** Of several valid submissions in one message the last one counts. */
  lemma {:induction false} LastValidCounts(a: Agent, calls: seq<Call>, c: Call, repairs: nat)
    requires Judged(a, calls + [c], repairs).Ok?
    ensures Judged(a, calls, repairs).Ok?
    ensures Judged(a, calls + [c], repairs).value.output
         == if a.validate(c.args).Some? then a.validate(c.args) else Judged(a, calls, repairs).value.output
  {
    if calls == [] {
      assert ([] + [c])[1..] == [];
    } else {
      assert (calls + [c])[1..] == calls[1..] + [c] && (calls + [c])[0] == calls[0];
      LastValidCounts(a, calls[1..], c, Judge(a, calls[0], repairs).repairs);
    }
  }

  lemma {:induction false} RejectedBound(a: Agent, calls: seq<Call>)
    ensures Rejected(a, calls) <= |calls|
  {
    if calls != [] {
      RejectedBound(a, calls[1..]);
    }
  }

  lemma {:induction false} AskedSplit(a: Agent, calls: seq<Call>)
    ensures multiset(Asked(Filter(Real(a), calls))) + multiset(Asked(Filter(Submit(a), calls)))
        == multiset(Asked(calls))
    ensures |Filter(Real(a), calls)| + |Filter(Submit(a), calls)| == |calls|
  {
    if calls != [] {
      var c, rest := calls[0], calls[1..];
      AskedSplit(a, rest);
      var others, submits := Filter(Real(a), rest), Filter(Submit(a), rest);
      assert calls == [c] + rest;
      assert Filter(Real(a), calls) == if c.name != a.submit then [c] + others else others;
      assert Filter(Submit(a), calls) == if c.name == a.submit then [c] + submits else submits;
      hide Asked, Filter;
      AskedCons(c, rest);
      AskedCons(c, others);
      AskedCons(c, submits);
    }
  }

  lemma {:induction false} AskedCons(c: Call, rest: seq<Call>)
    ensures multiset(Asked([c] + rest)) == multiset{Tag(c.id, c.name)} + multiset(Asked(rest))
  {
    assert ([c] + rest)[1..] == rest;
  }

  ghost predicate Answers(calls: seq<Call>, results: seq<Message>) {
    |results| == |calls| && AllTool(results) && multiset(Answered(results)) == multiset(Asked(calls))
  }

  /** A completed tools step answers every call of the last assistant message once, by id and name. */
  lemma {:induction false} ToolsNodeAnswers(a: Agent, s: State) returns (results: seq<Message>)
    requires s.messages != [] && s.messages[|s.messages| - 1].Assistant? && s.repairs <= a.maxRepairs
    requires ToolsNode(a, s).Ok?
    ensures var t := ToolsNode(a, s).value;
            && t.messages == s.messages + results && Answers(s.messages[|s.messages| - 1].calls, results)
            && |t.log| == |s.log| + |results| && t.repairs == s.repairs + Invalids(results) <= a.maxRepairs
            && t.iterations == s.iterations && t.usage == s.usage
  {
    var calls := s.messages[|s.messages| - 1].calls;
    var ask, judged := Ask(a, s.iterations, Filter(Real(a), calls), 0, s.repairs),
        Judged(a, Filter(Submit(a), calls), s.repairs).value;
    AskAnswers(a, s.iterations, Filter(Real(a), calls), 0, s.repairs);
    JudgedAnswers(a, Filter(Submit(a), calls), s.repairs);
    hide Ask, Judged;
    AskedSplit(a, calls);
    AnsweredConcat(ask.results, judged.results);
    CountsConcat(ask.results, judged.results);
    results := ask.results + judged.results;
  }

  // ---------- the transcript ----------

  /** The calls of message i, if any, are answered by the messages right behind it. */
  ghost predicate AnsweredAt(ms: seq<Message>, i: nat)
    requires i < |ms|
  {
    ms[i].Assistant? ==>
      var n := |ms[i].calls|;
      && i + 1 + n <= |ms| && Answers(ms[i].calls, ms[i + 1..i + 1 + n])
      && (i + 1 + n < |ms| ==> !ms[i + 1 + n].Tool?)
  }

  ghost predicate AnsweredBelow(ms: seq<Message>, k: nat)
    requires k <= |ms|
  {
    forall i :: 0 <= i < k ==> AnsweredAt(ms, i)
  }

  predicate EndsIn(ms: seq<Message>) {
    ms != [] && ms[|ms| - 1].Assistant?
  }

  predicate Counted(a: Agent, s: State) {
    && Turned(s.messages) == s.iterations <= a.maxIterations
    && Invalids(s.messages) == s.repairs <= a.maxRepairs
    && ToolCount(s.messages) == |s.log|
  }

  ghost predicate Inv(a: Agent, c: Config) {
    match c
    case At(Model, s) => Counted(a, s) && s.messages != [] && AnsweredBelow(s.messages, |s.messages|)
    case At(Tools, s) =>
      && Counted(a, s) && EndsIn(s.messages) && s.messages[|s.messages| - 1].calls != [] && s.output.None?
      && s.iterations >= 1 && AnsweredBelow(s.messages, |s.messages| - 1)
    case Done(s) => Counted(a, s) && EndsIn(s.messages) && s.output.Some? && AnsweredBelow(s.messages, |s.messages| - 1)
    case Failed(e) => e != RecursionLimit
  }

  lemma {:induction false} NudgedAnswers(ms: seq<Message>, next: Message)
    requires ms != [] && AnsweredBelow(ms, |ms|) && !next.Tool?
    ensures AnsweredBelow(ms + [next], |ms|)
  {
    var t := ms + [next];
    forall i | 0 <= i < |ms| ensures AnsweredAt(t, i) {
      assert AnsweredAt(ms, i);
      if ms[i].Assistant? {
        assert t[i + 1..i + 1 + |ms[i].calls|] == ms[i + 1..i + 1 + |ms[i].calls|];
      }
    }
  }

  lemma {:induction false} CountsOfOne(ms: seq<Message>, next: Message)
    requires !next.Tool?
    ensures var t := ms + [next];
            Turned(t) == Turned(ms) + (if next.Assistant? then 1 else 0) && Invalids(t) == Invalids(ms)
                && ToolCount(t) == ToolCount(ms)
  {
    CountsConcat(ms, [next]);
    assert [next][1..] == [];
  }

  lemma {:induction false} ModelAppends(ms: seq<Message>, calls: seq<Call>)
    requires ms != [] && AnsweredBelow(ms, |ms|)
    ensures var t := Nudged(ms) + [Assistant(calls)];
            && AnsweredBelow(t, |t| - 1) && (calls == [] ==> AnsweredBelow(t, |t|))
            && Turned(t) == Turned(ms) + 1 && Invalids(t) == Invalids(ms) && ToolCount(t) == ToolCount(ms)
  {
    hide Turned, Invalids, ToolCount;
    CountsOfOne(ms, Nudge);
    CountsOfOne(Nudged(ms), Assistant(calls));
    var t := Nudged(ms) + [Assistant(calls)];
    if Idle(ms[|ms| - 1]) {
      NudgedAnswers(ms, Nudge);
      assert AnsweredAt(Nudged(ms), |ms|);
    }
    NudgedAnswers(Nudged(ms), Assistant(calls));
    if calls == [] {
      assert Answers([], t[|t|..|t|]);
      assert AnsweredAt(t, |t| - 1);
    }
  }

  lemma {:induction false} EarlierAnswered(ms: seq<Message>, results: seq<Message>, i: nat)
    requires EndsIn(ms) && i < |ms| - 1 && AnsweredAt(ms, i)
    ensures AnsweredAt(ms + results, i)
  {
    if ms[i].Assistant? {
      var n, t := |ms[i].calls|, ms + results;
      var block := ms[i + 1..i + 1 + n];
      assert n > 0 ==> block[n - 1] == ms[i + n];
      assert t[i + 1..i + 1 + n] == block;
    }
  }

  lemma {:induction false} ToolsAnswered(ms: seq<Message>, results: seq<Message>)
    requires AllTool(results)
    ensures forall i :: |ms| <= i < |ms + results| ==> AnsweredAt(ms + results, i)
  {
  }

  lemma {:induction false} LastAnswered(ms: seq<Message>, results: seq<Message>)
    requires EndsIn(ms) && Answers(ms[|ms| - 1].calls, results)
    ensures AnsweredAt(ms + results, |ms| - 1)
  {
    hide Answered, Asked;
    assert (ms + results)[|ms|..|ms| + |results|] == results;
  }

  lemma {:induction false} ToolsAppends(ms: seq<Message>, results: seq<Message>)
    requires EndsIn(ms) && AnsweredBelow(ms, |ms| - 1) && Answers(ms[|ms| - 1].calls, results)
    ensures AnsweredBelow(ms + results, |ms + results|)
  {
    LastAnswered(ms, results);
    ToolsAnswered(ms, results);
    hide AnsweredAt, Answers;
    forall i | 0 <= i < |ms| - 1 ensures AnsweredAt(ms + results, i) {
      EarlierAnswered(ms, results, i);
    }
  }

  lemma {:induction false} StepKeeps(a: Agent, c: Config)
    requires Ready(c) && Inv(a, c)
    ensures Inv(a, Step(a, c))
  {
    match c
    case At(Model, s) =>
      var r := ModelNode(a, s);
      if r.Ok? {
        ModelAppends(s.messages, r.value.messages[|r.value.messages| - 1].calls);
      }
    case At(Tools, s) =>
      JudgedAnswers(a, Filter(Submit(a), s.messages[|s.messages| - 1].calls), s.repairs);
      if ToolsNode(a, s).Ok? {
        var results := ToolsNodeAnswers(a, s);
        ToolsAppends(s.messages, results);
        CountsConcat(s.messages, results);
        CountsOfTools(results);
      }
    case _ =>
  }

  lemma {:induction false} StartInv(a: Agent)
    ensures Inv(a, Start())
  {
    var ms := [System, User];
    assert ms[1..] == [User] && ms[1..][1..] == [];
  }

  lemma {:induction false} IterKeeps(a: Agent, c: Config, n: nat)
    requires Ready(c) && Inv(a, c)
    ensures Inv(a, Iter(a, c, n))
    decreases n
  {
    if n > 0 {
      StepKeeps(a, c);
      IterKeeps(a, Step(a, c), n - 1);
    }
  }

  /** Every call the model ever made is answered exactly once, right behind its message, except those of
      the message the run currently ends in; the counters count what the transcript shows. */
  lemma {:induction false} Transcript(a: Agent, n: nat)
    ensures var c := Iter(a, Start(), n);
            !c.Failed? ==>
              var s := if c.At? then c.s else c.final;
              && Counted(a, s) && s.messages != []
              && AnsweredBelow(s.messages, |s.messages| - 1)
              && (c.At? && c.node == Model ==> AnsweredBelow(s.messages, |s.messages|))
  {
    StartInv(a);
    IterKeeps(a, Start(), n);
  }

  // ---------- bounds ----------

  function Left(a: Agent, c: Config): int {
    match c
    case At(Model, s) => 2 * (a.maxIterations - s.iterations) + 1
    case At(Tools, s) => 2 * (a.maxIterations - s.iterations) + 2
    case _ => 0
  }

  lemma {:induction false} StepDescends(a: Agent, c: Config)
    requires Ready(c) && Inv(a, c) && c.At?
    ensures 0 <= Left(a, Step(a, c)) < Left(a, c)
  {
    StepKeeps(a, c);
    hide Inv;
    if c.node == Tools && ToolsNode(a, c.s).Ok? {
      KeepsIterations(a, c.s);
    }
  }

  lemma {:induction false} KeepsIterations(a: Agent, s: State)
    requires EndsIn(s.messages) && ToolsNode(a, s).Ok?
    ensures ToolsNode(a, s).value.iterations == s.iterations
  {
  }

  lemma {:induction false} Finishes(a: Agent, c: Config, limit: nat)
    requires Ready(c) && Inv(a, c) && Left(a, c) <= limit
    ensures var d := Iter(a, c, limit); !d.At? && Go(a, c, limit) == (if d.Done? then Ok(d.final) else Err(d.why))
    decreases limit
  {
    StepKeeps(a, c);
    if c.At? {
      StepDescends(a, c);
      Finishes(a, Step(a, c), limit - 1);
    } else if limit > 0 {
      Finishes(a, c, limit - 1);
    }
  }

  /** Every run is over after 2 * max_iterations + 1 node steps, so the recursion limit never decides. */
  lemma {:induction false} RunIsBounded(a: Agent, n: nat)
    requires n >= 2 * a.maxIterations + 1
    ensures var d := Iter(a, Start(), n);
            && !d.At? && Go(a, Start(), n) == (if d.Done? then Ok(d.final) else Err(d.why))
            && Go(a, Start(), n) != Err(RecursionLimit) && Go(a, Start(), n) == Go(a, Start(), Limit(a))
  {
    StartInv(a);
    Finishes(a, Start(), n);
    Finishes(a, Start(), Limit(a));
    IterKeeps(a, Start(), n);
    Finishes(a, Start(), 2 * a.maxIterations + 1);
    hide Iter;
    SameEnd(a, Start(), 2 * a.maxIterations + 1, n);
    SameEnd(a, Start(), 2 * a.maxIterations + 1, Limit(a));
  }

  lemma {:induction false} SameEnd(a: Agent, c: Config, m: nat, n: nat)
    requires Ready(c) && m <= n && !Iter(a, c, m).At?
    ensures Iter(a, c, n) == Iter(a, c, m)
    decreases n
  {
    if m > 0 {
      SameEnd(a, Step(a, c), m - 1, n - 1);
    } else if n > 0 {
      SameEnd(a, c, 0, n - 1);
    }
  }

  // ---------- model calls and usage ----------

  function TurnAt(a: Agent, c: Config): seq<Turn>
    requires Ready(c)
  {
    if c.At? && c.node == Model && c.s.iterations < a.maxIterations then
      var turn := a.chat(c.s.iterations, Nudged(c.s.messages));
      if turn.Some? then [turn.value] else []
    else []
  }

  /** The turns the model took during the first n node steps. */
  function Turns(a: Agent, c: Config, n: nat): seq<Turn>
    requires Ready(c)
    decreases n
  {
    if n == 0 then [] else TurnAt(a, c) + Turns(a, Step(a, c), n - 1)
  }

  function Total(turns: seq<Turn>): Usage {
    if turns == [] then Usage(0, 0) else Add(turns[0].usage, Total(turns[1..]))
  }

  function StateOf(c: Config): Option<State> {
    match c
    case At(_, s) => Some(s)
    case Done(s) => Some(s)
    case Failed(_) => None
  }

  lemma {:induction false} StepUsage(a: Agent, c: Config)
    requires Ready(c) && StateOf(Step(a, c)).Some?
    ensures StateOf(c).Some?
    ensures var s, t := StateOf(c).value, StateOf(Step(a, c)).value;
            && t.usage == (if TurnAt(a, c) == [] then s.usage else Add(s.usage, TurnAt(a, c)[0].usage))
            && t.iterations == s.iterations + |TurnAt(a, c)| && |TurnAt(a, c)| <= 1
  {
    if c.At? && c.node == Tools {
      hide Ask, Judged;
    }
  }

  lemma {:induction false} FailedStays(a: Agent, c: Config, n: nat)
    requires Ready(c) && c.Failed?
    ensures Iter(a, c, n) == c
    decreases n
  {
    if n > 0 {
      FailedStays(a, c, n - 1);
    }
  }

  lemma {:induction false} UsageFrom(a: Agent, c: Config, n: nat)
    requires Ready(c) && StateOf(Iter(a, c, n)).Some?
    ensures StateOf(c).Some?
    ensures var s, t := StateOf(c).value, StateOf(Iter(a, c, n)).value;
            t.usage == Add(s.usage, Total(Turns(a, c, n))) && t.iterations == s.iterations + |Turns(a, c, n)|
    decreases n
  {
    if n > 0 {
      UsageFrom(a, Step(a, c), n - 1);
      StepUsage(a, c);
      var turn, rest := TurnAt(a, c), Turns(a, Step(a, c), n - 1);
      assert turn != [] ==> (turn + rest)[1..] == rest;
      assert turn == [] ==> turn + rest == rest;
    }
  }

  lemma {:induction false} InvCounted(a: Agent, c: Config)
    requires Inv(a, c) && StateOf(c).Some?
    ensures Counted(a, StateOf(c).value)
  {
  }

  lemma {:induction false} Cancel(u: Usage)
    ensures Add(Usage(0, 0), u) == u
  {
  }

  /** Token usage is the sum over the turns taken, at most max_iterations of them. */
  lemma {:induction false} UsageIsSum(a: Agent, n: nat)
    requires StateOf(Iter(a, Start(), n)).Some?
    ensures var s := StateOf(Iter(a, Start(), n)).value;
            s.usage == Total(Turns(a, Start(), n)) && s.iterations == |Turns(a, Start(), n)| <= a.maxIterations
  {
    UsageFrom(a, Start(), n);
    StartInv(a);
    IterKeeps(a, Start(), n);
    InvCounted(a, Iter(a, Start(), n));
    hide Inv, Iter, Turns;
    Cancel(Total(Turns(a, Start(), n)));
  }

  // ---------- when a run succeeds ----------

  /** What becomes of an accepted submission: one more model turn, if the budget has one left. */
  lemma {:induction false} AcceptedNeedsOneMoreTurn(a: Agent, n: nat)
    requires var c := Iter(a, Start(), n); c.At? && c.node == Model && c.s.output.Some?
    ensures var s, r := Iter(a, Start(), n).s, Go(a, Start(), Limit(a));
            if s.iterations >= a.maxIterations then r == Err(Budget)
            else if a.chat(s.iterations, Nudged(s.messages)).None? then r == Err(ModelFailed)
            else r.Ok? && r.value.output == s.output && r.value.iterations == s.iterations + 1
  {
    var c := Iter(a, Start(), n);
    Next(a, Start(), n);
    hide Iter;
    RunIsBounded(a, Limit(a));
    RunIsBounded(a, n + 1 + Limit(a));
    SameEnd(a, Start(), n + 1, n + 1 + Limit(a));
  }

  lemma {:induction false} AcceptedRoutes(a: Agent, c: Config)
    requires Ready(c) && c.At? && c.node == Model && c.s.output.Some?
    ensures !Step(a, c).At?
  {
  }

  lemma {:induction false} DoneAfterAccept(a: Agent, c: Config, n: nat)
    requires Ready(c) && c.At? && Iter(a, c, n).Done?
    requires var d := Step(a, c); d.At? && d.node == Model && d.s.output.Some?
    ensures n >= 2 && Iter(a, c, 1) == Step(a, c) && Iter(a, c, 2) == Iter(a, c, n)
  {
    Next(a, c, 0);
    Next(a, c, 1);
    AcceptedRoutes(a, Step(a, c));
    hide Step;
    SameEnd(a, c, 2, n);
  }

  /** Within n steps from c: a tools step k that accepts a submission, one model turn, and nothing after. */
  ghost predicate Closes(a: Agent, c: Config, n: nat, k: nat)
    requires Ready(c)
  {
    var t, m := Iter(a, c, k), Iter(a, c, k + 1);
    && k + 2 <= n && t.At? && t.node == Tools && m.At? && m.node == Model && m.s.output.Some?
    && Iter(a, c, k + 2) == Iter(a, c, n)
  }

  lemma {:induction false} ClosesLater(a: Agent, c: Config, n: nat, k: nat)
    requires Ready(c) && Closes(a, Step(a, c), n, k)
    ensures Closes(a, c, n + 1, k + 1)
  {
    hide Step, Ready;
    Shift(a, c, k);
    Shift(a, c, k + 1);
    Shift(a, c, k + 2);
    Shift(a, c, n);
  }

  lemma {:induction false} ClosesNow(a: Agent, c: Config, n: nat)
    requires Ready(c) && c.At? && c.node == Tools && Iter(a, c, n).Done?
    requires var d := Step(a, c); d.At? && d.node == Model && d.s.output.Some?
    ensures Closes(a, c, n, 0)
  {
    hide Step, Ready;
    DoneAfterAccept(a, c, n);
    IterZero(a, c);
  }

  /** The step before a run is done: an accepted submission, then exactly one model turn. */
  lemma {:induction false} DoneFrom(a: Agent, c: Config, n: nat) returns (k: nat)
    requires Ready(c) && Inv(a, c) && c.At? && Iter(a, c, n).Done?
    requires c.node == Model ==> c.s.output.None?
    ensures Closes(a, c, n, k)
    decreases n
  {
    IterZero(a, c);
    hide Step, Inv, Ready, Iter, Closes;
    var d := Step(a, c);
    StepKeeps(a, c);
    StepShape(a, c);
    Shift(a, c, n - 1);
    if d.Failed? {
      FailedStays(a, d, n - 1);
    } else if d.node == Model && d.s.output.Some? {
      k := 0;
      ClosesNow(a, c, n);
    } else {
      var j := DoneFrom(a, d, n - 1);
      ClosesLater(a, c, n - 1, j);
      k := j + 1;
    }
  }

  lemma {:induction false} Shift(a: Agent, c: Config, n: nat)
    requires Ready(c)
    ensures Iter(a, c, n + 1) == Iter(a, Step(a, c), n)
  {
  }

  lemma {:induction false} IterZero(a: Agent, c: Config)
    requires Ready(c)
    ensures Iter(a, c, 0) == c
  {
  }

  lemma {:induction false} StepShape(a: Agent, c: Config)
    requires Ready(c) && c.At? && (c.node == Model ==> c.s.output.None?)
    ensures var d := Step(a, c); d.Failed? || (d.At? && (d.node == Model && d.s.output.Some? ==> c.node == Tools))
  {
    hide Ask, Judged;
  }

  lemma {:induction false} SuccessNeedsSubmit(a: Agent) returns (n: nat)
    requires Go(a, Start(), Limit(a)).Ok?
    ensures var c, r := Iter(a, Start(), n), Go(a, Start(), Limit(a)).value;
            Accepting(a, c) && r.output == c.s.output && 2 <= r.iterations == c.s.iterations + 1 <= a.maxIterations
  {
    RunIsBounded(a, Limit(a));
    StartInv(a);
    var k := DoneFrom(a, Start(), Limit(a));
    IterKeeps(a, Start(), k);
    Next(a, Start(), k);
    n := k + 1;
    hide Iter, Go;
    ToolsThenModel(a, Iter(a, Start(), k));
    AcceptedNeedsOneMoreTurn(a, n);
  }

  lemma {:induction false} ToolsThenModel(a: Agent, c: Config)
    requires Ready(c) && Inv(a, c) && c.At? && c.node == Tools && Step(a, c).At?
    ensures Step(a, c).s.iterations >= 1 && Step(a, c).s.messages != []
  {
    hide Ask, Judged;
  }

  lemma {:induction false} Next(a: Agent, c: Config, n: nat)
    requires Ready(c)
    ensures Iter(a, c, n + 1) == Step(a, Iter(a, c, n))
    decreases n
  {
    if n > 0 {
      Next(a, Step(a, c), n - 1);
    } else {
      assert Iter(a, Step(a, c), 0) == Step(a, c);
    }
  }

  /** A run succeeds exactly when some tools step accepts a submission while at least one iteration is
      left and the model then answers once more. */
  lemma {:induction false} SuccessIsSubmitThenTurn(a: Agent)
    ensures Go(a, Start(), Limit(a)).Ok? <==> exists n: nat :: Accepting(a, Iter(a, Start(), n))
  {
    if Go(a, Start(), Limit(a)).Ok? {
      var n := SuccessNeedsSubmit(a);
      assert Accepting(a, Iter(a, Start(), n));
    }
    if n: nat :| Accepting(a, Iter(a, Start(), n)) {
      AcceptedNeedsOneMoreTurn(a, n);
    }
  }

  /** Between an accepted submission and the end, with the last turn still to be had. */
  predicate Accepting(a: Agent, c: Config) {
    && c.At? && c.node == Model && c.s.messages != [] && c.s.output.Some?
    && c.s.iterations < a.maxIterations && a.chat(c.s.iterations, Nudged(c.s.messages)).Some?
  }

  /** A valid submission on the last allowed iteration is lost: with a budget of one no run succeeds. */
  lemma {:induction false} BudgetOfOneNeverSucceeds(a: Agent)
    requires a.maxIterations <= 1
    ensures Go(a, Start(), Limit(a)).Err?
  {
    if Go(a, Start(), Limit(a)).Ok? {
      var n := SuccessNeedsSubmit(a);
    }
  }


  /** The concrete run: one iteration allowed, the first turn submits validly, the submission is accepted
      with no iteration left, and the run ends in the budget error. */
  lemma {:induction false} LastSubmitLost()
    ensures var turn := Turn([Call("c1", "submit_triage", 5)], Usage(10, 2), "p");
            var a := Agent("submit_triage", 1, 2, (i, ms) => Some(turn), (i, k, c) => Env(true, 0), args => Some(args));
            var c := Iter(a, Start(), 2);
            && c.At? && c.node == Model && c.s.output == Some(5) && c.s.iterations == 1
            && Go(a, Start(), Limit(a)) == Err(Budget)
  {
    var call := Call("c1", "submit_triage", 5);
    var turn := Turn([call], Usage(10, 2), "p");
    var a := Agent("submit_triage", 1, 2, (i, ms) => Some(turn), (i, k, c) => Env(true, 0), args => Some(args));
    Next(a, Start(), 0);
    Next(a, Start(), 1);
    var s0 := Start().s;
    var s1 := ModelNode(a, s0).value;
    assert Iter(a, Start(), 1) == At(Tools, s1);
    OneSubmit(a, s1, call, 5);
    AcceptedNeedsOneMoreTurn(a, 2);
  }

  lemma {:induction false} OneSubmit(a: Agent, s: State, call: Call, o: nat)
    requires EndsIn(s.messages) && s.messages[|s.messages| - 1].calls == [call]
    requires call.name == a.submit && a.validate(call.args) == Some(o)
    ensures var r := ToolsNode(a, s); r.Ok? && r.value.output == Some(o) && r.value.iterations == s.iterations
  {
    assert [call][1..] == [];
    assert Filter(Submit(a), [call]) == [call];
    assert Judged(a, [], s.repairs) == Ok(Round([], [], None, s.repairs));
    assert Judged(a, [call], s.repairs).Ok?;
  }
}
