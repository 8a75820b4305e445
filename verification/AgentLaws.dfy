/** What one turn of the model and one round of tool calls do to a run, message by message. */
module AgentLaws {
  import opened Common
  import opened AgentLoop
  import R = AgentRuns

  /** What the model is shown: the transcript, with a nudge if its last message asked for nothing. */
  function Shown(messages: seq<Message>): seq<Message>
    requires messages != []
  {
    messages + (if messages[|messages| - 1] == Assistant([]) then [Nudge] else [])
  }

  /** A model step: refused at the budget before the model is asked; otherwise the answer is appended to what was
      shown, counted once with its tokens, and the run is over if a submission had been accepted, goes to the tools if
      there are calls, and back to the model if not. */
  lemma {:induction false} ModelStep(a: Agent, s: State)
    requires s.messages != []
    ensures var next := Step(a, At(Model, s));
            if s.iterations >= a.maxIterations then next == Failed(Budget)
            else match a.chat(s.iterations, Shown(s.messages))
                 case None => next == Failed(ModelFailed)
                 case Some(turn) =>
                   var used := Usage(s.usage.input + turn.usage.input, s.usage.output + turn.usage.output);
                   var t := State(Shown(s.messages) + [Assistant(turn.calls)], s.output, s.repairs, s.iterations + 1,
                                  s.log, used, turn.provider);
                   next == if s.output.Some? then Done(t) else if turn.calls != [] then At(Tools, t) else At(Model, t)
  {
    assert s.messages + [] == s.messages;
    assert Nudged(s.messages) == Shown(s.messages);
  }

  /** A run starts with the model shown the system and the user message, and nothing used. */
  lemma {:induction false} FirstStep(a: Agent)
    ensures var next := Step(a, Start());
            if a.maxIterations == 0 then next == Failed(Budget)
            else match a.chat(0, [System, User])
                 case None => next == Failed(ModelFailed)
                 case Some(turn) =>
                   var t := State([System, User, Assistant(turn.calls)], None, 0, 1, [], turn.usage, turn.provider);
                   next == if turn.calls != [] then At(Tools, t) else At(Model, t)
  {
    var s := Start().s;
    ModelStep(a, s);
    assert Shown(s.messages) == [System, User];
    assert [System, User] + [Assistant([])] == [System, User, Assistant([])];
  }

  // ---------- tool calls ----------

  /** Call p among the real ones got its own tool's answer, and its own row. */
  predicate RealAnswered(
      a: Agent, iteration: nat, real': seq<Call>, from: nat, results: seq<Message>, rows: seq<LogRow>)
  {
    && |results| == |real'| == |rows|
    && forall p :: 0 <= p < |real'| ==>
         var env := a.tool(iteration, from + p, real'[p]);
         && results[p] == Tool(real'[p].id, real'[p].name, Reply(env))
         && rows[p] == LogRow(real'[p].name, Ran(env.success))
  }

  /** Submission q was answered by what validation said of it, and logged so. */
  predicate SubmitAnswered(a: Agent, submits: seq<Call>, results: seq<Message>, rows: seq<LogRow>) {
    && |results| == |submits| == |rows|
    && forall q :: 0 <= q < |submits| ==>
         var ok := a.validate(submits[q].args).Some?;
         && results[q] == Tool(submits[q].id, submits[q].name, if ok then Accepted else Invalid)
         && rows[q] == LogRow(submits[q].name, if ok then WasAccepted else WasInvalid)
  }

  lemma {:induction false} AskIs(a: Agent, iteration: nat, calls: seq<Call>, from: nat, repairs: nat)
    ensures var r := Ask(a, iteration, calls, from, repairs);
            RealAnswered(a, iteration, calls, from, r.results, r.log)
  {
    if calls != [] {
      AskIs(a, iteration, calls[1..], from + 1, repairs);
      assert forall p :: 0 < p < |calls| ==> calls[p] == calls[1..][p - 1] && from + p == from + 1 + (p - 1);
    }
  }

  lemma {:induction false} JudgedIs(a: Agent, calls: seq<Call>, repairs: nat)
    requires Judged(a, calls, repairs).Ok?
    ensures var r := Judged(a, calls, repairs).value; SubmitAnswered(a, calls, r.results, r.log)
  {
    if calls != [] {
      JudgedIs(a, calls[1..], Judge(a, calls[0], repairs).repairs);
      assert forall q :: 0 < q < |calls| ==> calls[q] == calls[1..][q - 1];
    }
  }

  /** The output of a round: the last submission that validates, if any. */
  ghost predicate LastValid(a: Agent, submits: seq<Call>, output: Option<nat>) {
    match output
    case None => forall q :: 0 <= q < |submits| ==> a.validate(submits[q].args).None?
    case Some(o) =>
      exists q :: 0 <= q < |submits| && a.validate(submits[q].args) == Some(o)
                  && forall r :: q < r < |submits| ==> a.validate(submits[r].args).None?
  }

  lemma {:induction false} JudgedOutput(a: Agent, calls: seq<Call>, repairs: nat)
    requires Judged(a, calls, repairs).Ok?
    ensures LastValid(a, calls, Judged(a, calls, repairs).value.output)
  {
    if calls != [] {
      var later := Judge(a, calls[0], repairs).repairs;
      JudgedOutput(a, calls[1..], later);
      assert forall q :: 0 < q < |calls| ==> calls[q] == calls[1..][q - 1];
      var o := Judged(a, calls[1..], later).value.output;
      if o.Some? {
        var q :| 0 <= q < |calls[1..]| && a.validate(calls[1..][q].args) == o
                 && forall r :: q < r < |calls[1..]| ==> a.validate(calls[1..][r].args).None?;
        assert a.validate(calls[q + 1].args) == o;
      }
    }
  }

  lemma {:induction false} RejectedCounts(a: Agent, calls: seq<Call>)
    ensures R.Rejected(a, calls) == |set q: nat | q < |calls| && a.validate(calls[q].args).None?|
  {
    if calls != [] {
      var n := |calls| - 1;
      var front, last := calls[..n], calls[n];
      assert calls == front + [last];
      RejectedCounts(a, front);
      RejectedSnoc(a, front, last);
      var all := set q: nat | q < |calls| && a.validate(calls[q].args).None?;
      var some := set q: nat | q < |front| && a.validate(front[q].args).None?;
      assert all == if a.validate(last.args).None? then some + {n} else some;
    }
  }

  lemma {:induction false} RejectedSnoc(a: Agent, calls: seq<Call>, last: Call)
    ensures R.Rejected(a, calls + [last]) == R.Rejected(a, calls) + (if a.validate(last.args).None? then 1 else 0)
  {
    if calls != [] {
      assert (calls + [last])[1..] == calls[1..] + [last];
      RejectedSnoc(a, calls[1..], last);
    }
  }

  function Others(a: Agent): Call -> bool {
    (c: Call) => c.name != a.submit
  }

  function Submits(a: Agent): Call -> bool {
    (c: Call) => c.name == a.submit
  }

  /** The other tools are answered first and in order, each with its own result, then the submissions in order, each
      with its verdict; the last valid one is the output. Nothing else of the state changes but the repairs. */
  ghost predicate AllAnswered(a: Agent, s: State, others: seq<Call>, submits: seq<Call>, t: State) {
    var n, m, k := |s.messages|, |s.log|, |others|;
    && |t.messages| == n + k + |submits| && |t.log| == m + k + |submits|
    && t.messages[..n] == s.messages && t.log[..m] == s.log
    && RealAnswered(a, s.iterations, others, 0, t.messages[n..n + k], t.log[m..m + k])
    && SubmitAnswered(a, submits, t.messages[n + k..], t.log[m + k..])
    && LastValid(a, submits, t.output)
    && t == s.(messages := t.messages, log := t.log, output := t.output, repairs := t.repairs)
  }

  lemma {:induction false} Appended<T>(s: seq<T>, x: seq<T>, y: seq<T>)
    ensures var t := s + (x + y);
            t[..|s|] == s && t[|s|..|s| + |x|] == x && t[|s| + |x|..] == y && |t| == |s| + |x| + |y|
  {
  }

  lemma {:induction false} PartsAnswer(
      a: Agent, s: State, others: seq<Call>, submits: seq<Call>, ask: Round, judged: Round, t: State)
    requires RealAnswered(a, s.iterations, others, 0, ask.results, ask.log)
    requires SubmitAnswered(a, submits, judged.results, judged.log) && LastValid(a, submits, judged.output)
    requires t == s.(messages := s.messages + (ask.results + judged.results), output := judged.output,
                     repairs := judged.repairs, log := s.log + (ask.log + judged.log))
    ensures AllAnswered(a, s, others, submits, t)
  {
    assert |ask.results| == |ask.log| == |others| && |judged.results| == |judged.log| == |submits|;
    hide RealAnswered, SubmitAnswered, LastValid;
    Appended(s.messages, ask.results, judged.results);
    Appended(s.log, ask.log, judged.log);
  }

  lemma {:induction false} RoundAnswers(a: Agent, s: State, others: seq<Call>, submits: seq<Call>)
    requires R.EndsIn(s.messages)
    requires others == Filter(Real(a), s.messages[|s.messages| - 1].calls)
    requires submits == Filter(Submit(a), s.messages[|s.messages| - 1].calls)
    requires Judged(a, submits, s.repairs).Ok?
    ensures ToolsNode(a, s).Ok? && AllAnswered(a, s, others, submits, ToolsNode(a, s).value)
    ensures ToolsNode(a, s).value.repairs == Judged(a, submits, s.repairs).value.repairs
  {
    AskIs(a, s.iterations, others, 0, s.repairs);
    JudgedIs(a, submits, s.repairs);
    JudgedOutput(a, submits, s.repairs);
    hide Ask, Judged, Filter, RealAnswered, SubmitAnswered, LastValid, AllAnswered;
    PartsAnswer(a, s, others, submits, Ask(a, s.iterations, others, 0, s.repairs),
                Judged(a, submits, s.repairs).value, ToolsNode(a, s).value);
  }

  /** A tools step answers all calls of the last message; every invalid submission is a repair, and one repair too
      many ends the run instead. The model is next. */
  lemma {:induction false} ToolsStep(a: Agent, s: State)
    requires R.EndsIn(s.messages) && s.repairs <= a.maxRepairs
    ensures var calls := s.messages[|s.messages| - 1].calls;
            var others, submits := Filter(Others(a), calls), Filter(Submits(a), calls);
            var invalid := |set q: nat | q < |submits| && a.validate(submits[q].args).None?|;
            match Step(a, At(Tools, s))
            case Failed(why) => why == Repairs && s.repairs + invalid > a.maxRepairs
            case At(node, t) =>
              && node == Model && s.repairs + invalid <= a.maxRepairs && t.repairs == s.repairs + invalid
              && AllAnswered(a, s, others, submits, t)
            case _ => false
  {
    var calls := s.messages[|s.messages| - 1].calls;
    var others, submits := Filter(Others(a), calls), Filter(Submits(a), calls);
    SameCalls(a, calls);
    R.JudgedAnswers(a, submits, s.repairs);
    RejectedCounts(a, submits);
    if Judged(a, submits, s.repairs).Ok? {
      RoundAnswers(a, s, others, submits);
    }
    hide Ask, Judged, Filter, AllAnswered;
  }

  lemma {:induction false} SameCalls(a: Agent, calls: seq<Call>)
    ensures Filter(Others(a), calls) == Filter(Real(a), calls)
    ensures Filter(Submits(a), calls) == Filter(Submit(a), calls)
  {
    if calls != [] {
      SameCalls(a, calls[1..]);
    }
  }
}
