/**
 The tool-calling specialist as its graph is built: START -> model; model -> END, tools or model;
 tools -> model always. The language model, the tools and the output schema are arbitrary functions.
 */
module AgentLoop {
  import opened Common

  datatype Call = Call(id: string, name: string, args: nat)

  datatype Usage = Usage(input: nat, output: nat)

  datatype Turn = Turn(calls: seq<Call>, usage: Usage, provider: string)

  datatype Env = Env(success: bool, payload: nat)

  datatype Content = Reply(env: Env) | Accepted | Invalid

  datatype Message =
    | System
    | User
    | Nudge
    | Assistant(calls: seq<Call>)
    | Tool(callId: string, name: string, content: Content)

  datatype Status = Ran(success: bool) | WasAccepted | WasInvalid

  datatype LogRow = LogRow(tool: string, status: Status)

  datatype State = State(
    messages: seq<Message>, output: Option<nat>, repairs: nat, iterations: nat,
    log: seq<LogRow>, usage: Usage, provider: string)

  datatype Stop = Budget | Repairs | ModelFailed | RecursionLimit

  /** `chat` sees the turn's number so that it may answer one transcript differently each time. */
  datatype Agent = Agent(
    submit: string, maxIterations: nat, maxRepairs: nat,
    chat: (nat, seq<Message>) -> Option<Turn>, tool: (nat, nat, Call) -> Env, validate: nat -> Option<nat>)

  // ---------- the nodes ----------

  function Add(a: Usage, b: Usage): Usage {
    Usage(a.input + b.input, a.output + b.output)
  }

  predicate Idle(m: Message) {
    m.Assistant? && m.calls == []
  }

  function Nudged(messages: seq<Message>): seq<Message>
    requires messages != []
  {
    if Idle(messages[|messages| - 1]) then messages + [Nudge] else messages
  }

  function ModelNode(a: Agent, s: State): Result<State, Stop>
    requires s.messages != []
  {
    if s.iterations >= a.maxIterations then Err(Budget)
    else
      var messages := Nudged(s.messages);
      match a.chat(s.iterations, messages)
      case None => Err(ModelFailed)
      case Some(turn) =>
        Ok(s.(messages := messages + [Assistant(turn.calls)], iterations := s.iterations + 1,
              usage := Add(s.usage, turn.usage), provider := turn.provider))
  }

  function Real(a: Agent): Call -> bool {
    (c: Call) => c.name != a.submit
  }

  function Submit(a: Agent): Call -> bool {
    (c: Call) => c.name == a.submit
  }

  datatype Round = Round(results: seq<Message>, log: seq<LogRow>, output: Option<nat>, repairs: nat)

  function Join(r: Round, s: Round): Round {
    Round(r.results + s.results, r.log + s.log, if s.output.Some? then s.output else r.output, s.repairs)
  }

  function Ask(a: Agent, iteration: nat, calls: seq<Call>, from: nat, repairs: nat): Round {
    if calls == [] then Round([], [], None, repairs)
    else Join(Answer(a, iteration, calls[0], from, repairs), Ask(a, iteration, calls[1..], from + 1, repairs))
  }

  function Answer(a: Agent, iteration: nat, c: Call, k: nat, repairs: nat): Round {
    var env := a.tool(iteration, k, c);
    Round([Tool(c.id, c.name, Reply(env))], [LogRow(c.name, Ran(env.success))], None, repairs)
  }

  function Judge(a: Agent, c: Call, repairs: nat): Round {
    match a.validate(c.args)
    case Some(o) => Round([Tool(c.id, c.name, Accepted)], [LogRow(c.name, WasAccepted)], Some(o), repairs)
    case None => Round([Tool(c.id, c.name, Invalid)], [LogRow(c.name, WasInvalid)], None, repairs + 1)
  }

  function Judged(a: Agent, calls: seq<Call>, repairs: nat): Result<Round, Stop> {
    if calls == [] then Ok(Round([], [], None, repairs))
    else
      var first := Judge(a, calls[0], repairs);
      if first.output.None? && first.repairs > a.maxRepairs then Err(Repairs)
      else
        match Judged(a, calls[1..], first.repairs)
        case Err(e) => Err(e)
        case Ok(rest) => Ok(Join(first, rest))
  }

  function ToolsNode(a: Agent, s: State): Result<State, Stop>
    requires s.messages != [] && s.messages[|s.messages| - 1].Assistant?
  {
    var calls := s.messages[|s.messages| - 1].calls;
    match Judged(a, Filter(Submit(a), calls), s.repairs)
    case Err(e) => Err(e)
    case Ok(judged) =>
      var round := Join(Ask(a, s.iterations, Filter(Real(a), calls), 0, s.repairs), judged);
      Ok(s.(messages := s.messages + round.results, output := judged.output, repairs := judged.repairs,
          log := s.log + round.log))
  }

  // ---------- the graph ----------

  datatype Node = Model | Tools

  datatype Config = At(node: Node, s: State) | Done(final: State) | Failed(why: Stop)

  function Route(s: State): Config
    requires s.messages != []
  {
    var last := s.messages[|s.messages| - 1];
    if s.output.Some? then Done(s)
    else if last.Assistant? && last.calls != [] then At(Tools, s)
    else At(Model, s)
  }

  predicate Ready(c: Config) {
    match c
    case At(Model, s) => s.messages != []
    case At(Tools, s) => s.messages != [] && s.messages[|s.messages| - 1].Assistant?
    case _ => true
  }

  function Step(a: Agent, c: Config): (r: Config)
    requires Ready(c)
    ensures Ready(r)
  {
    match c
    case At(Model, s) => (match ModelNode(a, s) case Ok(t) => Route(t) case Err(e) => Failed(e))
    case At(Tools, s) => (match ToolsNode(a, s) case Ok(t) => At(Model, t) case Err(e) => Failed(e))
    case _ => c
  }

  function Iter(a: Agent, c: Config, n: nat): (r: Config)
    requires Ready(c)
    ensures Ready(r)
    decreases n
  {
    if n == 0 then c else Iter(a, Step(a, c), n - 1)
  }

  function Start(): (c: Config)
    ensures Ready(c)
  {
    At(Model, State([System, User], None, 0, 0, [], Usage(0, 0), ""))
  }

  function Limit(a: Agent): nat {
    a.maxIterations * 2 + 4
  }

  /** The graph engine: at most `limit` node steps. */
  function Go(a: Agent, c: Config, limit: nat): Result<State, Stop>
    requires Ready(c)
    decreases limit
  {
    match c
    case Done(s) => Ok(s)
    case Failed(e) => Err(e)
    case At(_, _) => if limit == 0 then Err(RecursionLimit) else Go(a, Step(a, c), limit - 1)
  }

  // ---------- as the code runs it ----------

  method RunModel(a: Agent, s: State) returns (r: Result<State, Stop>)
    requires s.messages != []
    ensures r == ModelNode(a, s)
  {
    if s.iterations >= a.maxIterations {
      return Err(Budget);
    }
    var messages := s.messages;
    if Idle(messages[|messages| - 1]) {
      messages := messages + [Nudge];
    }
    var turn := a.chat(s.iterations, messages);
    if turn.None? {
      return Err(ModelFailed);
    }
    return Ok(s.(messages := messages + [Assistant(turn.value.calls)], iterations := s.iterations + 1,
                 usage := Add(s.usage, turn.value.usage), provider := turn.value.provider));
  }

  lemma {:induction false} JoinAssociates(r: Round, s: Round, t: Round)
    ensures Join(Join(r, s), t) == Join(r, Join(s, t))
  {
    AppendAssociates(r.results, s.results, t.results);
    AppendAssociates(r.log, s.log, t.log);
  }

  lemma {:induction false} JoinEmpty(r: Round)
    ensures Join(Round([], [], None, r.repairs), r) == r == Join(r, Round([], [], None, r.repairs))
  {
  }

  function Onto(acc: Round, rest: Result<Round, Stop>): Result<Round, Stop> {
    match rest
    case Ok(r) => Ok(Join(acc, r))
    case Err(e) => Err(e)
  }

  method RunReal(a: Agent, iteration: nat, calls: seq<Call>, repairs: nat) returns (acc: Round)
    ensures acc == Ask(a, iteration, calls, 0, repairs)
  {
    acc := Round([], [], None, repairs);
    assert calls[0..] == calls;
    JoinEmpty(Ask(a, iteration, calls, 0, repairs));
    AskRepairs(a, iteration, calls, 0, repairs);
    for i := 0 to |calls|
      invariant acc.repairs == repairs
      invariant Join(acc, Ask(a, iteration, calls[i..], i, repairs)) == Ask(a, iteration, calls, 0, repairs)
    {
      assert calls[i..][1..] == calls[i + 1..];
      var env := a.tool(iteration, i, calls[i]);
      var row := Round([Tool(calls[i].id, calls[i].name, Reply(env))], [LogRow(calls[i].name, Ran(env.success))],
          None, repairs);
      JoinAssociates(acc, row, Ask(a, iteration, calls[i + 1..], i + 1, repairs));
      acc := Join(acc, row);
    }
    JoinEmpty(acc);
  }

  lemma {:induction false} AskRepairs(a: Agent, iteration: nat, calls: seq<Call>, from: nat, repairs: nat)
    ensures Ask(a, iteration, calls, from, repairs).repairs == repairs
    ensures Ask(a, iteration, calls, from, repairs).output == None
  {
    if calls != [] {
      AskRepairs(a, iteration, calls[1..], from + 1, repairs);
    }
  }

  method RunSubmits(a: Agent, calls: seq<Call>, repairs0: nat) returns (r: Result<Round, Stop>)
    ensures r == Judged(a, calls, repairs0)
  {
    var results: seq<Message>, log: seq<LogRow>, output: Option<nat>, repairs: nat := [], [], None, repairs0;
    ghost var acc := Round(results, log, output, repairs);
    assert calls[0..] == calls;
    if Judged(a, calls, repairs0).Ok? {
      JoinEmpty(Judged(a, calls, repairs0).value);
    }
    for i := 0 to |calls|
      invariant acc == Round(results, log, output, repairs)
      invariant Onto(acc, Judged(a, calls[i..], repairs)) == Judged(a, calls, repairs0)
    {
      assert calls[i..][1..] == calls[i + 1..];
      ghost var row := Judge(a, calls[i], repairs);
      ghost var rest := Judged(a, calls[i + 1..], row.repairs);
      if rest.Ok? {
        JoinAssociates(acc, row, rest.value);
      }
      acc := Join(acc, row);
      var parsed := a.validate(calls[i].args);
      if parsed.Some? {
        output := parsed;
        log := log + [LogRow(calls[i].name, WasAccepted)];
        results := results + [Tool(calls[i].id, calls[i].name, Accepted)];
      } else {
        repairs := repairs + 1;
        if repairs > a.maxRepairs {
          return Err(Repairs);
        }
        results := results + [Tool(calls[i].id, calls[i].name, Invalid)];
        log := log + [LogRow(calls[i].name, WasInvalid)];
      }
    }
    JoinEmpty(acc);
    return Ok(Round(results, log, output, repairs));
  }

  method RunTools(a: Agent, s: State) returns (r: Result<State, Stop>)
    requires s.messages != [] && s.messages[|s.messages| - 1].Assistant?
    ensures r == ToolsNode(a, s)
  {
    var calls := s.messages[|s.messages| - 1].calls;
    var answered := RunReal(a, s.iterations, Filter(Real(a), calls), s.repairs);
    var judged := RunSubmits(a, Filter(Submit(a), calls), s.repairs);
    if judged.Err? {
      return Err(judged.error);
    }
    var round := judged.value;
    return Ok(s.(messages := s.messages + (answered.results + round.results), output := round.output,
                 repairs := round.repairs, log := s.log + (answered.log + round.log)));
  }

  method Run(a: Agent) returns (r: Result<State, Stop>)
    ensures r == Go(a, Start(), Limit(a))
  {
    var c := Start();
    var left: nat := a.maxIterations * 2 + 4;
    while c.At?
      invariant Ready(c) && Go(a, c, left) == Go(a, Start(), Limit(a))
      decreases left
    {
      if left == 0 {
        return Err(RecursionLimit);
      }
      match c.node {
        case Model =>
          var t := RunModel(a, c.s);
          c := if t.Ok? then Route(t.value) else Failed(t.error);
        case Tools =>
          var t := RunTools(a, c.s);
          c := if t.Ok? then At(Model, t.value) else Failed(t.error);
      }
      left := left - 1;
    }
    return if c.Done? then Ok(c.final) else Err(c.why);
  }
}
