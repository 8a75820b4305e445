/** Stored policies and their versions, the compiled rule list, and the simulator. */
module PolicyService {
  import opened Common
  import opened StateMachine
  import opened PolicyRules
  import opened PolicyEvaluation

  datatype Version = Version(version: int, rule: Json, decision: Decision, requiredRole: Option<string>,
      reason: Option<string>)

  /** The value of a policy at one moment. */
  datatype Row = Row(
    id: string, name: string, actionType: string, priority: int, enabled: bool, currentVersion: int,
        versions: seq<Version>)

  function FindVersion(versions: seq<Version>, number: int): Option<Version> {
    if versions == [] then None
    else if versions[0].version == number then Some(versions[0])
    else FindVersion(versions[1..], number)
  }

  /** Versions are numbered 1, 2, ... and the current one is the last. */
  predicate Numbered(row: Row) {
    && row.currentVersion == |row.versions| >= 1
    && forall i :: 0 <= i < |row.versions| ==> row.versions[i].version == i + 1
  }

  lemma {:induction false} FindNumbered(versions: seq<Version>, from: int, number: int)
    requires forall i :: 0 <= i < |versions| ==> versions[i].version == from + i
    requires from <= number < from + |versions|
    ensures FindVersion(versions, number) == Some(versions[number - from])
  {
    if from < number {
      FindNumbered(versions[1..], from + 1, number);
    }
  }

  function RuleOf(row: Row, v: Version): PolicyRule {
    PolicyRule(row.id, row.name, row.actionType, row.priority, v.rule, v.decision, v.requiredRole, v.reason, v.version)
  }

  function Compiled(rows: seq<Row>): seq<PolicyRule> {
    if rows == [] then []
    else
      var v := FindVersion(rows[0].versions, rows[0].currentVersion);
      (if rows[0].enabled && v.Some? then [RuleOf(rows[0], v.value)] else []) + Compiled(rows[1..])
  }

  lemma {:induction false} CompiledConcat(a: seq<Row>, b: seq<Row>)
    ensures Compiled(a + b) == Compiled(a) + Compiled(b)
  {
    if a == [] {
      assert a + b == b;
    } else {
      assert (a + b)[1..] == a[1..] + b;
      CompiledConcat(a[1..], b);
    }
  }

  lemma {:induction false} CompiledFrom(rows: seq<Row>, r: PolicyRule) returns (i: nat)
    requires r in Compiled(rows)
    ensures i < |rows| && rows[i].enabled && r.name == rows[i].name && r.policyId == rows[i].id
  {
    var v := FindVersion(rows[0].versions, rows[0].currentVersion);
    if rows[0].enabled && v.Some? && r == RuleOf(rows[0], v.value) {
      i := 0;
    } else {
      i := CompiledFrom(rows[1..], r);
      i := i + 1;
    }
  }

  // ---------- simulation ----------

  datatype Candidate = Candidate(rule: Json, decision: Decision, requiredRole: Option<string>)

  datatype SimulateRow = SimulateRow(current: Decision, candidate: Decision, changed: bool)

  datatype Report = Report(rows: seq<SimulateRow>, changed: nat)

  function CandidateRule(p: Option<Row>, req: Candidate): PolicyRule {
    match p
    case Some(row) =>
      PolicyRule(row.id, row.name, row.actionType, row.priority, req.rule, req.decision, req.requiredRole, None,
          row.currentVersion + 1)
    case None => PolicyRule("candidate", "candidate", "*", 0, req.rule, req.decision, req.requiredRole, None, 1)
  }

  function OtherThan(id: string): PolicyRule -> bool {
    (r: PolicyRule) => r.policyId != id
  }

  function Replaced(rules: seq<PolicyRule>, cand: PolicyRule): seq<PolicyRule> {
    Filter(OtherThan(cand.policyId), rules) + [cand]
  }

  function Differ(cur: Evaluation, cand: Evaluation): SimulateRow {
    SimulateRow(cur.decision, cand.decision, cur.decision != cand.decision || cur.requiredRole != cand.requiredRole)
  }

  function Compared(
      lib: Lib, rules: seq<PolicyRule>, other: seq<PolicyRule>, contexts: seq<(string, Json)>, d: Defaults)
    : Result<seq<SimulateRow>, Fault>
  {
    if contexts == [] then Ok([])
    else
      var (at, ctx) := contexts[0];
      match (Evaluate(lib, at, ctx, rules, d), Evaluate(lib, at, ctx, other, d))
      case (Ok(cur), Ok(cand)) =>
        (match Compared(lib, rules, other, contexts[1..], d)
         case Ok(rest) => Ok([Differ(cur, cand)] + rest)
         case Err(e) => Err(e))
      case (Err(e), _) => Err(e)
      case (_, Err(e)) => Err(e)
  }

  function Changes(rows: seq<SimulateRow>): nat {
    if rows == [] then 0 else (if rows[0].changed then 1 else 0) + Changes(rows[1..])
  }

  function Simulated(
      lib: Lib, rows: seq<Row>, p: Option<Row>, req: Candidate, contexts: seq<(string, Json)>, d: Defaults)
      : Result<Report, Fault>
  {
    var rules := Compiled(rows);
    match Compared(lib, rules, Replaced(rules, CandidateRule(p, req)), contexts, d)
    case Ok(out) => Ok(Report(out, Changes(out)))
    case Err(e) => Err(e)
  }

  // ---------- a rule without its version number and reason decides alike ----------

  function Blank(r: PolicyRule): PolicyRule {
    r.(reason := None, version := 0)
  }

  function Blanks(s: seq<PolicyRule>): seq<PolicyRule> {
    if s == [] then [] else [Blank(s[0])] + Blanks(s[1..])
  }

  lemma {:induction false} BlanksConcat(a: seq<PolicyRule>, b: seq<PolicyRule>)
    ensures Blanks(a + b) == Blanks(a) + Blanks(b)
  {
    if a == [] {
      assert a + b == b;
    } else {
      assert (a + b)[1..] == a[1..] + b;
      BlanksConcat(a[1..], b);
    }
  }

  lemma {:induction false} BlanksFilter(actionType: string, s: seq<PolicyRule>)
    ensures Filter(For(actionType), Blanks(s)) == Blanks(Filter(For(actionType), s))
  {
    if s != [] {
      BlanksFilter(actionType, s[1..]);
      assert Blanks(s)[1..] == Blanks(s[1..]);
      assert For(actionType)(s[0]) ==> Filter(For(actionType), s)[1..] == Filter(For(actionType), s[1..]);
    }
  }

  lemma {:induction false} BlanksInsert(r: PolicyRule, s: seq<PolicyRule>)
    ensures Insert(Blank(r), Blanks(s)) == Blanks(Insert(r, s))
  {
    assert ([r] + s)[1..] == s;
    if s != [] {
      BlanksInsert(r, s[1..]);
      assert Less(s[0], r) ==> Insert(r, s)[1..] == Insert(r, s[1..]);
    }
  }

  lemma {:induction false} BlanksSort(s: seq<PolicyRule>)
    ensures Sort(Blanks(s)) == Blanks(Sort(s))
  {
    if s != [] {
      BlanksSort(s[1..]);
      BlanksInsert(s[0], Sort(s[1..]));
      assert Blanks(s)[1..] == Blanks(s[1..]);
    }
  }

  lemma {:induction false} BlanksHits(lib: Lib, context: Json, s: seq<PolicyRule>)
    ensures var h, b := Hits(lib, context, s), Hits(lib, context, Blanks(s));
            b == if h.Ok? then Ok(Blanks(h.value)) else h
  {
    if s != [] {
      BlanksHits(lib, context, s[1..]);
      assert Blanks(s)[1..] == Blanks(s[1..]);
    }
  }

  lemma {:induction false} BlanksDeny(hits: seq<PolicyRule>)
    ensures FirstDeny(Blanks(hits)).Some? == FirstDeny(hits).Some?
  {
    if hits != [] {
      BlanksDeny(hits[1..]);
      assert Blanks(hits)[1..] == Blanks(hits[1..]);
    }
  }

  /** The part of an evaluation the simulator looks at. */
  function Verdict(e: Result<Evaluation, Fault>): Result<(Decision, Option<string>), Fault> {
    match e
    case Ok(v) => Ok((v.decision, v.requiredRole))
    case Err(f) => Err(f)
  }

  lemma {:induction false} BlanksVerdict(
      lib: Lib, actionType: string, context: Json, rules: seq<PolicyRule>, d: Defaults)
    ensures Verdict(Evaluate(lib, actionType, context, Blanks(rules), d))
        == Verdict(Evaluate(lib, actionType, context, rules, d))
  {
    var sorted := Sort(Filter(For(actionType), rules));
    BlanksFilter(actionType, rules);
    BlanksSort(Filter(For(actionType), rules));
    BlanksHits(lib, context, sorted);
    var h := Hits(lib, context, sorted);
    if h.Ok? {
      BlanksDeny(h.value);
    }
  }

  // ---------- self-simulation ----------

  ghost predicate Keyed(rows: seq<Row>) {
    forall i, j :: 0 <= i < j < |rows| ==> rows[i].name != rows[j].name && rows[i].id != rows[j].id
  }

  lemma {:induction false} CompiledDistinct(rows: seq<Row>)
    requires Keyed(rows)
    ensures DistinctNames(Compiled(rows))
  {
    if rows != [] {
      CompiledDistinct(rows[1..]);
      forall r | r in Compiled(rows[1..]) ensures r.name != rows[0].name {
        var i := CompiledFrom(rows[1..], r);
        assert rows[1..][i] == rows[i + 1];
      }
    }
  }

  lemma {:induction false} FilterAll<T>(keep: T -> bool, s: seq<T>)
    requires forall x :: x in s ==> keep(x)
    ensures Filter(keep, s) == s
  {
    if s != [] {
      FilterAll(keep, s[1..]);
    }
  }

  lemma {:induction false} OthersKept(rows: seq<Row>, id: string)
    requires forall k :: 0 <= k < |rows| ==> rows[k].id != id
    ensures Filter(OtherThan(id), Compiled(rows)) == Compiled(rows)
  {
    forall r | r in Compiled(rows) ensures OtherThan(id)(r) {
      var k := CompiledFrom(rows, r);
    }
    FilterAll(OtherThan(id), Compiled(rows));
  }

  lemma {:induction false} CompiledOne(row: Row)
    requires row.enabled && Numbered(row)
    ensures Compiled([row]) == [RuleOf(row, row.versions[row.currentVersion - 1])]
    ensures Filter(OtherThan(row.id), Compiled([row])) == []
  {
    FindNumbered(row.versions, 1, row.currentVersion);
  }

  lemma {:induction false} CompiledSplit(rows: seq<Row>, i: nat)
    requires i < |rows|
    ensures Compiled(rows) == Compiled(rows[..i]) + Compiled([rows[i]]) + Compiled(rows[i + 1..])
  {
    assert rows == rows[..i] + [rows[i]] + rows[i + 1..];
    CompiledConcat(rows[..i], [rows[i]]);
    CompiledConcat(rows[..i] + [rows[i]], rows[i + 1..]);
  }

  lemma {:induction false} FilterAround<T>(keep: T -> bool, before: seq<T>, one: seq<T>, after: seq<T>)
    requires Filter(keep, before) == before && Filter(keep, one) == [] && Filter(keep, after) == after
    ensures Filter(keep, before + one + after) == before + after
  {
    FilterConcat(keep, before, one);
    FilterConcat(keep, before + one, after);
    assert before + [] == before;
  }

  /** Compiling splits around an enabled policy, and no other rule has its id. */
  lemma {:induction false} CompiledAround(rows: seq<Row>, i: nat)
      returns (before: seq<PolicyRule>, after: seq<PolicyRule>)
    requires Keyed(rows) && i < |rows| && rows[i].enabled && Numbered(rows[i])
    ensures Compiled(rows) == before + [RuleOf(rows[i], rows[i].versions[rows[i].currentVersion - 1])] + after
    ensures Filter(OtherThan(rows[i].id), Compiled(rows)) == before + after
  {
    before, after := Compiled(rows[..i]), Compiled(rows[i + 1..]);
    CompiledOne(rows[i]);
    OthersKept(rows[..i], rows[i].id);
    OthersKept(rows[i + 1..], rows[i].id);
    hide Compiled, Filter;
    CompiledSplit(rows, i);
    FilterAround(OtherThan(rows[i].id), before, Compiled([rows[i]]), after);
  }

  lemma {:induction false} BlanksDistinct(s: seq<PolicyRule>)
    requires DistinctNames(s)
    ensures |Blanks(s)| == |s| && (forall i :: 0 <= i < |s| ==> Blanks(s)[i] == Blank(s[i])) && DistinctNames(Blanks(s))
  {
    if s != [] {
      BlanksDistinct(s[1..]);
    }
  }

  lemma {:induction false} BlanksMoved(before: seq<PolicyRule>, r: PolicyRule, after: seq<PolicyRule>, cand: PolicyRule)
    requires Blank(r) == Blank(cand)
    ensures multiset(Blanks(before + [r] + after)) == multiset(Blanks(before + after + [cand]))
  {
    BlanksConcat(before, [r]);
    BlanksConcat(before + [r], after);
    BlanksConcat(before, after);
    BlanksConcat(before + after, [cand]);
    assert Blanks([r]) == [Blank(r)] == Blanks([cand]);
  }

  /** The candidate made of a policy's own current rule, decision and role. */
  function Own(row: Row): PolicyRule
    requires Numbered(row)
  {
    var v := row.versions[row.currentVersion - 1];
    CandidateRule(Some(row), Candidate(v.rule, v.decision, v.requiredRole))
  }

  lemma {:induction false} SelfVerdict(lib: Lib, rows: seq<Row>, i: nat, at: string, context: Json, d: Defaults)
    requires Keyed(rows) && i < |rows| && rows[i].enabled && Numbered(rows[i])
    ensures SameVerdict(lib, Compiled(rows), Replaced(Compiled(rows), Own(rows[i])), at, context, d)
  {
    var v := rows[i].versions[rows[i].currentVersion - 1];
    var cand := Own(rows[i]);
    var before, after := CompiledAround(rows, i);
    BlanksMoved(before, RuleOf(rows[i], v), after, cand);
    CompiledDistinct(rows);
    BlanksDistinct(Compiled(rows));
    hide Evaluate;
    OrderIndependent(lib, at, context, Blanks(Compiled(rows)), Blanks(Replaced(Compiled(rows), cand)), d);
    BlanksVerdict(lib, at, context, Compiled(rows), d);
    BlanksVerdict(lib, at, context, Replaced(Compiled(rows), cand), d);
  }

  ghost predicate SameVerdict(
      lib: Lib, rules: seq<PolicyRule>, other: seq<PolicyRule>, at: string, context: Json, d: Defaults)
  {
    Verdict(Evaluate(lib, at, context, rules, d)) == Verdict(Evaluate(lib, at, context, other, d))
  }

  lemma {:induction false} ComparedSame(
      lib: Lib, rules: seq<PolicyRule>, other: seq<PolicyRule>, contexts: seq<(string, Json)>, d: Defaults)
    requires forall at, context :: SameVerdict(lib, rules, other, at, context, d)
    ensures var r := Compared(lib, rules, other, contexts, d);
            && (r.Ok? ==> Changes(r.value) == 0 && |r.value| == |contexts|)
            && (r.Ok? <==> forall k :: 0 <= k < |contexts| ==>
                Evaluate(lib, contexts[k].0, contexts[k].1, rules, d).Ok?)
  {
    if contexts != [] {
      hide Evaluate;
      assert SameVerdict(lib, rules, other, contexts[0].0, contexts[0].1, d);
      ComparedSame(lib, rules, other, contexts[1..], d);
    }
  }

  /** Simulating an enabled policy with its own current rule, decision and role reports no change on
      any batch of contexts, although it moves the rule to the end of the list. */
  lemma {:induction false} SelfSimulation(lib: Lib, rows: seq<Row>, i: nat, contexts: seq<(string, Json)>, d: Defaults)
    requires Keyed(rows) && i < |rows| && rows[i].enabled && Numbered(rows[i])
    ensures var v := rows[i].versions[rows[i].currentVersion - 1];
            var r := Simulated(lib, rows, Some(rows[i]), Candidate(v.rule, v.decision, v.requiredRole), contexts, d);
            r.Ok? ==> r.value.changed == 0 && |r.value.rows| == |contexts|
    ensures var v := rows[i].versions[rows[i].currentVersion - 1];
            var r := Simulated(lib, rows, Some(rows[i]), Candidate(v.rule, v.decision, v.requiredRole), contexts, d);
            r.Ok? <==> forall k :: 0 <= k < |contexts| ==>
                Evaluate(lib, contexts[k].0, contexts[k].1, Compiled(rows), d).Ok?
  {
    var rules, other := Compiled(rows), Replaced(Compiled(rows), Own(rows[i]));
    forall at, context ensures SameVerdict(lib, rules, other, at, context, d) {
      SelfVerdict(lib, rows, i, at, context, d);
    }
    hide Evaluate, Compiled, Replaced, SameVerdict;
    ComparedSame(lib, rules, other, contexts, d);
  }

  lemma {:induction false} ComparedOne(
      lib: Lib, rules: seq<PolicyRule>, other: seq<PolicyRule>, at: string, context: Json, d: Defaults)
    requires Evaluate(lib, at, context, rules, d).Ok? && Evaluate(lib, at, context, other, d).Ok?
    ensures var row := Differ(Evaluate(lib, at, context, rules, d).value, Evaluate(lib, at, context, other, d).value);
            && Compared(lib, rules, other, [(at, context)], d) == Ok([row])
            && Changes([row]) == if row.changed then 1 else 0
  {
    hide Evaluate;
    var contexts := [(at, context)];
    assert contexts[1..] == [];
    var row := Differ(Evaluate(lib, at, context, rules, d).value, Evaluate(lib, at, context, other, d).value);
    assert [row][1..] == [] && [row] + [] == [row];
    assert contexts[0] == (at, context);
    assert Compared(lib, rules, other, [], d) == Ok([]);
  }

  // ---------- simulating a disabled policy ----------

  function VerdictOf(r: PolicyRule): (Decision, Option<string>) {
    (r.decision, if r.decision == RequireApproval then Some(Or(r.requiredRole, "analyst")) else None)
  }

  ghost predicate Outranks(lib: Lib, at: string, context: Json, rules: seq<PolicyRule>, cand: PolicyRule) {
    forall q :: q in rules && IsHit(lib, at, context, q) ==> Less(cand, q)
  }

  /** The candidate takes over: it matches, no rule denies already, it denies itself or ranks above every
      matching rule, and it says something else than what is in force. */
  ghost predicate TakesOver(
      lib: Lib, at: string, context: Json, rules: seq<PolicyRule>, cand: PolicyRule, d: Defaults)
  {
    && IsHit(lib, at, context, cand) && !Denies(lib, at, context, rules)
    && (cand.decision == Deny || Outranks(lib, at, context, rules, cand))
    && Verdict(Evaluate(lib, at, context, rules, d)) != Ok(VerdictOf(cand))
  }

  lemma {:induction false} NotTrue(m: Result<bool, Fault>)
    requires m.Ok? && m != Ok(true)
    ensures m == Ok(false)
  {
    assert m == Ok(m.value);
    if m.value {
      assert false;
    }
  }

  /** A candidate that does not match changes nothing. */
  lemma {:induction false} SilentCandidate(
      lib: Lib, at: string, context: Json, rules: seq<PolicyRule>, cand: PolicyRule, d: Defaults)
    requires forall r :: r in rules ==> r.name != cand.name
    requires Evaluate(lib, at, context, rules + [cand], d).Ok? && !IsHit(lib, at, context, cand)
    ensures Evaluate(lib, at, context, rules + [cand], d) == Evaluate(lib, at, context, rules, d)
  {
    var all, keep := rules + [cand], (r: PolicyRule) => r.name != cand.name;
    EvaluateOkIff(lib, at, context, all, d);
    assert cand in all;
    FilterConcat(keep, rules, [cand]);
    FilterAll(keep, rules);
    assert Filter(keep, [cand]) == [] && rules + [] == rules;
    hide Evaluate, Matches;
    forall r | r in all && !keep(r) && For(at)(r) ensures Matches(lib, r.rule, context) == Ok(false) {
      assert r == cand;
      NotTrue(Matches(lib, cand.rule, context));
    }
    SilentRulesDrop(lib, at, context, keep, all, d);
  }

  lemma {:induction false} NamesDiffer(rules: seq<PolicyRule>, q: PolicyRule, t: PolicyRule)
    requires DistinctNames(rules) && q in rules && t in rules && q != t
    ensures q.name != t.name
  {
    var i :| 0 <= i < |rules| && rules[i] == q;
    var j :| 0 <= j < |rules| && rules[j] == t;
  }

  /** With distinct names, the first matching rule ranks strictly above the others. */
  lemma {:induction false} TopHit(lib: Lib, at: string, context: Json, rules: seq<PolicyRule>, d: Defaults)
      returns (t: PolicyRule)
    requires DistinctNames(rules) && Evaluate(lib, at, context, rules, d).Ok?
    requires exists r :: r in rules && IsHit(lib, at, context, r)
    ensures IsTop(lib, at, context, rules, t)
  {
    var hits := HitsFound(lib, at, context, rules);
    hide IsHit;
    assert hits != [];
    t := hits[0];
    forall q | q in hits && q != t ensures Less(t, q) {
      var i :| 0 <= i < |hits| && hits[i] == q;
      assert i > 0 ==> !Less(hits[i], hits[0]);
      NamesDiffer(rules, q, t);
      LessIsWeakOrder(t, q, q);
    }
  }

  ghost predicate IsTop(lib: Lib, at: string, context: Json, rules: seq<PolicyRule>, t: PolicyRule) {
    && t in rules && IsHit(lib, at, context, t)
    && forall q :: q in rules && IsHit(lib, at, context, q) && q != t ==> Less(t, q)
  }

  lemma {:induction false} TopDecides(
      lib: Lib, at: string, context: Json, rules: seq<PolicyRule>, d: Defaults, t: PolicyRule)
    requires Evaluate(lib, at, context, rules, d).Ok? && !Denies(lib, at, context, rules)
    requires IsTop(lib, at, context, rules, t)
    ensures Verdict(Evaluate(lib, at, context, rules, d)) == Ok(VerdictOf(t))
  {
    hide Evaluate, IsHit, Less;
    WhoDecides(lib, at, context, rules, d);
  }

  lemma {:induction false} DenyDecides(lib: Lib, at: string, context: Json, rules: seq<PolicyRule>, d: Defaults)
    requires Evaluate(lib, at, context, rules, d).Ok? && Denies(lib, at, context, rules)
    ensures Verdict(Evaluate(lib, at, context, rules, d)) == Ok((Deny, None))
  {
    hide Evaluate, IsHit, Less;
    WhoDecides(lib, at, context, rules, d);
  }

  lemma {:induction false} LessThrough(t: PolicyRule, q: PolicyRule, cand: PolicyRule)
    requires (t == q || Less(t, q)) && !Less(cand, q) && cand.name != t.name
    ensures Less(t, cand)
  {
    hide Less;
    LessIsWeakOrder(t, q, cand);
    LessIsWeakOrder(t, q, q);
    LessIsWeakOrder(t, cand, cand);
  }

  /** A candidate below some matching rule leaves the decision where it was. */
  lemma {:induction false} OutrankedCandidate(
      lib: Lib, at: string, context: Json, rules: seq<PolicyRule>, cand: PolicyRule, d: Defaults)
    requires DistinctNames(rules) && forall r :: r in rules ==> r.name != cand.name
    requires Evaluate(lib, at, context, rules, d).Ok? && Evaluate(lib, at, context, rules + [cand], d).Ok?
    requires !Denies(lib, at, context, rules) && cand.decision != Deny && !Outranks(lib, at, context, rules, cand)
    ensures Verdict(Evaluate(lib, at, context, rules + [cand], d)) == Verdict(Evaluate(lib, at, context, rules, d))
  {
    var q :| q in rules && IsHit(lib, at, context, q) && !Less(cand, q);
    var t := TopHit(lib, at, context, rules, d);
    assert t == q || Less(t, q);
    LessThrough(t, q, cand);
    hide Evaluate, IsHit, Less, Denies, IsTop, Outranks;
    TopStays(lib, at, context, rules, cand, t);
    TopDecides(lib, at, context, rules, d, t);
    TopDecides(lib, at, context, rules + [cand], d, t);
  }

  lemma {:induction false} TopStays(
      lib: Lib, at: string, context: Json, rules: seq<PolicyRule>, cand: PolicyRule, t: PolicyRule)
    requires IsTop(lib, at, context, rules, t) && Less(t, cand)
    requires !Denies(lib, at, context, rules) && cand.decision != Deny
    ensures IsTop(lib, at, context, rules + [cand], t) && !Denies(lib, at, context, rules + [cand])
  {
    hide IsHit, Less;
    assert forall q :: q in rules + [cand] <==> q in rules || q == cand;
  }

  /** Adding a candidate of a new name changes the verdict exactly when it takes over. */
  lemma {:induction false} CandidateChangesIff(
      lib: Lib, at: string, context: Json, rules: seq<PolicyRule>, cand: PolicyRule, d: Defaults)
    requires DistinctNames(rules) && forall r :: r in rules ==> r.name != cand.name
    requires Evaluate(lib, at, context, rules, d).Ok? && Evaluate(lib, at, context, rules + [cand], d).Ok?
    ensures Differ(Evaluate(lib, at, context, rules, d).value,
        Evaluate(lib, at, context, rules + [cand], d).value).changed
       <==> TakesOver(lib, at, context, rules, cand, d)
  {
    var all := rules + [cand];
    hide Evaluate, IsHit, Less;
    assert cand in all;
    if !IsHit(lib, at, context, cand) {
      SilentCandidate(lib, at, context, rules, cand, d);
    } else if Denies(lib, at, context, rules) {
      assert Denies(lib, at, context, all);
      DenyDecides(lib, at, context, rules, d);
      DenyDecides(lib, at, context, all, d);
    } else if cand.decision == Deny {
      assert Denies(lib, at, context, all);
      DenyDecides(lib, at, context, all, d);
    } else if Outranks(lib, at, context, rules, cand) {
      assert IsTop(lib, at, context, all, cand) && !Denies(lib, at, context, all);
      TopDecides(lib, at, context, all, d, cand);
    } else {
      OutrankedCandidate(lib, at, context, rules, cand, d);
    }
  }

  lemma {:induction false} ComparedAt(
      lib: Lib, rules: seq<PolicyRule>, other: seq<PolicyRule>, contexts: seq<(string, Json)>, d: Defaults, k: nat)
    requires Compared(lib, rules, other, contexts, d).Ok? && k < |contexts|
    ensures var out, (at, ctx) := Compared(lib, rules, other, contexts, d).value, contexts[k];
            var cur, cand := Evaluate(lib, at, ctx, rules, d), Evaluate(lib, at, ctx, other, d);
            |out| == |contexts| && cur.Ok? && cand.Ok? && out[k] == Differ(cur.value, cand.value)
  {
    hide Evaluate;
    if |contexts| > 1 {
      ComparedAt(lib, rules, other, contexts[1..], d, if k == 0 then 0 else k - 1);
    } else {
      assert Compared(lib, rules, other, contexts[1..], d) == Ok([]);
    }
  }

  lemma {:induction false} ChangesNone(rows: seq<SimulateRow>)
    ensures Changes(rows) == 0 <==> forall k :: 0 <= k < |rows| ==> !rows[k].changed
  {
    if rows != [] {
      ChangesNone(rows[1..]);
      assert forall k :: 0 < k < |rows| ==> rows[k] == rows[1..][k - 1];
    }
  }

  /** No compiled rule stems from a disabled policy or shares its name. */
  lemma {:induction false} DisabledNotCompiled(rows: seq<Row>, i: nat)
    requires Keyed(rows) && i < |rows| && !rows[i].enabled
    ensures forall r :: r in Compiled(rows) ==> r.policyId != rows[i].id && r.name != rows[i].name
  {
    forall r | r in Compiled(rows) ensures r.policyId != rows[i].id && r.name != rows[i].name {
      var j := CompiledFrom(rows, r);
    }
  }

  /** Simulating a disabled policy, with its own or any other rule, changes a row exactly when the
      candidate takes over in that row's context; it reports no change iff it never takes over. */
  lemma {:induction false} DisabledSimulationIff(
      lib: Lib, rows: seq<Row>, i: nat, req: Candidate, contexts: seq<(string, Json)>, d: Defaults)
    requires Keyed(rows) && i < |rows| && !rows[i].enabled
    requires Simulated(lib, rows, Some(rows[i]), req, contexts, d).Ok?
    ensures var r := Simulated(lib, rows, Some(rows[i]), req, contexts, d).value;
            var cand := CandidateRule(Some(rows[i]), req);
            && |r.rows| == |contexts|
            && (forall k :: 0 <= k < |contexts| ==>
                  (r.rows[k].changed <==> TakesOver(lib, contexts[k].0, contexts[k].1, Compiled(rows), cand, d)))
            && (r.changed == 0 <==>
                  forall k :: 0 <= k < |contexts| ==>
                      !TakesOver(lib, contexts[k].0, contexts[k].1, Compiled(rows), cand, d))
  {
    var rules, cand := Compiled(rows), CandidateRule(Some(rows[i]), req);
    var out := Compared(lib, rules, Replaced(rules, cand), contexts, d).value;
    DisabledNotCompiled(rows, i);
    CompiledDistinct(rows);
    FilterAll(OtherThan(cand.policyId), rules);
    assert Replaced(rules, cand) == rules + [cand];
    ChangesNone(out);
    hide Evaluate, Compiled, TakesOver, Differ, Replaced;
    forall k | 0 <= k < |contexts|
      ensures |out| == |contexts| && (out[k].changed <==> TakesOver(lib, contexts[k].0, contexts[k].1, rules, cand, d))
    {
      ComparedAt(lib, rules, rules + [cand], contexts, d, k);
      CandidateChangesIff(lib, contexts[k].0, contexts[k].1, rules, cand, d);
    }
    if contexts == [] {
      assert out == [];
    }
  }

  /** The policy must be enabled: switching a disabled ALLOW policy on by simulation shows up. */
  lemma {:induction false} DisabledSelfSimulation(lib: Lib, role: string)
    ensures var rule := Obj(map["fact" := Str("a"), "op" := Str("not_exists")]);
            var row := Row("p", "open_gate", "*", 0, false, 1, [Version(1, rule, Allow, None, None)]);
            var r := Simulated(lib, [row], Some(row), Candidate(rule, Allow, None), [("*", Obj(map[]))],
                Defaults(RequireApproval, role));
            r.Ok? && r.value.changed == 1
  {
    var rule := Obj(map["fact" := Str("a"), "op" := Str("not_exists")]);
    var row := Row("p", "open_gate", "*", 0, false, 1, [Version(1, rule, Allow, None, None)]);
    var cand := CandidateRule(Some(row), Candidate(rule, Allow, None));
    var context, d := Obj(map[]), Defaults(RequireApproval, role);
    AbsentMatchesIffBlind(lib, rule, context);
    assert Compiled([row]) == [];
    assert Replaced([], cand) == [cand];
    assert Sort(Filter(For("*"), [cand])) == [cand];
    assert Hits(lib, context, [cand]) == Ok([cand]);
    assert FirstDeny([cand]).None?;
    assert Evaluate(lib, "*", context, [cand], d).value.decision == Allow;
    assert Evaluate(lib, "*", context, [], d).value.decision == RequireApproval;
    ComparedOne(lib, [], [cand], "*", context, d);
  }

  // ---------- stored policies ----------

  class Policy {
    const id: string
    const name: string
    const actionType: string
    var description: string
    var priority: int
    var enabled: bool
    var currentVersion: int
    var versions: seq<Version>

    function Snapshot(): Row reads this {
      Row(id, name, actionType, priority, enabled, currentVersion, versions)
    }

    constructor (
        id: string, name: string, description: string, actionType: string, priority: int, enabled: bool,
        data: Candidate, reason: Option<string>)
      ensures this.description == description && Numbered(Snapshot())
      ensures var v := Version(1, data.rule, data.decision, data.requiredRole, reason);
              Snapshot() == Row(id, name, actionType, priority, enabled, 1, [v])
    {
      this.id, this.name, this.description, this.actionType := id, name, description, actionType;
      this.priority, this.enabled, currentVersion := priority, enabled, 1;
      versions := [Version(1, data.rule, data.decision, data.requiredRole, reason)];
    }

    method Update(description: Option<string>, priority: Option<int>, enabled: Option<bool>)
      modifies this`description, this`priority, this`enabled
      ensures this.description == if description.Some? then description.value else old(this.description)
      ensures this.priority == if priority.Some? then priority.value else old(this.priority)
      ensures this.enabled == if enabled.Some? then enabled.value else old(this.enabled)
    {
      if description.Some? {
        this.description := description.value;
      }
      if priority.Some? {
        this.priority := priority.value;
      }
      if enabled.Some? {
        this.enabled := enabled.value;
      }
    }

    method AddVersion(data: Candidate, reason: Option<string>) returns (v: Version)
      requires Numbered(Snapshot())
      modifies this`currentVersion, this`versions
      ensures v == Version(old(currentVersion) + 1, data.rule, data.decision, data.requiredRole, reason)
      ensures versions == old(versions) + [v] && Numbered(Snapshot())
      ensures FindVersion(versions, currentVersion) == Some(v)
    {
      v := Version(currentVersion + 1, data.rule, data.decision, data.requiredRole, reason);
      versions := versions + [v];
      currentVersion := v.version;
      FindNumbered(versions, 1, currentVersion);
    }
  }

  function Snapshots(listed: seq<Policy>): seq<Row>
    reads listed
  {
    if listed == [] then [] else [listed[0].Snapshot()] + Snapshots(listed[1..])
  }

  lemma {:induction false} CompiledCons(out: seq<PolicyRule>, row: Row, rest: seq<Row>)
    ensures var v := FindVersion(row.versions, row.currentVersion);
            out + Compiled([row] + rest)
            == (if row.enabled && v.Some? then out + [RuleOf(row, v.value)] else out) + Compiled(rest)
  {
    assert ([row] + rest)[1..] == rest;
    var v := FindVersion(row.versions, row.currentVersion);
    if row.enabled && v.Some? {
      AppendAssociates(out, [RuleOf(row, v.value)], Compiled(rest));
    }
  }

  method CompiledRules(listed: seq<Policy>) returns (out: seq<PolicyRule>)
    ensures out == Compiled(Snapshots(listed))
  {
    out := [];
    assert listed[0..] == listed && [] + Compiled(Snapshots(listed)) == Compiled(Snapshots(listed));
    for i := 0 to |listed|
      invariant out + Compiled(Snapshots(listed[i..])) == Compiled(Snapshots(listed))
    {
      hide Compiled;
      var p := listed[i];
      assert listed[i..][1..] == listed[i + 1..];
      assert Snapshots(listed[i..]) == [p.Snapshot()] + Snapshots(listed[i + 1..]);
      CompiledCons(out, p.Snapshot(), Snapshots(listed[i + 1..]));
      if !p.enabled {
        continue;
      }
      var v := FindVersion(p.versions, p.currentVersion);
      if v.None? {
        continue;
      }
      out := out + [RuleOf(p.Snapshot(), v.value)];
    }
  }

  function Batch(at: string, samples: seq<Json>): (contexts: seq<(string, Json)>)
    ensures |contexts| == |samples| && forall i :: 0 <= i < |samples| ==> contexts[i] == (at, samples[i])
  {
    seq(|samples|, i requires 0 <= i < |samples| => (at, samples[i]))
  }

  method CompareAll(
      lib: Lib, rules: seq<PolicyRule>, other: seq<PolicyRule>, contexts: seq<(string, Json)>, d: Defaults)
    returns (r: Result<Report, Fault>)
    ensures var c := Compared(lib, rules, other, contexts, d);
            r == if c.Ok? then Ok(Report(c.value, Changes(c.value))) else Err(c.error)
  {
    hide Evaluate;
    var out: seq<SimulateRow>, changed: nat := [], 0;
    assert contexts[0..] == contexts;
    ExtendedEnds(out, Compared(lib, rules, other, contexts, d));
    for i := 0 to |contexts|
      invariant Compared(lib, rules, other, contexts, d) == Extended(out, Compared(lib, rules, other, contexts[i..], d))
      invariant changed == Changes(out)
    {
      assert contexts[i..][1..] == contexts[i + 1..];
      var cur := Evaluate(lib, contexts[i].0, contexts[i].1, rules, d);
      if cur.Err? {
        return Err(cur.error);
      }
      var cand := Evaluate(lib, contexts[i].0, contexts[i].1, other, d);
      if cand.Err? {
        return Err(cand.error);
      }
      var row := Differ(cur.value, cand.value);
      ExtendedStep(out, row, Compared(lib, rules, other, contexts[i + 1..], d));
      ChangesStep(out, row);
      out := out + [row];
      changed := changed + (if row.changed then 1 else 0);
    }
    ExtendedEnds(out, Ok([]));
    return Ok(Report(out, changed));
  }

  method Simulate(
      lib: Lib, listed: seq<Policy>, p: Option<Policy>, req: Candidate, samples: seq<Json>,
      history: seq<(string, Json)>, d: Defaults)
    returns (r: Result<Report, Fault>)
    ensures var at := if p.Some? then p.value.actionType else "*";
            var row := if p.Some? then Some(p.value.Snapshot()) else None;
            r == Simulated(lib, Snapshots(listed), row, req, Batch(at, samples) + history, d)
  {
    var rules := CompiledRules(listed);
    var at := if p.Some? then p.value.actionType else "*";
    var candidate := CandidateRule(if p.Some? then Some(p.value.Snapshot()) else None, req);
    var other := Filter(OtherThan(candidate.policyId), rules) + [candidate];
    r := CompareAll(lib, rules, other, Batch(at, samples) + history, d);
  }

  function Extended(out: seq<SimulateRow>, rest: Result<seq<SimulateRow>, Fault>): Result<seq<SimulateRow>, Fault> {
    if rest.Ok? then Ok(out + rest.value) else rest
  }

  lemma {:induction false} ExtendedEnds(out: seq<SimulateRow>, rest: Result<seq<SimulateRow>, Fault>)
    ensures Extended([], rest) == rest && Extended(out, Ok([])) == Ok(out)
  {
    assert rest.Ok? ==> [] + rest.value == rest.value;
    assert out + [] == out;
  }

  lemma {:induction false} ExtendedStep(out: seq<SimulateRow>, row: SimulateRow, rest: Result<seq<SimulateRow>, Fault>)
    ensures Extended(out + [row], rest) == Extended(out, if rest.Ok? then Ok([row] + rest.value) else rest)
  {
    if rest.Ok? {
      AppendAssociates(out, [row], rest.value);
    }
  }

  lemma {:induction false} ChangesStep(rows: seq<SimulateRow>, row: SimulateRow)
    ensures Changes(rows + [row]) == Changes(rows) + (if row.changed then 1 else 0)
  {
    if rows != [] {
      assert (rows + [row])[1..] == rows[1..] + [row];
      ChangesStep(rows[1..], row);
    }
  }
}
