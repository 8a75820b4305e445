/** What an evaluation answers and what a simulation reports, field by field, on the rules and policies given. */
module EvaluationLaws {
  import opened Common
  import opened StateMachine
  import opened PolicyRules
  import opened PolicyEvaluation
  import S = PolicyService

  // ---------- rank ----------

  /** `a` comes before `b`: it ends first, or has the smaller character, where they first differ. */
  predicate ComesBefore(a: string, b: string) {
    exists i | 0 <= i <= |a| && i < |b| :: a[..i] == b[..i] && (i == |a| || a[i] < b[i])
  }

  lemma {:induction false} BeforeIs(a: string, b: string)
    ensures Before(a, b) <==> ComesBefore(a, b)
  {
    if a != [] && b != [] && a[0] == b[0] {
      BeforeIs(a[1..], b[1..]);
      if ComesBefore(a[1..], b[1..]) {
        var i :| 0 <= i <= |a[1..]| && i < |b[1..]| && a[1..][..i] == b[1..][..i]
                 && (i == |a[1..]| || a[1..][i] < b[1..][i]);
        assert a[..i + 1] == [a[0]] + a[1..][..i] && b[..i + 1] == [b[0]] + b[1..][..i];
      }
      if ComesBefore(a, b) {
        var i :| 0 <= i <= |a| && i < |b| && a[..i] == b[..i] && (i == |a| || a[i] < b[i]);
        assert i > 0;
        assert a[1..][..i - 1] == a[..i][1..] && b[1..][..i - 1] == b[..i][1..];
      }
    } else if b != [] {
      assert a[..0] == b[..0];
      if ComesBefore(a, b) {
        var i :| 0 <= i <= |a| && i < |b| && a[..i] == b[..i] && (i == |a| || a[i] < b[i]);
        if i > 0 {
          HeadShared(a, b, i);
        }
      }
    }
  }

  lemma {:induction false} HeadShared(a: string, b: string, i: nat)
    requires 0 < i <= |a| && i <= |b| && a[..i] == b[..i]
    ensures a[0] == b[0]
  {
    assert a[..i][0] == b[..i][0];
  }

  /** The lower number ranks first; among equal numbers the name that comes first. */
  lemma {:induction false} LowerNumberFirst(r: PolicyRule, q: PolicyRule)
    ensures Less(r, q) <==> r.priority < q.priority || (r.priority == q.priority && ComesBefore(r.name, q.name))
  {
    BeforeIs(r.name, q.name);
    hide Before;
  }

  // ---------- evaluations ----------

  predicate Applies(r: PolicyRule, actionType: string) {
    r.actionType == actionType || r.actionType == "*"
  }

  function Applying(actionType: string): PolicyRule -> bool {
    (r: PolicyRule) => Applies(r, actionType)
  }

  lemma {:induction false} FilterSame<T>(f: T -> bool, g: T -> bool, s: seq<T>)
    requires forall x :: x in s ==> f(x) == g(x)
    ensures Filter(f, s) == Filter(g, s)
  {
    if s != [] {
      FilterSame(f, g, s[1..]);
    }
  }

  lemma {:induction false} FilterTwice<T>(f: T -> bool, g: T -> bool, both: T -> bool, s: seq<T>)
    requires forall x :: both(x) <==> f(x) && g(x)
    ensures Filter(f, Filter(g, s)) == Filter(both, s)
  {
    if s != [] {
      FilterTwice(f, g, both, s[1..]);
      assert g(s[0]) ==> Filter(g, s)[1..] == Filter(g, s[1..]);
    }
  }

  function Matching(lib: Lib, actionType: string, context: Json): PolicyRule -> bool {
    (r: PolicyRule) => Applies(r, actionType) && Matches(lib, r.rule, context) == Ok(true)
  }

  lemma {:induction false} HitsSorted(lib: Lib, actionType: string, context: Json, rules: seq<PolicyRule>)
    requires Hits(lib, context, Sort(Filter(For(actionType), rules))).Ok?
    ensures Hits(lib, context, Sort(Filter(For(actionType), rules))).value
         == Sort(Filter(Matching(lib, actionType, context), rules))
  {
    var app := Filter(For(actionType), rules);
    HitsAre(lib, context, Sort(app));
    FilterSort(Holds(lib, context), app);
    FilterTwice(Holds(lib, context), For(actionType), Matching(lib, actionType, context), rules);
  }

  lemma {:induction false} FirstDenyIs(hits: seq<PolicyRule>, k: nat)
    requires k < |hits| && hits[k].decision == Deny && forall j :: 0 <= j < k ==> hits[j].decision != Deny
    ensures FirstDeny(hits) == Some(hits[k])
  {
    if k > 0 {
      FirstDenyIs(hits[1..], k - 1);
    }
  }

  function Reason(r: PolicyRule, otherwise: string): string {
    if r.reason.Some? && r.reason.value != "" then r.reason.value else otherwise + r.name
  }

  function RoleAsked(r: PolicyRule): string {
    if r.requiredRole.Some? && r.requiredRole.value != "" then r.requiredRole.value else "analyst"
  }

  /** The answer to the matching rules in rank order: all are reported; the first DENY among them decides with its
      reason, else the first of all, and the default if there is none. */
  ghost predicate Answers(e: Evaluation, hits: seq<PolicyRule>, d: Defaults) {
    && |e.matched| == |hits|
    && (forall i :: 0 <= i < |hits| ==>
          e.matched[i] == Hit(hits[i].policyId, hits[i].name, hits[i].version, hits[i].decision))
    && (hits == [] ==>
          e == Evaluation(d.decision, if d.decision == RequireApproval then Some(d.role) else None,
                          "no policy matched; default applied", [], true))
    && (hits != [] ==> !e.defaulted)
    && (forall k :: 0 <= k < |hits| && hits[k].decision == Deny
                    && (forall j :: 0 <= j < k ==> hits[j].decision != Deny) ==>
          e.decision == Deny && e.requiredRole == None && e.reason == Reason(hits[k], "denied by "))
    && (hits != [] && (forall j :: 0 <= j < |hits| ==> hits[j].decision != Deny) ==>
          && e.decision == hits[0].decision
          && e.requiredRole == (if e.decision == RequireApproval then Some(RoleAsked(hits[0])) else None)
          && e.reason == Reason(hits[0], if e.decision == RequireApproval then "approval required by "
                                         else "allowed by "))
  }

  lemma {:induction false} ChooseAnswers(hits: seq<PolicyRule>, d: Defaults)
    ensures Answers(Choose(hits, d), hits, d)
  {
    var e := Choose(hits, d);
    FirstDenyFound(hits);
    assert hits == [] ==> FirstDeny(hits).None?;
    hide FirstDeny;
    forall k | 0 <= k < |hits| && hits[k].decision == Deny && (forall j :: 0 <= j < k ==> hits[j].decision != Deny)
      ensures e.decision == Deny && e.requiredRole == None && e.reason == Reason(hits[k], "denied by ")
    {
      FirstDenyIs(hits, k);
    }
  }

  /** The whole answer, on the rules of the action's type, or of any type, that match the context. */
  lemma {:induction false} AnswersExactly(
      lib: Lib, actionType: string, context: Json, rules: seq<PolicyRule>, d: Defaults)
    requires Evaluate(lib, actionType, context, rules, d).Ok?
    ensures Answers(Evaluate(lib, actionType, context, rules, d).value,
                    Sort(Filter(Matching(lib, actionType, context), rules)), d)
  {
    HitsSorted(lib, actionType, context, rules);
    ChooseAnswers(Sort(Filter(Matching(lib, actionType, context), rules)), d);
    hide Sort, Filter, Matching, Matches, Choose, Answers;
  }

  /** Matching the rules one after another fails as the first that fails. */
  ghost predicate FailsFirst(lib: Lib, context: Json, s: seq<PolicyRule>, e: Fault) {
    exists i :: 0 <= i < |s| && Matches(lib, s[i].rule, context) == Err(e)
                && forall j :: 0 <= j < i ==> Matches(lib, s[j].rule, context).Ok?
  }

  lemma {:induction false} HitsFail(lib: Lib, context: Json, s: seq<PolicyRule>)
    requires Hits(lib, context, s).Err?
    ensures FailsFirst(lib, context, s, Hits(lib, context, s).error)
  {
    if Matches(lib, s[0].rule, context).Ok? {
      var rest, e := s[1..], Hits(lib, context, s).error;
      HitsFail(lib, context, rest);
      var i :| 0 <= i < |rest| && Matches(lib, rest[i].rule, context) == Err(e)
               && forall j :: 0 <= j < i ==> Matches(lib, rest[j].rule, context).Ok?;
      assert s[i + 1] == rest[i] && forall j :: 0 < j < i + 1 ==> s[j] == rest[j - 1];
    }
  }

  /** An evaluation that fails fails as the first failing rule of the action's type in rank order. */
  lemma {:induction false} FailsAsFirst(
      lib: Lib, actionType: string, context: Json, rules: seq<PolicyRule>, d: Defaults)
    requires Evaluate(lib, actionType, context, rules, d).Err?
    ensures FailsFirst(lib, context, Sort(Filter(Applying(actionType), rules)),
                       Evaluate(lib, actionType, context, rules, d).error)
  {
    FilterSame(Applying(actionType), For(actionType), rules);
    hide FailsFirst;
    HitsFail(lib, context, Sort(Filter(For(actionType), rules)));
  }

  // ---------- simulations ----------

  lemma {:induction false} VersionIs(versions: seq<S.Version>, number: int)
    ensures var v := S.FindVersion(versions, number);
            match v
            case None => forall i :: 0 <= i < |versions| ==> versions[i].version != number
            case Some(x) => exists i :: 0 <= i < |versions| && versions[i] == x && x.version == number
                                        && forall j :: 0 <= j < i ==> versions[j].version != number
  {
    if versions != [] && versions[0].version != number {
      VersionIs(versions[1..], number);
      assert forall i :: 0 < i < |versions| ==> versions[i] == versions[1..][i - 1];
      if S.FindVersion(versions[1..], number).Some? {
        var i :| 0 <= i < |versions[1..]| && versions[1..][i] == S.FindVersion(versions, number).value
                 && forall j :: 0 <= j < i ==> versions[1..][j].version != number;
        assert versions[i + 1] == S.FindVersion(versions, number).value;
      }
    }
  }

  /** A list of policies is compiled one by one in order; an enabled one gives its current version, and one that is
      disabled or lacks it gives nothing. */
  lemma {:induction false} CompilesOneByOne(row: S.Row, rows: seq<S.Row>)
    ensures S.Compiled([]) == [] && S.Compiled([row] + rows) == S.Compiled([row]) + S.Compiled(rows)
    ensures var rules := S.Compiled([row]);
            if row.enabled && (exists i :: 0 <= i < |row.versions| && row.versions[i].version == row.currentVersion)
            then exists i :: 0 <= i < |row.versions| && row.versions[i].version == row.currentVersion
                             && (forall j :: 0 <= j < i ==> row.versions[j].version != row.currentVersion)
                             && var v := row.versions[i];
                                rules == [PolicyRule(row.id, row.name, row.actionType, row.priority, v.rule,
                                                     v.decision, v.requiredRole, v.reason, v.version)]
            else rules == []
  {
    S.CompiledConcat([row], rows);
    VersionIs(row.versions, row.currentVersion);
    assert [row][1..] == [];
    hide S.FindVersion;
  }

  lemma {:induction false} CountedOnce(rows: seq<S.SimulateRow>)
    ensures |set k: nat | k < |rows| && rows[k].changed| == S.Changes(rows)
  {
    if rows != [] {
      var n := |rows| - 1;
      var front, last := rows[..n], rows[n];
      assert rows == front + [last];
      CountedOnce(front);
      S.ChangesStep(front, last);
      var all, some := set k: nat | k < |rows| && rows[k].changed, set k: nat | k < |front| && front[k].changed;
      assert all == if last.changed then some + {n} else some;
    }
  }

  /** The rule put in the policy's place: its own name, type and priority if there is one, one version on. */
  function CandidateFor(p: Option<S.Row>, req: S.Candidate): PolicyRule {
    if p.Some?
    then PolicyRule(p.value.id, p.value.name, p.value.actionType, p.value.priority, req.rule, req.decision,
                    req.requiredRole, None, p.value.currentVersion + 1)
    else PolicyRule("candidate", "candidate", "*", 0, req.rule, req.decision, req.requiredRole, None, 1)
  }

  /** A simulation compares, context by context, the rules in force with the same rules less the policy's own and
      plus the candidate; a row has changed if the decision or the required role differs. */
  lemma {:induction false} SimulatesExactly(
      lib: Lib, rows: seq<S.Row>, p: Option<S.Row>, req: S.Candidate, contexts: seq<(string, Json)>, d: Defaults)
    ensures var r, cand := S.Simulated(lib, rows, p, req, contexts, d), CandidateFor(p, req);
            var rules := S.Compiled(rows);
            var others := Filter((q: PolicyRule) => q.policyId != cand.policyId, rules) + [cand];
            && (r.Ok? <==> forall k :: 0 <= k < |contexts| ==>
                  && Evaluate(lib, contexts[k].0, contexts[k].1, rules, d).Ok?
                  && Evaluate(lib, contexts[k].0, contexts[k].1, others, d).Ok?)
            && (r.Ok? ==>
                  && |r.value.rows| == |contexts|
                  && r.value.changed == |set k: nat | k < |contexts| && r.value.rows[k].changed|
                  && forall k :: 0 <= k < |contexts| ==>
                       var now := Evaluate(lib, contexts[k].0, contexts[k].1, rules, d).value;
                       var then' := Evaluate(lib, contexts[k].0, contexts[k].1, others, d).value;
                       && r.value.rows[k].current == now.decision && r.value.rows[k].candidate == then'.decision
                       && (r.value.rows[k].changed <==>
                             now.decision != then'.decision || now.requiredRole != then'.requiredRole))
  {
    var cand, rules := CandidateFor(p, req), S.Compiled(rows);
    assert S.CandidateRule(p, req) == cand;
    FilterSame((q: PolicyRule) => q.policyId != cand.policyId, S.OtherThan(cand.policyId), rules);
    var others := S.Replaced(rules, cand);
    hide Evaluate, Filter, S.Compiled, S.OtherThan;
    ComparedIff(lib, rules, others, contexts, d);
    var c := S.Compared(lib, rules, others, contexts, d);
    if c.Ok? {
      CountedOnce(c.value);
      hide S.Compared;
      forall k | 0 <= k < |contexts|
        ensures |c.value| == |contexts| && Evaluate(lib, contexts[k].0, contexts[k].1, rules, d).Ok?
                && Evaluate(lib, contexts[k].0, contexts[k].1, others, d).Ok?
                && c.value[k] == S.Differ(Evaluate(lib, contexts[k].0, contexts[k].1, rules, d).value,
                                          Evaluate(lib, contexts[k].0, contexts[k].1, others, d).value)
      {
        S.ComparedAt(lib, rules, others, contexts, d, k);
      }
    }
  }

  lemma {:induction false} ComparedIff(
      lib: Lib, rules: seq<PolicyRule>, others: seq<PolicyRule>, contexts: seq<(string, Json)>, d: Defaults)
    ensures var c := S.Compared(lib, rules, others, contexts, d);
            && (c.Ok? <==> forall k :: 0 <= k < |contexts| ==>
                  && Evaluate(lib, contexts[k].0, contexts[k].1, rules, d).Ok?
                  && Evaluate(lib, contexts[k].0, contexts[k].1, others, d).Ok?)
            && (c.Ok? ==> |c.value| == |contexts|)
  {
    hide Evaluate;
    if contexts != [] {
      ComparedIff(lib, rules, others, contexts[1..], d);
      assert forall k :: 0 < k < |contexts| ==> contexts[k] == contexts[1..][k - 1];
    }
  }
}
