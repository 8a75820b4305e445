/** Evaluating a tenant's rules: priority order, DENY first, the highest-ranked match otherwise. */
module PolicyEvaluation {
  import opened Common
  import opened StateMachine
  import opened PolicyRules

  datatype PolicyRule = PolicyRule(
    policyId: string, name: string, actionType: string, priority: int, rule: Json,
    decision: Decision, requiredRole: Option<string>, reason: Option<string>, version: int)

  datatype Hit = Hit(policyId: string, name: string, version: int, decision: Decision)

  datatype Evaluation = Evaluation(
    decision: Decision, requiredRole: Option<string>, reason: string, matched: seq<Hit>, defaulted: bool)

  datatype Defaults = Defaults(decision: Decision, role: string)

  // ---------- the order of rules ----------

  predicate Less(r: PolicyRule, q: PolicyRule) {
    r.priority < q.priority || (r.priority == q.priority && Before(r.name, q.name))
  }

  lemma {:induction false} LessIsWeakOrder(r: PolicyRule, q: PolicyRule, s: PolicyRule)
    ensures Less(r, q) ==> !Less(q, r)
    ensures !Less(q, r) && !Less(s, q) ==> !Less(s, r)
    ensures r.name != q.name ==> Less(r, q) || Less(q, r)
  {
    BeforeIsTotal(r.name, q.name);
    BeforeIsTotal(q.name, s.name);
    BeforeIsTotal(r.name, s.name);
    BeforeTransitive(s.name, r.name, q.name);
    BeforeTransitive(q.name, s.name, r.name);
  }

  function Insert(r: PolicyRule, s: seq<PolicyRule>): seq<PolicyRule> {
    if s == [] || !Less(s[0], r) then [r] + s else [s[0]] + Insert(r, s[1..])
  }

  /** Python's `sorted` with the key (priority, name); SortSound and SortStable say it is that sort. */
  function Sort(s: seq<PolicyRule>): seq<PolicyRule> {
    if s == [] then [] else Insert(s[0], Sort(s[1..]))
  }

  ghost predicate InOrder(s: seq<PolicyRule>) {
    forall i, j :: 0 <= i < j < |s| ==> !Less(s[j], s[i])
  }

  lemma {:induction false} InsertSound(r: PolicyRule, s: seq<PolicyRule>)
    requires InOrder(s)
    ensures InOrder(Insert(r, s)) && multiset(Insert(r, s)) == multiset{r} + multiset(s)
  {
    if s != [] {
      assert s == [s[0]] + s[1..];
      if Less(s[0], r) {
        InsertSound(r, s[1..]);
        LessIsWeakOrder(s[0], r, r);
        forall x | x in Insert(r, s[1..]) ensures !Less(x, s[0]) {
          assert x in multiset(Insert(r, s[1..]));
          assert x == r || x in s[1..];
        }
      } else {
        forall x | x in s ensures !Less(x, r) {
          LessIsWeakOrder(r, s[0], x);
        }
      }
    }
  }

  lemma {:induction false} SortSound(s: seq<PolicyRule>)
    ensures InOrder(Sort(s)) && multiset(Sort(s)) == multiset(s)
  {
    if s != [] {
      SortSound(s[1..]);
      InsertSound(s[0], Sort(s[1..]));
      assert s == [s[0]] + s[1..];
    }
  }

  lemma {:induction false} FilterInsert(keep: PolicyRule -> bool, r: PolicyRule, s: seq<PolicyRule>)
    requires InOrder(s)
    ensures Filter(keep, Insert(r, s)) == if keep(r) then Insert(r, Filter(keep, s)) else Filter(keep, s)
  {
    if s != [] {
      if Less(s[0], r) {
        FilterInsert(keep, r, s[1..]);
        assert Insert(r, s)[1..] == Insert(r, s[1..]);
        assert keep(s[0]) ==> Filter(keep, s)[1..] == Filter(keep, s[1..]);
      } else {
        assert Insert(r, s)[1..] == s;
        var f := Filter(keep, s);
        if f != [] {
          FilterIn(keep, s, f[0]);
          LessIsWeakOrder(r, s[0], f[0]);
          assert f[0] == s[0] || !Less(f[0], s[0]);
        }
      }
    }
  }

  /** Filtering before or after sorting is the same. */
  lemma {:induction false} FilterSort(keep: PolicyRule -> bool, s: seq<PolicyRule>)
    ensures Filter(keep, Sort(s)) == Sort(Filter(keep, s))
  {
    if s != [] {
      SortSound(s[1..]);
      FilterInsert(keep, s[0], Sort(s[1..]));
      FilterSort(keep, s[1..]);
      assert keep(s[0]) ==> Filter(keep, s)[1..] == Filter(keep, s[1..]);
    }
  }

  /** Rules of equal key keep the order of the list. */
  lemma {:induction false} SortStable(s: seq<PolicyRule>, r: PolicyRule)
    ensures var same := (q: PolicyRule) => q.priority == r.priority && q.name == r.name;
            Filter(same, Sort(s)) == Filter(same, s)
  {
    var same := (q: PolicyRule) => q.priority == r.priority && q.name == r.name;
    FilterSort(same, s);
    var t := Filter(same, s);
    forall x | x in t ensures x.priority == r.priority && x.name == r.name {
      FilterIn(same, s, x);
    }
    SortOfEquals(t, r);
  }

  lemma {:induction false} SortOfEquals(t: seq<PolicyRule>, r: PolicyRule)
    requires forall x :: x in t ==> x.priority == r.priority && x.name == r.name
    ensures Sort(t) == t
  {
    if t != [] {
      SortOfEquals(t[1..], r);
      if |t| > 1 {
        BeforeIsTotal(t[0].name, t[1].name);
      }
    }
  }

  // ---------- sorting forgets the order of the list ----------

  ghost predicate DistinctNames(s: seq<PolicyRule>) {
    forall i, j :: 0 <= i < j < |s| ==> s[i].name != s[j].name
  }

  lemma {:induction false} InsertCommutes(r: PolicyRule, q: PolicyRule, s: seq<PolicyRule>)
    requires r.name != q.name
    ensures Insert(r, Insert(q, s)) == Insert(q, Insert(r, s))
  {
    LessIsWeakOrder(r, q, q);
    if s != [] {
      LessIsWeakOrder(r, q, s[0]);
      LessIsWeakOrder(q, r, s[0]);
      LessIsWeakOrder(s[0], r, q);
      LessIsWeakOrder(s[0], q, r);
      InsertCommutes(r, q, s[1..]);
      assert Less(s[0], q) ==> Insert(q, s)[1..] == Insert(q, s[1..]);
      assert Less(s[0], r) ==> Insert(r, s)[1..] == Insert(r, s[1..]);
      assert ([q] + s)[1..] == s && ([r] + s)[1..] == s;
    }
  }

  lemma {:induction false} SortExtract(s: seq<PolicyRule>, i: nat)
    requires i < |s| && forall j :: 0 <= j < i ==> s[j].name != s[i].name
    ensures Sort(s) == Insert(s[i], Sort(s[..i] + s[i + 1..]))
  {
    if i == 0 {
      assert s[..0] + s[1..] == s[1..];
    } else {
      SortExtract(s[1..], i - 1);
      var rest := s[..i] + s[i + 1..];
      assert rest[1..] == s[1..][..i - 1] + s[1..][i..];
      InsertCommutes(s[0], s[i], Sort(rest[1..]));
    }
  }

  lemma {:induction false} Without<T>(s: seq<T>, i: nat)
    requires i < |s|
    ensures multiset(s[..i] + s[i + 1..]) == multiset(s) - multiset{s[i]}
  {
    assert s == s[..i] + [s[i]] + s[i + 1..];
  }

  lemma {:induction false} FindHead<T>(p: seq<T>, q: seq<T>) returns (i: nat)
    requires multiset(p) == multiset(q) && p != []
    ensures i < |q| && q[i] == p[0] && multiset(q[..i] + q[i + 1..]) == multiset(p[1..])
  {
    assert p[0] in multiset(q);
    i :| 0 <= i < |q| && q[i] == p[0];
    Without(q, i);
    Without(p, 0);
    assert p[..0] + p[1..] == p[1..];
  }

  lemma {:induction false} SortForgetsOrder(p: seq<PolicyRule>, q: seq<PolicyRule>)
    requires multiset(p) == multiset(q) && DistinctNames(p)
    ensures Sort(p) == Sort(q)
  {
    if p == [] {
      assert |q| == |multiset(q)|;
    } else {
      var i := FindHead(p, q);
      var rest := q[..i] + q[i + 1..];
      forall j | 0 <= j < i ensures q[j].name != p[0].name {
        assert rest[j] == q[j] && rest[j] in multiset(rest);
        assert q[j] in p[1..];
      }
      SortExtract(q, i);
      SortForgetsOrder(p[1..], rest);
    }
  }

  // ---------- evaluation ----------

  function For(actionType: string): PolicyRule -> bool {
    (r: PolicyRule) => r.actionType == actionType || r.actionType == "*"
  }

  function Holds(lib: Lib, context: Json): PolicyRule -> bool {
    (r: PolicyRule) => Matches(lib, r.rule, context) == Ok(true)
  }

  function Hits(lib: Lib, context: Json, rules: seq<PolicyRule>): Result<seq<PolicyRule>, Fault> {
    if rules == [] then Ok([])
    else
      match Matches(lib, rules[0].rule, context)
      case Err(e) => Err(e)
      case Ok(b) =>
        match Hits(lib, context, rules[1..])
        case Err(e) => Err(e)
        case Ok(rest) => Ok(if b then [rules[0]] + rest else rest)
  }

  function Or(text: Option<string>, other: string): string {
    if text.Some? && text.value != "" then text.value else other
  }

  function FirstDeny(hits: seq<PolicyRule>): Option<PolicyRule> {
    if hits == [] then None else if hits[0].decision == Deny then Some(hits[0]) else FirstDeny(hits[1..])
  }

  function Report(hits: seq<PolicyRule>): (r: seq<Hit>)
    ensures |r| == |hits|
  {
    seq(|hits|, i requires 0 <= i < |hits| => Hit(hits[i].policyId, hits[i].name, hits[i].version, hits[i].decision))
  }

  function Choose(hits: seq<PolicyRule>, d: Defaults): Evaluation {
    var deny := FirstDeny(hits);
    if deny.Some? then Evaluation(Deny, None, Or(deny.value.reason, "denied by " + deny.value.name), Report(hits),
        false)
    else if hits == [] then
      Evaluation(d.decision, if d.decision == RequireApproval then Some(d.role) else None,
                 "no policy matched; default applied", [], true)
    else
      var r := hits[0];
      if r.decision == RequireApproval
      then Evaluation(RequireApproval, Some(Or(r.requiredRole, "analyst")),
          Or(r.reason, "approval required by " + r.name), Report(hits), false)
      else Evaluation(Allow, None, Or(r.reason, "allowed by " + r.name), Report(hits), false)
  }

  function Decide(hits: Result<seq<PolicyRule>, Fault>, d: Defaults): Result<Evaluation, Fault> {
    match hits
    case Err(e) => Err(e)
    case Ok(hs) => Ok(Choose(hs, d))
  }

  function Evaluate(lib: Lib, actionType: string, context: Json, rules: seq<PolicyRule>, d: Defaults)
      : Result<Evaluation, Fault>
  {
    Decide(Hits(lib, context, Sort(Filter(For(actionType), rules))), d)
  }

  // ---------- order independence ----------

  /** With unique rule names the order of the list does not matter, for errors included. */
  lemma {:induction false} OrderIndependent(
      lib: Lib, actionType: string, context: Json, p: seq<PolicyRule>, q: seq<PolicyRule>, d: Defaults)
    requires multiset(p) == multiset(q) && DistinctNames(p)
    ensures Evaluate(lib, actionType, context, p, d) == Evaluate(lib, actionType, context, q, d)
  {
    FilterSort(For(actionType), p);
    FilterSort(For(actionType), q);
    SortForgetsOrder(p, q);
  }

  // ---------- silent rules ----------

  lemma {:induction false} FiltersCommute<T>(f: T -> bool, g: T -> bool, s: seq<T>)
    ensures Filter(f, Filter(g, s)) == Filter(g, Filter(f, s))
  {
    if s != [] {
      FiltersCommute(f, g, s[1..]);
    }
  }

  lemma {:induction false} HitsSkip(lib: Lib, context: Json, keep: PolicyRule -> bool, s: seq<PolicyRule>)
    requires forall r :: r in s && !keep(r) ==> Matches(lib, r.rule, context) == Ok(false)
    ensures Hits(lib, context, Filter(keep, s)) == Hits(lib, context, s)
  {
    if s != [] {
      assert s[0] in s;
      HitsSkip(lib, context, keep, s[1..]);
      assert keep(s[0]) ==> Filter(keep, s)[1..] == Filter(keep, s[1..]);
    }
  }

  /** Rules that apply but do not match can be dropped. */
  lemma {:induction false} SilentRulesDrop(
      lib: Lib, actionType: string, context: Json, keep: PolicyRule -> bool, rules: seq<PolicyRule>, d: Defaults)
    requires forall r :: r in rules && !keep(r) && For(actionType)(r) ==> Matches(lib, r.rule, context) == Ok(false)
    ensures Evaluate(lib, actionType, context, Filter(keep, rules), d) == Evaluate(lib, actionType, context, rules, d)
  {
    var app := Filter(For(actionType), rules);
    FiltersCommute(For(actionType), keep, rules);
    FilterSort(keep, app);
    forall r | r in Sort(app) && !keep(r) ensures Matches(lib, r.rule, context) == Ok(false) {
      SortSound(app);
      assert r in multiset(Sort(app));
      FilterIn(For(actionType), rules, r);
    }
    HitsSkip(lib, context, keep, Sort(app));
  }

  // ---------- which rule decides ----------

  predicate IsHit(lib: Lib, actionType: string, context: Json, r: PolicyRule) {
    For(actionType)(r) && Holds(lib, context)(r)
  }

  lemma {:induction false} HitsAre(lib: Lib, context: Json, s: seq<PolicyRule>)
    ensures Hits(lib, context, s).Ok? <==> forall r :: r in s ==> Matches(lib, r.rule, context).Ok?
    ensures Hits(lib, context, s).Ok? ==> Hits(lib, context, s).value == Filter(Holds(lib, context), s)
  {
    if s != [] {
      assert s[0] in s;
      HitsAre(lib, context, s[1..]);
    }
  }

  lemma {:induction false} FirstDenyFound(hits: seq<PolicyRule>)
    ensures FirstDeny(hits).Some? <==> exists r :: r in hits && r.decision == Deny
  {
    if hits != [] {
      FirstDenyFound(hits[1..]);
    }
  }

  /** The matching rules in order, whatever the order of the list. */
  lemma {:induction false} HitsFound(lib: Lib, actionType: string, context: Json, rules: seq<PolicyRule>)
    returns (hits: seq<PolicyRule>)
    requires Hits(lib, context, Sort(Filter(For(actionType), rules))).Ok?
    ensures hits == Hits(lib, context, Sort(Filter(For(actionType), rules))).value && InOrder(hits)
    ensures forall r :: r in hits <==> r in rules && IsHit(lib, actionType, context, r)
  {
    var app := Filter(For(actionType), rules);
    HitsAre(lib, context, Sort(app));
    hits := Hits(lib, context, Sort(app)).value;
    FilterSort(Holds(lib, context), app);
    SortSound(Filter(Holds(lib, context), app));
    forall r ensures r in hits <==> r in rules && IsHit(lib, actionType, context, r) {
      assert r in hits <==> r in multiset(hits);
      FilterIn(Holds(lib, context), app, r);
      FilterIn(For(actionType), rules, r);
    }
  }

  /** The report names exactly the matching rules. */
  lemma {:induction false} MatchesReported(
      lib: Lib, actionType: string, context: Json, rules: seq<PolicyRule>, d: Defaults, h: Hit)
    requires Evaluate(lib, actionType, context, rules, d).Ok?
    ensures h in Evaluate(lib, actionType, context, rules, d).value.matched <==>
            exists r :: r in rules && IsHit(lib, actionType, context, r)
                && h == Hit(r.policyId, r.name, r.version, r.decision)
  {
    var hits := HitsFound(lib, actionType, context, rules);
    var report := Report(hits);
    assert Evaluate(lib, actionType, context, rules, d).value.matched == report;
    hide Evaluate, IsHit;
    if i :| 0 <= i < |report| && report[i] == h {
      assert hits[i] in hits;
    }
    if r :| r in rules && IsHit(lib, actionType, context, r) && h == Hit(r.policyId, r.name, r.version, r.decision) {
      var k :| 0 <= k < |hits| && hits[k] == r;
      assert report[k] == h;
    }
  }

  /** A matching DENY wins; otherwise the matching rule above all others decides; the default stands in
      exactly when nothing matches. */
  lemma {:induction false} WhoDecides(lib: Lib, actionType: string, context: Json, rules: seq<PolicyRule>, d: Defaults)
    requires Evaluate(lib, actionType, context, rules, d).Ok?
    ensures var e := Evaluate(lib, actionType, context, rules, d).value;
            && (e.defaulted <==> forall r :: r in rules ==> !IsHit(lib, actionType, context, r))
            && (e.defaulted ==>
                  && e.decision == d.decision
                  && e.requiredRole == if d.decision == RequireApproval then Some(d.role) else None)
            && (e.decision == Deny ==> e.requiredRole == None)
            && (!e.defaulted ==> (e.decision == Deny <==>
                  exists r :: r in rules && IsHit(lib, actionType, context, r) && r.decision == Deny))
            && (forall r :: (r in rules && IsHit(lib, actionType, context, r) && e.decision != Deny
                    && forall q :: q in rules && IsHit(lib, actionType, context, q) && q != r ==> Less(r, q)) ==>
                  && e.decision == r.decision
                  && e.requiredRole == if r.decision == RequireApproval then Some(Or(r.requiredRole, "analyst"))
                      else None)
  {
    var hits := HitsFound(lib, actionType, context, rules);
    FirstDenyFound(hits);
    assert hits != [] ==> hits[0] in hits;
    var e := Evaluate(lib, actionType, context, rules, d).value;
    forall r | r in rules && IsHit(lib, actionType, context, r) && e.decision != Deny
        && (forall q :: q in rules && IsHit(lib, actionType, context, q) && q != r ==> Less(r, q))
      ensures e.decision == r.decision
      ensures e.requiredRole == if r.decision == RequireApproval then Some(Or(r.requiredRole, "analyst")) else None
    {
      var i :| 0 <= i < |hits| && hits[i] == r;
      assert hits[0] in hits && (i > 0 ==> !Less(r, hits[0]));
      assert forall q :: q in hits && q != r ==> Less(r, q);
    }
  }

  /** Adding rules anywhere never leaves a DENY that a rule gave. */
  lemma {:induction false} MoreRulesStayDenied(
      lib: Lib, actionType: string, context: Json, rules: seq<PolicyRule>, more: seq<PolicyRule>, d: Defaults)
    requires forall r :: r in rules ==> r in more
    requires Evaluate(lib, actionType, context, rules, d).Ok? && Evaluate(lib, actionType, context, more, d).Ok?
    ensures var e, f := Evaluate(lib, actionType, context, rules, d).value,
        Evaluate(lib, actionType, context, more, d).value;
            e.decision == Deny && !e.defaulted ==> f.decision == Deny && !f.defaulted
  {
    hide Evaluate;
    WhoDecides(lib, actionType, context, rules, d);
    WhoDecides(lib, actionType, context, more, d);
  }

  lemma {:induction false} EvaluateOkIff(
      lib: Lib, actionType: string, context: Json, rules: seq<PolicyRule>, d: Defaults)
    ensures Evaluate(lib, actionType, context, rules, d).Ok? <==>
            forall r :: r in rules && For(actionType)(r) ==> Matches(lib, r.rule, context).Ok?
  {
    var app := Filter(For(actionType), rules);
    HitsAre(lib, context, Sort(app));
    SortSound(app);
    forall r ensures r in Sort(app) <==> r in rules && For(actionType)(r) {
      assert r in Sort(app) <==> r in multiset(Sort(app));
      FilterIn(For(actionType), rules, r);
    }
  }

  ghost predicate Denies(lib: Lib, actionType: string, context: Json, rules: seq<PolicyRule>) {
    exists r :: r in rules && IsHit(lib, actionType, context, r) && r.decision == Deny
  }

  /** Some rule list that contains `rules` evaluates to something else than DENY. */
  ghost predicate CanLeaveDeny(lib: Lib, actionType: string, context: Json, rules: seq<PolicyRule>, d: Defaults) {
    exists more: seq<PolicyRule> ::
      && (forall r :: r in rules ==> r in more)
      && Evaluate(lib, actionType, context, more, d).Ok?
      && Evaluate(lib, actionType, context, more, d).value.decision != Deny
  }

  /** A validated rule that holds in every context. */
  function Always(): Json {
    var seen, missing := Obj(map["fact" := Str("a"), "op" := Str("exists")]),
        Obj(map["fact" := Str("a"), "op" := Str("not_exists")]);
    Obj(map["any" := Arr([seen, missing])])
  }

  lemma {:induction false} AlwaysHolds(lib: Lib, context: Json)
    ensures Valid(Always()) && Matches(lib, Always(), context) == Ok(true)
  {
    var subs := Always().fields["any"].items;
    assert subs[1..] == [subs[1]] && subs[1..][1..] == [];
    assert MatchLeaf(lib, subs[0], context).Ok?;
    assert MatchLeaf(lib, subs[1], context) == Negate(MatchLeaf(lib, subs[0], context));
    assert FirstObjection(subs[1..]).None?;
    assert Combine(lib, false, subs[1..], context) == Ok(MatchLeaf(lib, subs[1], context).value);
  }

  function Opening(decision: Decision): PolicyRule {
    PolicyRule("new", "open_gate", "*", 0, Always(), decision, None, None, 1)
  }

  /** Added to rules of which none matches, an always-matching rule decides. */
  lemma {:induction false} OpeningDecides(
      lib: Lib, actionType: string, context: Json, rules: seq<PolicyRule>, d: Defaults, decision: Decision)
    requires Evaluate(lib, actionType, context, rules, d).Ok?
    requires forall r :: r in rules ==> !IsHit(lib, actionType, context, r)
    ensures var e := Evaluate(lib, actionType, context, rules + [Opening(decision)], d);
        e.Ok? && e.value.decision == decision
  {
    var x := Opening(decision);
    AlwaysHolds(lib, context);
    assert IsHit(lib, actionType, context, x);
    EvaluateOkIff(lib, actionType, context, rules, d);
    EvaluateOkIff(lib, actionType, context, rules + [x], d);
    hide Evaluate, Opening;
    WhoDecides(lib, actionType, context, rules + [x], d);
    assert x in rules + [x];
  }

  /** A DENY is safe from every addition of rules exactly when some matching rule gives it. */
  lemma {:induction false} DenySurvivesIff(
      lib: Lib, actionType: string, context: Json, rules: seq<PolicyRule>, d: Defaults)
    requires Evaluate(lib, actionType, context, rules, d).Ok?
    ensures !CanLeaveDeny(lib, actionType, context, rules, d) <==> Denies(lib, actionType, context, rules)
  {
    hide Evaluate;
    WhoDecides(lib, actionType, context, rules, d);
    if Denies(lib, actionType, context, rules) {
      forall more: seq<PolicyRule> | (forall r :: r in rules ==> r in more)
          && Evaluate(lib, actionType, context, more, d).Ok?
        ensures Evaluate(lib, actionType, context, more, d).value.decision == Deny
      {
        WhoDecides(lib, actionType, context, more, d);
      }
    } else if forall r :: r in rules ==> !IsHit(lib, actionType, context, r) {
      OpeningDecides(lib, actionType, context, rules, d, Allow);
    }
  }

  /** With no rules at all a default DENY is left by adding an ALLOW or a REQUIRE_APPROVAL rule. */
  lemma {:induction false} DefaultDenyIsLeft(lib: Lib, role: string)
    ensures var d, context := Defaults(Deny, role), Obj(map[]);
            && Evaluate(lib, "CLOSE", context, [], d).Ok?
                && Evaluate(lib, "CLOSE", context, [], d).value.decision == Deny
            && (forall decision: Decision ::
                  var e := Evaluate(lib, "CLOSE", context, [Opening(decision)], d);
                      e.Ok? && e.value.decision == decision)
  {
    var d, context := Defaults(Deny, role), Obj(map[]);
    EvaluateOkIff(lib, "CLOSE", context, [], d);
    WhoDecides(lib, "CLOSE", context, [], d);
    forall decision: Decision
      ensures var e := Evaluate(lib, "CLOSE", context, [Opening(decision)], d); e.Ok? && e.value.decision == decision
    {
      OpeningDecides(lib, "CLOSE", context, [], d, decision);
      assert [] + [Opening(decision)] == [Opening(decision)];
    }
  }

}
