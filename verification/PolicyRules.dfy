/** The policy rule language: facts, comparisons, validation and matching. */
module PolicyRules {
  import opened Common

  /** A JSON value; every number is the exact decimal it denotes. */
  datatype Json =
    | Null
    | Bool(b: bool)
    | Num(n: real)
    | Str(s: string)
    | Arr(items: seq<Json>)
    | Obj(fields: map<string, Json>)

  /** What the Python runtime decides: decimal syntax, `re.search` (None: it raises), `str`. */
  datatype Lib = Lib(decimal: string -> Option<real>, search: (Json, string) -> Option<bool>, str: Json -> string)

  /** How a rule can fail: refused by validation, an operator nobody knows, or an untyped operand. */
  datatype Fault = Malformed | UnknownOperator | TypeFault

  // ---------- facts ----------

  /** `path.split(".")`. */
  function Split(path: string): (parts: seq<string>)
    ensures |parts| >= 1
  {
    if path == "" then [""]
    else
      var rest := Split(path[1..]);
      if path[0] == '.' then [""] + rest else [[path[0]] + rest[0]] + rest[1..]
  }

  function Join(parts: seq<string>): string
    requires parts != []
  {
    if |parts| == 1 then parts[0] else parts[0] + "." + Join(parts[1..])
  }

  /** The parts are the dot-free pieces of the path. */
  lemma {:induction false} SplitJoins(path: string)
    ensures Join(Split(path)) == path && forall i :: 0 <= i < |Split(path)| ==> '.' !in Split(path)[i]
  {
    if path != "" {
      var rest := Split(path[1..]);
      SplitJoins(path[1..]);
      if path[0] == '.' {
        assert Split(path)[1..] == rest;
      } else {
        assert Split(path)[1..] == rest[1..];
      }
    }
  }

  function Lookup(cur: Json, parts: seq<string>): Option<Json> {
    if parts == [] then Some(cur)
    else if cur.Obj? && parts[0] in cur.fields then Lookup(cur.fields[parts[0]], parts[1..])
    else None
  }

  function Fact(context: Json, path: string): Option<Json> {
    Lookup(context, Split(path))
  }

  method GetFact(context: Json, path: string) returns (value: Option<Json>)
    ensures value == Fact(context, path)
  {
    var cur, parts := context, Split(path);
    for i := 0 to |parts|
      invariant Lookup(cur, parts[i..]) == Fact(context, path)
    {
      assert parts[i..][1..] == parts[i + 1..];
      if cur.Obj? && parts[i] in cur.fields {
        cur := cur.fields[parts[i]];
      } else {
        return None;
      }
    }
    return Some(cur);
  }

  // ---------- comparisons ----------

  function Number(lib: Lib, v: Json): Option<real> {
    match v
    case Num(n) => Some(n)
    case Str(s) => lib.decimal(s)
    case _ => None
  }

  predicate Falsy(v: Json) {
    v in {Null, Bool(false), Num(0.0), Str(""), Arr([]), Obj(map[])}
  }

  predicate HasSubstring(s: string, part: string) {
    exists i | 0 <= i <= |s| :: part <= s[i..]
  }

  /** Python's `actual in container`. */
  function Member(actual: Json, container: Json): Result<bool, Fault> {
    match container
    case Arr(items) => Ok(actual in items)
    case Str(s) => if actual.Str? then Ok(HasSubstring(s, actual.s)) else Err(TypeFault)
    case Obj(fields) => if actual.Arr? || actual.Obj? then Err(TypeFault) else Ok(actual.Str? && actual.s in fields)
    case _ => Err(TypeFault)
  }

  function Negate(r: Result<bool, Fault>): Result<bool, Fault> {
    match r
    case Ok(b) => Ok(!b)
    case Err(e) => Err(e)
  }

  function IsEqual(lib: Lib, actual: Json, expected: Json): bool {
    var a, e := Number(lib, actual), Number(lib, expected);
    if a.Some? && e.Some? then a.value == e.value else actual == expected
  }

  function Ordered(lib: Lib, op: string, actual: Json, expected: Json): bool {
    var a, e := Number(lib, actual), Number(lib, expected);
    && a.Some? && e.Some?
    && (match op
        case "<" => a.value < e.value
        case "<=" => a.value <= e.value
        case ">" => a.value > e.value
        case _ => a.value >= e.value)
  }

  function Compare(lib: Lib, actual: Option<Json>, op: Json, expected: Json): Result<bool, Fault> {
    if op == Str("exists") then Ok(actual.Some? && actual.value != Null)
    else if op == Str("not_exists") then Ok(actual.None? || actual.value == Null)
    else if actual.None? then Ok(false)
    else if !op.Str? then Err(UnknownOperator)
    else
      var v := actual.value;
      match op.s
      case "==" => Ok(IsEqual(lib, v, expected))
      case "!=" => Ok(!IsEqual(lib, v, expected))
      case "in" => if Falsy(expected) then Ok(false) else Member(v, expected)
      case "not_in" => if Falsy(expected) then Ok(true) else Negate(Member(v, expected))
      case "contains" => if v.Arr? || v.Str? then Member(expected, v) else Ok(false)
      case "matches" =>
        if !v.Str? then Ok(false)
        else (match lib.search(expected, v.s) case Some(b) => Ok(b) case None => Err(TypeFault))
      case "startswith" => Ok(v.Str? && lib.str(expected) <= v.s)
      case other => if other in {"<", "<=", ">", ">="} then Ok(Ordered(lib, other, v, expected))
          else Err(UnknownOperator)
  }

  /** Negated operators negate, on a present fact. */
  lemma {:induction false} NegatedOperators(lib: Lib, v: Json, expected: Json)
    ensures var c := (op: string) => Compare(lib, Some(v), Str(op), expected);
            c("!=") == Negate(c("==")) && c("not_in") == Negate(c("in")) && c("not_exists") == Negate(c("exists"))
  {
  }

  /** Numbers, and text that reads as numbers, are ordered totally; anything else compares false. */
  lemma {:induction false} NumbersAreOrdered(lib: Lib, v: Json, expected: Json)
    ensures var c := (op: string) => Compare(lib, Some(v), Str(op), expected);
            && (Number(lib, v).Some? && Number(lib, expected).Some? ==>
                  && (c("<") == Ok(true) <==> c("==") == Ok(false) && c(">") == Ok(false))
                  && (c("==") == Ok(true) ==> c(">") == Ok(false))
                  && c(">=") == Negate(c("<")) && c("<=") == Negate(c(">")))
            && (Number(lib, v).None? || Number(lib, expected).None? ==>
                  c("<") == c("<=") == c(">") == c(">=") == Ok(false))
  {
    hide Number, Member, Falsy;
  }

  // ---------- rules ----------

  const OPS: set<string> :=
    {"==", "!=", "<", "<=", ">", ">=", "in", "not_in", "contains", "matches", "startswith", "exists", "not_exists"}

  function ListKey(rule: Json): string
    requires rule.Obj?
  {
    if "all" in rule.fields then "all" else "any"
  }

  predicate IsList(rule: Json) {
    rule.Obj? && ("all" in rule.fields || "any" in rule.fields)
  }

  predicate IsNot(rule: Json) {
    rule.Obj? && !IsList(rule) && "not" in rule.fields
  }

  function LeafFault(rule: Json): Option<Fault>
    requires rule.Obj?
  {
    var f := rule.fields;
    if "fact" !in f || "op" !in f then Some(Malformed)
    else if f["op"].Arr? || f["op"].Obj? then Some(TypeFault)  // unhashable operand of `in OPS`
    else if !f["op"].Str? || f["op"].s !in OPS then Some(Malformed)
    else if f["op"].s !in {"exists", "not_exists"} && "value" !in f then Some(Malformed)
    else None
  }

  /** What `validate_rule` raises, None if it accepts. */
  function Objection(rule: Json): Option<Fault>
    decreases rule, 0
  {
    if !rule.Obj? then Some(Malformed)
    else if IsList(rule) then
      var subs := rule.fields[ListKey(rule)];
      if !subs.Arr? || subs.items == [] then Some(Malformed) else FirstObjection(subs.items)
    else if IsNot(rule) then Objection(rule.fields["not"])
    else LeafFault(rule)
  }

  function FirstObjection(rules: seq<Json>): Option<Fault>
    decreases rules, 1
  {
    if rules == [] then None
    else
      var first := Objection(rules[0]);
      if first.Some? then first else FirstObjection(rules[1..])
  }

  predicate Valid(rule: Json) {
    Objection(rule).None?
  }

  method ValidateRule(rule: Json) returns (fault: Option<Fault>)
    ensures fault == Objection(rule)
    decreases rule
  {
    if !rule.Obj? {
      return Some(Malformed);
    }
    var f := rule.fields;
    if "all" in f || "any" in f {
      var subs := f[if "all" in f then "all" else "any"];
      if !subs.Arr? || subs.items == [] {
        return Some(Malformed);
      }
      for i := 0 to |subs.items|
        invariant FirstObjection(subs.items[i..]) == Objection(rule)
      {
        assert subs.items[i..][1..] == subs.items[i + 1..];
        fault := ValidateRule(subs.items[i]);
        if fault.Some? {
          return fault;
        }
      }
      return None;
    }
    if "not" in f {
      fault := ValidateRule(f["not"]);
      return fault;
    }
    if "fact" !in f || "op" !in f {
      return Some(Malformed);
    }
    if f["op"].Arr? || f["op"].Obj? {
      return Some(TypeFault);
    }
    if !f["op"].Str? || f["op"].s !in OPS {
      return Some(Malformed);
    }
    if f["op"] != Str("exists") && f["op"] != Str("not_exists") && "value" !in f {
      return Some(Malformed);
    }
    return None;
  }

  function ValueOf(rule: Json): Json
    requires rule.Obj?
  {
    if "value" in rule.fields then rule.fields["value"] else Null
  }

  function MatchLeaf(lib: Lib, rule: Json, context: Json): Result<bool, Fault>
    requires rule.Obj?
  {
    var f := rule.fields;
    if "fact" !in f || !f["fact"].Str? || "op" !in f then Err(TypeFault)
    else Compare(lib, Fact(context, f["fact"].s), f["op"], ValueOf(rule))
  }

  function Matches(lib: Lib, rule: Json, context: Json): Result<bool, Fault>
    decreases rule, 0
  {
    if !rule.Obj? then Err(TypeFault)
    else if IsList(rule) then
      var all := "all" in rule.fields;
      match rule.fields[ListKey(rule)]
      case Arr(items) => Combine(lib, all, items, context)
      case other => if other in {Str(""), Obj(map[])} then Ok(all) else Err(TypeFault)
    else if IsNot(rule) then Negate(Matches(lib, rule.fields["not"], context))
    else MatchLeaf(lib, rule, context)
  }

  /** Python's `all` (or `any`) over the sub-rules, left to right, stopping at the first decisive one. */
  function Combine(lib: Lib, all: bool, rules: seq<Json>, context: Json): Result<bool, Fault>
    decreases rules, 1
  {
    if rules == [] then Ok(all)
    else
      match Matches(lib, rules[0], context)
      case Err(e) => Err(e)
      case Ok(b) => if b != all then Ok(b) else Combine(lib, all, rules[1..], context)
  }

  // ---------- a validated rule knows its operators ----------

  /** The operands fit the operator: names as facts, lists for `in`, text for `contains`, a pattern
      that compiles for `matches`. */
  ghost predicate LeafTyped(lib: Lib, rule: Json)
    requires rule.Obj? && LeafFault(rule).None?
  {
    var op, value := rule.fields["op"].s, ValueOf(rule);
    && rule.fields["fact"].Str?
    && (op in {"in", "not_in"} ==> Falsy(value) || value.Arr?)
    && (op == "contains" ==> value.Str?)
    && (op == "matches" ==> forall s :: lib.search(value, s).Some?)
  }

  ghost predicate Typed(lib: Lib, rule: Json)
    requires Valid(rule)
    decreases rule, 0
  {
    if IsList(rule) then AllTyped(lib, rule.fields[ListKey(rule)].items)
    else if IsNot(rule) then Typed(lib, rule.fields["not"])
    else LeafTyped(lib, rule)
  }

  ghost predicate AllTyped(lib: Lib, rules: seq<Json>)
    requires FirstObjection(rules).None?
    decreases rules, 1
  {
    rules == [] || (Typed(lib, rules[0]) && AllTyped(lib, rules[1..]))
  }

  /** Matching a validated rule never meets an unknown operator, and with typed operands never raises. */
  lemma {:induction false} ValidatedOperators(lib: Lib, rule: Json, context: Json)
    requires Valid(rule)
    ensures var m := Matches(lib, rule, context);
        m != Err(UnknownOperator) && m != Err(Malformed) && (Typed(lib, rule) ==> m.Ok?)
    decreases rule, 0
  {
    if IsList(rule) {
      ValidatedList(lib, "all" in rule.fields, rule.fields[ListKey(rule)].items, context);
    } else if IsNot(rule) {
      ValidatedOperators(lib, rule.fields["not"], context);
    } else if rule.fields["fact"].Str? {
      ValidatedLeaf(lib, rule, Fact(context, rule.fields["fact"].s));
    }
  }

  lemma {:induction false} ValidatedLeaf(lib: Lib, rule: Json, actual: Option<Json>)
    requires rule.Obj? && LeafFault(rule).None?
    ensures var m := Compare(lib, actual, rule.fields["op"], ValueOf(rule));
            m != Err(UnknownOperator) && m != Err(Malformed) && (LeafTyped(lib, rule) ==> m.Ok?)
  {
  }

  lemma {:induction false} ValidatedList(lib: Lib, all: bool, rules: seq<Json>, context: Json)
    requires FirstObjection(rules).None?
    ensures var m := Combine(lib, all, rules, context);
        m != Err(UnknownOperator) && m != Err(Malformed) && (AllTyped(lib, rules) ==> m.Ok?)
    decreases rules, 1
  {
    if rules != [] {
      ValidatedOperators(lib, rules[0], context);
      ValidatedList(lib, all, rules[1..], context);
    }
  }

  // ---------- absent facts ----------

  /** Every fact the rule names is missing from the context. */
  predicate AllAbsent(rule: Json, context: Json)
    requires Valid(rule)
    decreases rule, 0
  {
    if IsList(rule) then EachAbsent(rule.fields[ListKey(rule)].items, context)
    else if IsNot(rule) then AllAbsent(rule.fields["not"], context)
    else rule.fields["fact"].Str? && Fact(context, rule.fields["fact"].s).None?
  }

  predicate EachAbsent(rules: seq<Json>, context: Json)
    requires FirstObjection(rules).None?
    decreases rules, 1
  {
    rules == [] || (AllAbsent(rules[0], context) && EachAbsent(rules[1..], context))
  }

  /** The rule is satisfied by knowing nothing: read off its shape, `not_exists` and `not` being the
      only sources of truth. */
  predicate Blind(rule: Json)
    requires Valid(rule)
    decreases rule, 0
  {
    if IsList(rule) then
      (if "all" in rule.fields then AllBlind(rule.fields["all"].items) else AnyBlind(rule.fields["any"].items))
    else if IsNot(rule) then !Blind(rule.fields["not"])
    else rule.fields["op"] == Str("not_exists")
  }

  predicate AllBlind(rules: seq<Json>)
    requires FirstObjection(rules).None?
    decreases rules, 1
  {
    rules == [] || (Blind(rules[0]) && AllBlind(rules[1..]))
  }

  predicate AnyBlind(rules: seq<Json>)
    requires FirstObjection(rules).None?
    decreases rules, 1
  {
    rules != [] && (Blind(rules[0]) || AnyBlind(rules[1..]))
  }

  /** A rule whose facts are all absent matches exactly when it is blind. */
  lemma {:induction false} AbsentMatchesIffBlind(lib: Lib, rule: Json, context: Json)
    requires Valid(rule) && AllAbsent(rule, context)
    ensures Matches(lib, rule, context) == Ok(Blind(rule))
    decreases rule, 0
  {
    if IsList(rule) {
      AbsentList(lib, "all" in rule.fields, rule.fields[ListKey(rule)].items, context);
    } else if IsNot(rule) {
      AbsentMatchesIffBlind(lib, rule.fields["not"], context);
    }
  }

  lemma {:induction false} AbsentList(lib: Lib, all: bool, rules: seq<Json>, context: Json)
    requires FirstObjection(rules).None? && EachAbsent(rules, context)
    ensures Combine(lib, all, rules, context) == Ok(if all then AllBlind(rules) else AnyBlind(rules))
    decreases rules, 1
  {
    if rules != [] {
      AbsentMatchesIffBlind(lib, rules[0], context);
      AbsentList(lib, all, rules[1..], context);
    }
  }

  /** The engine's promise that an absent value cannot make a rule hold fails for negation. */
  lemma {:induction false} NegationMatchesAbsent(lib: Lib)
    ensures var leaf := Obj(map["fact" := Str("a"), "op" := Str("=="), "value" := Num(1.0)]);
            var rule := Obj(map["not" := leaf]);
            Valid(rule) && Matches(lib, rule, Obj(map[])) == Ok(true)
  {
    var leaf := Obj(map["fact" := Str("a"), "op" := Str("=="), "value" := Num(1.0)]);
    var rule := Obj(map["not" := leaf]);
    assert IsNot(rule) && rule.fields["not"] == leaf;
    assert Fact(Obj(map[]), "a").None?;
    assert Objection(leaf).None?;
    assert !AllAbsent(rule, Obj(map[])) == !AllAbsent(leaf, Obj(map[]));
    assert AllAbsent(leaf, Obj(map[]));
    AbsentMatchesIffBlind(lib, rule, Obj(map[]));
  }

  // ---------- monotonicity ----------

  /** No `not` and no `not_exists` anywhere in the rule. */
  predicate Positive(rule: Json)
    requires Valid(rule)
    decreases rule, 0
  {
    if IsList(rule) then AllPositive(rule.fields[ListKey(rule)].items)
    else !IsNot(rule) && rule.fields["op"] != Str("not_exists")
  }

  predicate AllPositive(rules: seq<Json>)
    requires FirstObjection(rules).None?
    decreases rules, 1
  {
    rules == [] || (Positive(rules[0]) && AllPositive(rules[1..]))
  }

  /** The facts compared by the rule are missing from the context or are not objects there. */
  predicate PlainFacts(rule: Json, context: Json)
    requires Valid(rule)
    decreases rule, 0
  {
    if IsList(rule) then AllPlainFacts(rule.fields[ListKey(rule)].items, context)
    else if IsNot(rule) then PlainFacts(rule.fields["not"], context)
    else
      rule.fields["fact"].Str? ==>
        var v := Fact(context, rule.fields["fact"].s); v.None? || !v.value.Obj? || rule.fields["op"] == Str("exists")
  }

  predicate AllPlainFacts(rules: seq<Json>, context: Json)
    requires FirstObjection(rules).None?
    decreases rules, 1
  {
    rules == [] || (PlainFacts(rules[0], context) && AllPlainFacts(rules[1..], context))
  }

  /** `b` knows everything `a` knows, and possibly more. */
  predicate Extends(a: Json, b: Json)
    decreases a
  {
    if a.Obj? then b.Obj? && forall k | k in a.fields :: k in b.fields && Extends(a.fields[k], b.fields[k])
    else a == b
  }

  lemma {:induction false} LookupExtends(a: Json, b: Json, parts: seq<string>)
    requires Extends(a, b)
    ensures Lookup(a, parts).Some? ==> Lookup(b, parts).Some? && Extends(Lookup(a, parts).value, Lookup(b, parts).value)
    decreases |parts|
  {
    if parts != [] && a.Obj? && parts[0] in a.fields {
      LookupExtends(a.fields[parts[0]], b.fields[parts[0]], parts[1..]);
    }
  }

  /** New facts never turn a positive match off. */
  lemma {:induction false} MatchMonotone(lib: Lib, rule: Json, a: Json, b: Json)
    requires Valid(rule) && Positive(rule) && PlainFacts(rule, a) && Extends(a, b)
    requires Matches(lib, rule, a) == Ok(true)
    ensures Matches(lib, rule, b) != Ok(false)
    ensures Typed(lib, rule) ==> Matches(lib, rule, b) == Ok(true)
    decreases rule, 0
  {
    ValidatedOperators(lib, rule, b);
    var m := Matches(lib, rule, b);
    assert m.Ok? && !m.value ==> m == Ok(false);
    if IsList(rule) {
      ListMonotone(lib, "all" in rule.fields, rule.fields[ListKey(rule)].items, a, b);
    } else {
      LookupExtends(a, b, Split(rule.fields["fact"].s));
      LeafMonotone(lib, Fact(a, rule.fields["fact"].s), Fact(b, rule.fields["fact"].s), rule.fields["op"],
          ValueOf(rule));
    }
  }

  lemma {:induction false} LeafMonotone(lib: Lib, a: Option<Json>, b: Option<Json>, op: Json, value: Json)
    requires a.Some? ==> b.Some? && Extends(a.value, b.value)
    requires a.None? || !a.value.Obj? || op == Str("exists")
    requires op != Str("not_exists") && Compare(lib, a, op, value) == Ok(true)
    ensures Compare(lib, b, op, value) == Ok(true)
  {
  }

  lemma {:induction false} ListMonotone(lib: Lib, all: bool, rules: seq<Json>, a: Json, b: Json)
    requires FirstObjection(rules).None? && AllPositive(rules) && AllPlainFacts(rules, a) && Extends(a, b)
    requires Combine(lib, all, rules, a) == Ok(true)
    ensures Combine(lib, all, rules, b) != Ok(false)
    decreases rules, 1
  {
    if rules != [] {
      if Matches(lib, rules[0], a) == Ok(true) {
        MatchMonotone(lib, rules[0], a, b);
      }
      if Matches(lib, rules[0], a) == Ok(all) {
        ListMonotone(lib, all, rules[1..], a, b);
      }
    }
  }
}
