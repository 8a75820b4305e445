/** The rule language, said construct by construct: what each operator holds of its operands, where a path
    leads, and what each shape of rule asks of its parts. */
module PolicyLaws {
  import opened Common
  import opened PolicyRules

  // ---------- operators ----------

  /** The value is the number x, or text that reads as x. Booleans are not numbers. */
  predicate Reads(lib: Lib, v: Json, x: real) {
    v == Num(x) || (v.Str? && lib.decimal(v.s) == Some(x))
  }

  ghost predicate NotANumber(lib: Lib, v: Json) {
    forall x :: !Reads(lib, v, x)
  }

  /** On numbers the six comparisons are the six orders of their values. */
  lemma {:induction false} ComparesNumbers(lib: Lib, v: Json, expected: Json, x: real, y: real)
    requires Reads(lib, v, x) && Reads(lib, expected, y)
    ensures var c := (op: string) => Compare(lib, Some(v), Str(op), expected);
            && c("<") == Ok(x < y) && c("<=") == Ok(x <= y) && c(">") == Ok(x > y) && c(">=") == Ok(x >= y)
            && c("==") == Ok(x == y) && c("!=") == Ok(x != y)
  {
    hide Member, Falsy;
  }

  /** Unless both operands are numbers, equality is of the values themselves and no order holds. */
  lemma {:induction false} ComparesOthers(lib: Lib, v: Json, expected: Json)
    requires NotANumber(lib, v) || NotANumber(lib, expected)
    ensures var c := (op: string) => Compare(lib, Some(v), Str(op), expected);
            && c("==") == Ok(v == expected) && c("!=") == Ok(v != expected)
            && c("<") == Ok(false) && c("<=") == Ok(false) && c(">") == Ok(false) && c(">=") == Ok(false)
  {
    assert Number(lib, v).Some? ==> Reads(lib, v, Number(lib, v).value);
    assert Number(lib, expected).Some? ==> Reads(lib, expected, Number(lib, expected).value);
    hide Member, Falsy, Number;
  }

  ghost predicate Occurs(part: string, s: string) {
    exists a: string, b: string :: s == a + part + b
  }

  lemma {:induction false} SubstringIff(part: string, s: string)
    ensures HasSubstring(s, part) <==> Occurs(part, s)
  {
    if HasSubstring(s, part) {
      var i :| 0 <= i <= |s| && part <= s[i..];
      assert s == s[..i] + part + s[i + |part|..];
    }
    if Occurs(part, s) {
      var a, b :| s == a + part + b;
      assert s[|a|..] == part + b;
    }
  }

  /** `in`: an element of a list, a piece of non-empty text, a name of a non-empty object; nothing is in an
      empty or false value; anything else cannot be searched. */
  lemma {:induction false} InHolds(lib: Lib, v: Json, container: Json)
    ensures var r := Compare(lib, Some(v), Str("in"), container);
            match container
            case Arr(items) => r == Ok(exists i :: 0 <= i < |items| && items[i] == v)
            case Str(s) => r == if s == "" then Ok(false) else if v.Str? then Ok(Occurs(v.s, s)) else Err(TypeFault)
            case Obj(fields) =>
              r == if fields == map[] then Ok(false)
                   else if v.Arr? || v.Obj? then Err(TypeFault) else Ok(v.Str? && v.s in fields)
            case Null => r == Ok(false)
            case Bool(b) => r == if b then Err(TypeFault) else Ok(false)
            case Num(n) => r == if n == 0.0 then Ok(false) else Err(TypeFault)
  {
    if container.Str? && v.Str? {
      SubstringIff(v.s, container.s);
    }
    hide HasSubstring;
  }

  /** `contains`: a list has the value as an element, text has the value as a piece; nothing else contains. */
  lemma {:induction false} ContainsHolds(lib: Lib, v: Json, part: Json)
    ensures var r := Compare(lib, Some(v), Str("contains"), part);
            match v
            case Arr(items) => r == Ok(exists i :: 0 <= i < |items| && items[i] == part)
            case Str(s) => r == if part.Str? then Ok(Occurs(part.s, s)) else Err(TypeFault)
            case _ => r == Ok(false)
  {
    if v.Str? && part.Str? {
      SubstringIff(part.s, v.s);
    }
    hide HasSubstring;
  }

  /** `startswith` and `matches` are about text only; the other operand counts as its own text or pattern. */
  lemma {:induction false} TextOperators(lib: Lib, v: Json, expected: Json)
    ensures var c := (op: string) => Compare(lib, Some(v), Str(op), expected);
            && (v.Str? ==> (c("startswith") == Ok(true) <==> exists rest: string :: v.s == lib.str(expected) + rest))
            && c("startswith").Ok? && (!v.Str? ==> c("startswith") == Ok(false))
            && c("matches") == if !v.Str? then Ok(false)
                               else match lib.search(expected, v.s) case Some(b) => Ok(b) case None => Err(TypeFault)
  {
    if v.Str? && lib.str(expected) <= v.s {
      assert v.s == lib.str(expected) + v.s[|lib.str(expected)|..];
    }
    hide Member, Falsy, IsEqual, Ordered;
  }

  /** A missing fact exists not, and otherwise compares false, whatever the operator; a null one exists not. */
  lemma {:induction false} MissingFacts(lib: Lib, op: Json, expected: Json)
    ensures Compare(lib, None, op, expected) == Ok(op == Str("not_exists"))
    ensures forall v: Json :: Compare(lib, Some(v), Str("exists"), expected) == Ok(v != Null)
    ensures forall v: Json :: Compare(lib, Some(v), Str("not_exists"), expected) == Ok(v == Null)
  {
  }

  predicate Known(op: string) {
    op == "==" || op == "!=" || op == "<" || op == "<=" || op == ">" || op == ">=" || op == "in" || op == "not_in"
    || op == "contains" || op == "matches" || op == "startswith" || op == "exists" || op == "not_exists"
  }

  /** On a present fact, an operator is refused exactly if it is none of the thirteen. */
  lemma {:induction false} UnknownRefused(lib: Lib, v: Json, op: Json, expected: Json)
    ensures Compare(lib, Some(v), op, expected) == Err(UnknownOperator) <==> !op.Str? || !Known(op.s)
  {
    hide IsEqual, Ordered;
  }

  // ---------- facts ----------

  lemma {:induction false} PlainSplit(path: string)
    requires '.' !in path
    ensures Split(path) == [path]
  {
    if path != "" {
      PlainSplit(path[1..]);
      assert [path[0]] + path[1..] == path;
    }
  }

  lemma {:induction false} DottedSplit(name: string, rest: string)
    requires '.' !in name
    ensures Split(name + "." + rest) == [name] + Split(rest)
  {
    var path := name + "." + rest;
    if name == "" {
      assert path[1..] == rest;
    } else {
      assert path[1..] == name[1..] + "." + rest;
      DottedSplit(name[1..], rest);
      assert [name[0]] + name[1..] == name;
    }
  }

  /** A name without a dot is looked up in an object, and leads nowhere in anything else; a dotted path goes on
      from there. */
  lemma {:induction false} FactSteps(context: Json, name: string, rest: string)
    requires '.' !in name
    ensures Fact(context, name)
         == if context.Obj? && name in context.fields then Some(context.fields[name]) else None
    ensures var there := Fact(context, name);
            Fact(context, name + "." + rest) == if there.Some? then Fact(there.value, rest) else None
  {
    PlainSplit(name);
    DottedSplit(name, rest);
    var parts := [name] + Split(rest);
    assert parts[0] == name && parts[1..] == Split(rest);
    assert Lookup(context, [name]) == Fact(context, name) && [name][0] == name && [name][1..] == [];
    if context.Obj? && name in context.fields {
      assert Lookup(context.fields[name], []) == Some(context.fields[name]);
      assert Lookup(context, parts) == Lookup(context.fields[name], Split(rest));
    }
  }

  // ---------- rules ----------

  /** Every sub-rule before i is passed over: true under `all`, false under `any`. */
  ghost predicate PassedOver(lib: Lib, all: bool, rules: seq<Json>, context: Json, i: nat)
    requires i <= |rules|
  {
    forall j :: 0 <= j < i ==> Matches(lib, rules[j], context) == Ok(all)
  }

  lemma {:induction false} CombineIs(lib: Lib, all: bool, rules: seq<Json>, context: Json)
    ensures var r := Combine(lib, all, rules, context);
            if PassedOver(lib, all, rules, context, |rules|) then r == Ok(all)
            else exists i :: 0 <= i < |rules| && PassedOver(lib, all, rules, context, i)
                             && r == Matches(lib, rules[i], context) && r != Ok(all)
  {
    if rules != [] && Matches(lib, rules[0], context) == Ok(all) {
      var rest := rules[1..];
      CombineIs(lib, all, rest, context);
      assert forall j :: 0 < j < |rules| ==> rules[j] == rest[j - 1];
      if !PassedOver(lib, all, rest, context, |rest|) {
        assert !PassedOver(lib, all, rules, context, |rules|) by {
          var j :| 0 <= j < |rest| && Matches(lib, rest[j], context) != Ok(all);
          assert rules[j + 1] == rest[j];
        }
        var i :| 0 <= i < |rest| && PassedOver(lib, all, rest, context, i)
                 && Combine(lib, all, rest, context) == Matches(lib, rest[i], context)
                 && Matches(lib, rest[i], context) != Ok(all);
        assert PassedOver(lib, all, rules, context, i + 1);
      }
    } else if rules != [] {
      assert PassedOver(lib, all, rules, context, 0);
      assert !PassedOver(lib, all, rules, context, |rules|);
    }
  }

  /** `all` holds if every part does, `any` fails if every part does; otherwise the first part that says otherwise, or
      raises, decides. `all` goes before `any`, both before `not`, and `not` before a comparison. */
  lemma {:induction false} MatchesByShape(lib: Lib, rule: Json, context: Json)
    requires rule.Obj?
    ensures var r, f := Matches(lib, rule, context), rule.fields;
            if "all" in f || "any" in f then
              var all := "all" in f;
              var parts := if all then f["all"] else f["any"];
              match parts
              case Arr(items) =>
                if PassedOver(lib, all, items, context, |items|) then r == Ok(all)
                else exists i :: 0 <= i < |items| && PassedOver(lib, all, items, context, i)
                                 && r == Matches(lib, items[i], context) && r != Ok(all)
              case Str(s) => r == if s == "" then Ok(all) else Err(TypeFault)
              case Obj(fields) => r == if fields == map[] then Ok(all) else Err(TypeFault)
              case _ => r == Err(TypeFault)
            else if "not" in f then
              match Matches(lib, f["not"], context)
              case Ok(b) => r == Ok(!b)
              case Err(e) => r == Err(e)
            else if "fact" in f && f["fact"].Str? && "op" in f then
              r == Compare(lib, Fact(context, f["fact"].s), f["op"], if "value" in f then f["value"] else Null)
            else r == Err(TypeFault)
  {
    if IsList(rule) && rule.fields[ListKey(rule)].Arr? {
      CombineIs(lib, "all" in rule.fields, rule.fields[ListKey(rule)].items, context);
    }
    hide Compare, Fact, Combine, PassedOver;
  }

  lemma {:induction false} FirstObjectionIs(rules: seq<Json>)
    ensures var r := FirstObjection(rules);
            if r.None? then forall i :: 0 <= i < |rules| ==> Valid(rules[i])
            else exists i :: 0 <= i < |rules| && Objection(rules[i]) == r && forall j :: 0 <= j < i ==> Valid(rules[j])
  {
    if rules != [] && Valid(rules[0]) {
      var rest := rules[1..];
      FirstObjectionIs(rest);
      assert forall j :: 0 < j < |rules| ==> rules[j] == rest[j - 1];
      if FirstObjection(rest).Some? {
        var i :| 0 <= i < |rest| && Objection(rest[i]) == FirstObjection(rest) && forall j :: 0 <= j < i ==>
            Valid(rest[j]);
        assert Objection(rules[i + 1]) == FirstObjection(rules);
      }
    }
  }

  /** A rule is valid if it is a non-empty list of valid rules under `all` (or `any`), the negation of one, or a
      comparison with a fact, one of the thirteen operators and, but for the two existence tests, a value. */
  lemma {:induction false} ValidByShape(rule: Json)
    ensures Valid(rule) <==>
            && rule.Obj?
            && var f := rule.fields;
               if "all" in f || "any" in f then
                 var parts := if "all" in f then f["all"] else f["any"];
                 && parts.Arr? && |parts.items| > 0 && forall i :: 0 <= i < |parts.items| ==> Valid(parts.items[i])
               else if "not" in f then Valid(f["not"])
               else
                 && "fact" in f && "op" in f && f["op"].Str? && Known(f["op"].s)
                 && (f["op"].s == "exists" || f["op"].s == "not_exists" || "value" in f)
  {
    if IsList(rule) && rule.fields[ListKey(rule)].Arr? {
      FirstObjectionIs(rule.fields[ListKey(rule)].items);
      if FirstObjection(rule.fields[ListKey(rule)].items).Some? {
        var items := rule.fields[ListKey(rule)].items;
        var i :| 0 <= i < |items| && Objection(items[i]) == FirstObjection(items);
        assert !Valid(items[i]);
      }
    }
    hide FirstObjection;
  }

  /** An invalid rule is malformed, but for a comparison whose operator is a list or an object: testing it raises. */
  lemma {:induction false} ObjectionKinds(rule: Json)
    ensures Objection(rule) in {None, Some(Malformed), Some(TypeFault)}
    ensures rule.Obj? && !IsList(rule) && !IsNot(rule) ==>
              (Objection(rule) == Some(TypeFault) <==>
                 var f := rule.fields; "fact" in f && "op" in f && (f["op"].Arr? || f["op"].Obj?))
    decreases rule
  {
    if IsList(rule) && rule.fields[ListKey(rule)].Arr? {
      var items := rule.fields[ListKey(rule)].items;
      FirstObjectionIs(items);
      forall i | 0 <= i < |items| ensures Objection(items[i]) in {None, Some(Malformed), Some(TypeFault)} {
        ObjectionKinds(items[i]);
      }
      hide FirstObjection;
    } else if IsNot(rule) {
      ObjectionKinds(rule.fields["not"]);
    }
  }
}
