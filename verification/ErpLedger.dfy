/** The mock ERP's ledger: credit memos, payment plans and re-seeding over stored invoices. */
module ErpLedger {
  import opened Common
  import opened Money
  import S = Scenarios

  datatype Account = Account(customer: string, total: int, paid: int, open: int, status: S.InvoiceStatus)

  datatype Memo = Memo(key: string, invoice: string, customer: string, amount: int)

  datatype PlanRow = PlanRow(key: string, customer: string, refs: seq<string>, instalments: seq<Instalment>, total: int)

  datatype Store = Store(invoices: map<string, Account>, memos: seq<Memo>, plans: seq<PlanRow>)

  datatype MemoRequest = MemoRequest(invoice: string, amount: int, key: string)

  /** `pct / scale` is the discount in percent. */
  datatype PlanRequest = PlanRequest(refs: seq<string>, count: nat, firstDue: int, pct: int, scale: nat, key: string)

  datatype Fault = NotFound | Invalid | Conflict

  // ---------- operations ----------

  function FindMemo(memos: seq<Memo>, key: string): (r: Option<Memo>)
    ensures r.Some? ==> r.value in memos && r.value.key == key
    ensures r.None? ==> forall i :: 0 <= i < |memos| ==> memos[i].key != key
  {
    if memos == [] then None
    else if memos[0].key == key then Some(memos[0])
    else
      var r := FindMemo(memos[1..], key);
      assert r.None? ==> forall i :: 0 < i < |memos| ==> memos[i] == memos[1..][i - 1];
      r
  }

  function FindPlan(plans: seq<PlanRow>, key: string): Option<PlanRow> {
    if plans == [] then None else if plans[0].key == key then Some(plans[0]) else FindPlan(plans[1..], key)
  }

  function Credit(a: Account, amount: int): Account {
    var open := Max(0, a.open - amount);
    a.(open := open, status := if open != 0 then a.status else if a.paid > 0 then S.Paid else S.Void)
  }

  function CreateMemo(s: Store, req: MemoRequest): (Result<Memo, Fault>, Store) {
    var existing := FindMemo(s.memos, req.key);
    if existing.Some? then (Ok(existing.value), s)
    else if req.invoice !in s.invoices then (Err(NotFound), s)
    else
      var a := s.invoices[req.invoice];
      if req.amount <= 0 || req.amount > a.open then (Err(Invalid), s)
      else
        var memo := Memo(req.key, req.invoice, a.customer, req.amount);
        (Ok(memo), s.(memos := s.memos + [memo], invoices := s.invoices[req.invoice := Credit(a, req.amount)]))
  }

  function Distinct(refs: seq<string>): seq<string> {
    if refs == [] then []
    else
      var front := Distinct(refs[..|refs| - 1]);
      if refs[|refs| - 1] in front then front else front + [refs[|refs| - 1]]
  }

  lemma {:induction false} DistinctSound(refs: seq<string>)
    ensures forall r :: r in Distinct(refs) <==> r in refs
    ensures forall i, j :: 0 <= i < j < |Distinct(refs)| ==> Distinct(refs)[i] != Distinct(refs)[j]
  {
    if refs != [] {
      var front, last := refs[..|refs| - 1], refs[|refs| - 1];
      assert refs == front + [last];
      DistinctSound(front);
    }
  }

  /** The rows of the invoices named. */
  function Rows(invoices: map<string, Account>, refs: seq<string>): seq<Account> {
    if refs == [] then []
    else (if refs[0] in invoices then [invoices[refs[0]]] else []) + Rows(invoices, refs[1..])
  }

  function OpenTotal(rows: seq<Account>): int {
    if rows == [] then 0 else rows[0].open + OpenTotal(rows[1..])
  }

  function CreatePlan(s: Store, req: PlanRequest): (Result<PlanRow, Fault>, Store)
    requires 1 <= req.count <= 12 && req.scale > 0
  {
    var existing := FindPlan(s.plans, req.key);
    var rows := Rows(s.invoices, Distinct(req.refs));
    if existing.Some? then (Ok(existing.value), s)
    else if |rows| != |Distinct(req.refs)| then (Err(NotFound), s)
    else if rows == [] || exists i | 0 <= i < |rows| :: rows[i].customer != rows[0].customer then (Err(Conflict), s)
    else
      var total := Discounted(OpenTotal(rows), req.pct, req.scale);
      var plan := PlanRow(req.key, rows[0].customer, req.refs, Plan(total, req.count, req.firstDue), total);
      (Ok(plan), s.(plans := s.plans + [plan]))
  }

  // ---------- as the code runs them ----------

  class Ledger {
    var invoices: map<string, Account>
    var memos: seq<Memo>
    var plans: seq<PlanRow>

    ghost function State(): Store reads this {
      Store(invoices, memos, plans)
    }

    constructor ()
      ensures State() == Store(map[], [], [])
    {
      invoices, memos, plans := map[], [], [];
    }

    method ApplyCreditMemo(ref: string, amount: int)
      requires ref in invoices
      modifies this`invoices
      ensures invoices == old(invoices)[ref := Credit(old(invoices)[ref], amount)]
    {
      var a := invoices[ref];
      a := a.(open := Max(0, a.open - amount));
      if a.open == 0 {
        a := a.(status := if a.paid > 0 then S.Paid else S.Void);
      }
      invoices := invoices[ref := a];
    }

    method CreateCreditMemo(req: MemoRequest) returns (r: Result<Memo, Fault>)
      modifies this`invoices, this`memos
      ensures (r, State()) == CreateMemo(old(State()), req)
    {
      var existing := FindMemo(memos, req.key);
      if existing.Some? {
        return Ok(existing.value);
      }
      if req.invoice !in invoices {
        return Err(NotFound);
      }
      var a := invoices[req.invoice];
      if req.amount <= 0 || req.amount > a.open {
        return Err(Invalid);
      }
      var memo := Memo(req.key, req.invoice, a.customer, req.amount);
      memos := memos + [memo];
      ApplyCreditMemo(req.invoice, req.amount);
      return Ok(memo);
    }

    method CreatePaymentPlan(req: PlanRequest) returns (r: Result<PlanRow, Fault>)
      requires 1 <= req.count <= 12 && req.scale > 0
      modifies this`plans
      ensures (r, State()) == CreatePlan(old(State()), req)
    {
      var existing := FindPlan(plans, req.key);
      if existing.Some? {
        return Ok(existing.value);
      }
      var refs := Distinct(req.refs);
      var rows := Rows(invoices, refs);
      if |rows| != |refs| {
        return Err(NotFound);
      }
      if rows == [] || exists i | 0 <= i < |rows| :: rows[i].customer != rows[0].customer {
        return Err(Conflict);
      }
      var discounted := HalfEven(OpenTotal(rows) * (100 * req.scale - req.pct), 100 * req.scale);
      var instalments := SplitPlan(discounted, req.count, req.firstDue);
      var plan := PlanRow(req.key, rows[0].customer, req.refs, instalments, discounted);
      plans := plans + [plan];
      return Ok(plan);
    }

    method ReplaceDataset(seeded: map<string, Account>)
      modifies this
      ensures State() == Store(seeded, [], [])
    {
      plans, memos, invoices := [], [], seeded;
    }
  }

  // ---------- runs ----------

  datatype Op = IssueMemo(m: MemoRequest) | MakePlan(p: PlanRequest) | Seed(invoices: map<string, Account>)

  predicate Sound(a: Account) {
    a.open == a.total - a.paid && a.open >= 0 && (a.open == 0 ==> a.status in {S.Paid, S.Void})
  }

  /** Requests are well-formed and datasets are generated ones. */
  predicate Admissible(op: Op) {
    match op
    case IssueMemo(_) => true
    case MakePlan(p) => 1 <= p.count <= 12 && p.scale > 0
    case Seed(invoices) => forall r :: r in invoices ==> Sound(invoices[r])
  }

  function Step(s: Store, op: Op): Store
    requires Admissible(op)
  {
    match op
    case IssueMemo(m) => CreateMemo(s, m).1
    case MakePlan(p) => CreatePlan(s, p).1
    case Seed(invoices) => Store(invoices, [], [])
  }

  predicate AllAdmissible(ops: seq<Op>) {
    forall i :: 0 <= i < |ops| ==> Admissible(ops[i])
  }

  function Run(s: Store, ops: seq<Op>): Store
    requires AllAdmissible(ops)
    decreases |ops|
  {
    if ops == [] then s else Run(Step(s, ops[0]), ops[1..])
  }

  /** What has been credited to one invoice. */
  function Credited(memos: seq<Memo>, ref: string): int {
    if memos == [] then 0 else (if memos[0].invoice == ref then memos[0].amount else 0) + Credited(memos[1..], ref)
  }

  lemma {:induction false} CreditedConcat(a: seq<Memo>, b: seq<Memo>, ref: string)
    ensures Credited(a + b, ref) == Credited(a, ref) + Credited(b, ref)
  {
    if a == [] {
      assert a + b == b;
    } else {
      assert (a + b)[1..] == a[1..] + b;
      CreditedConcat(a[1..], b, ref);
    }
  }

  lemma {:induction false} CreditedSign(memos: seq<Memo>, ref: string)
    requires forall i :: 0 <= i < |memos| ==> memos[i].amount > 0
    ensures Credited(memos, ref) >= 0
    ensures Credited(memos, ref) > 0 <==> exists i :: 0 <= i < |memos| && memos[i].invoice == ref
  {
    if memos != [] {
      CreditedSign(memos[1..], ref);
      if i :| 0 <= i < |memos| && memos[i].invoice == ref {
        assert i > 0 ==> memos[1..][i - 1] == memos[i];
      }
      if j :| 0 <= j < |memos[1..]| && memos[1..][j].invoice == ref {
        assert memos[j + 1].invoice == ref;
      }
    }
  }

  ghost predicate Balanced(s: Store, ref: string)
    requires ref in s.invoices
  {
    var a := s.invoices[ref];
    && a.open + Credited(s.memos, ref) == a.total - a.paid && a.open >= 0
    && (a.open == 0 && Credited(s.memos, ref) > 0 ==> a.status == if a.paid > 0 then S.Paid else S.Void)
  }

  ghost predicate Inv(s: Store) {
    && (forall ref :: ref in s.invoices ==> Balanced(s, ref))
    && (forall i :: 0 <= i < |s.memos| ==> s.memos[i].amount > 0)
    && (forall i, j :: 0 <= i < j < |s.memos| ==> s.memos[i].key != s.memos[j].key)
  }

  lemma {:induction false} MemoKeeps(s: Store, req: MemoRequest)
    requires Inv(s)
    ensures Inv(CreateMemo(s, req).1)
  {
    var (r, t) := CreateMemo(s, req);
    if t != s {
      var memo := r.value;
      forall ref | ref in t.invoices ensures Balanced(t, ref) {
        assert Balanced(s, ref);
        CreditedConcat(s.memos, [memo], ref);
        CreditedSign(s.memos, ref);
        assert Credited([memo], ref) == if memo.invoice == ref then memo.amount else 0;
      }
    }
  }

  lemma {:induction false} RunKeeps(s: Store, ops: seq<Op>)
    requires Inv(s) && AllAdmissible(ops)
    ensures Inv(Run(s, ops))
    decreases |ops|
  {
    if ops != [] {
      var t := Step(s, ops[0]);
      match ops[0] {
        case IssueMemo(m) => MemoKeeps(s, m);
        case MakePlan(p) =>
          assert t.invoices == s.invoices && t.memos == s.memos;
          forall ref | ref in t.invoices ensures Balanced(t, ref) {
            assert Balanced(s, ref);
          }
        case Seed(invoices) =>
          forall ref | ref in t.invoices ensures Balanced(t, ref) {
            assert Sound(invoices[ref]);
          }
      }
      RunKeeps(t, ops[1..]);
    }
  }

  const EMPTY := Store(map[], [], [])

  // ---------- main results ----------

  /** After any run, every invoice's open amount plus its memos is what is unpaid, never negative, with
      one memo per key; an invoice credited to zero is PAID or VOID by whether anything was paid. */
  lemma {:induction false} Conservation(ops: seq<Op>)
    requires AllAdmissible(ops)
    ensures var s := Run(EMPTY, ops);
            && (forall ref :: ref in s.invoices ==> Balanced(s, ref))
            && (forall i, j :: 0 <= i < j < |s.memos| ==> s.memos[i].key != s.memos[j].key)
  {
    RunKeeps(EMPTY, ops);
  }

  /** After any run, the dataset filter's test `open != total - paid` says whether a memo was issued. */
  lemma {:induction false} FilterSeesMemos(ops: seq<Op>, ref: string)
    requires AllAdmissible(ops) && ref in Run(EMPTY, ops).invoices
    ensures var s := Run(EMPTY, ops);
            var a := s.invoices[ref];
            a.open != a.total - a.paid <==> exists i :: 0 <= i < |s.memos| && s.memos[i].invoice == ref
  {
    RunKeeps(EMPTY, ops);
    var s := Run(EMPTY, ops);
    assert Balanced(s, ref);
    CreditedSign(s.memos, ref);
  }

  /** A new key is accepted exactly for a known invoice and an amount in 1..open; then exactly the amount
      is taken off (the clamp at zero never acts) and no other invoice moves. A used key changes nothing
      and answers with its memo. */
  lemma {:induction false} MemoExactly(s: Store, req: MemoRequest)
    ensures var (r, t) := CreateMemo(s, req);
            var unused := FindMemo(s.memos, req.key).None?;
            && (unused ==> (r.Ok? <==> req.invoice in s.invoices && 0 < req.amount <= s.invoices[req.invoice].open))
            && (unused && r.Ok? ==>
                  && t.invoices.Keys == s.invoices.Keys
                  && t.invoices[req.invoice].open == s.invoices[req.invoice].open - req.amount
                  && t.invoices[req.invoice].total == s.invoices[req.invoice].total
                  && t.invoices[req.invoice].paid == s.invoices[req.invoice].paid
                  && forall ref :: ref in s.invoices && ref != req.invoice ==> t.invoices[ref] == s.invoices[ref])
            && (!unused ==> t == s && r.Ok? && r.value in s.memos && r.value.key == req.key)
            && (r.Err? ==> t == s)
  {
  }

  /** Whatever a retry says, after a success its key keeps answering with the same memo. */
  lemma {:induction false} RetryAnswersTheSame(s: Store, req: MemoRequest, again: MemoRequest)
    requires CreateMemo(s, req).0.Ok? && again.key == req.key
    ensures CreateMemo(CreateMemo(s, req).1, again) == CreateMemo(s, req)
  {
    FindAppended(s.memos, CreateMemo(s, req).0.value);
  }

  lemma {:induction false} FindAppended(memos: seq<Memo>, memo: Memo)
    ensures FindMemo(memos, memo.key).None? ==> FindMemo(memos + [memo], memo.key) == Some(memo)
  {
    if memos == [] {
      assert memos + [memo] == [memo];
    } else {
      assert (memos + [memo])[1..] == memos[1..] + [memo];
      FindAppended(memos[1..], memo);
    }
  }

  function Booked(inv: S.Invoice, customer: string): Account {
    Account(customer, inv.total, inv.paid, inv.open, inv.status)
  }

  /** Generated invoices are admissible seeds, and their positive expected memo is accepted under any
      unused key as long as no memo was issued on them. */
  lemma {:induction false} GroundTruthIsAccepted(
      lines: seq<S.Line>, d: S.Draw, customer: string, s: Store, ref: string, key: string)
    requires S.InRange(lines, d)
    requires ref in s.invoices && s.invoices[ref] == Booked(S.Generated(lines, d), customer)
    requires FindMemo(s.memos, key).None?
    ensures var inv := S.Generated(lines, d);
            var (r, t) := CreateMemo(s, MemoRequest(ref, inv.expected, key));
            && Sound(Booked(inv, customer)) && (r.Ok? <==> inv.expected > 0)
            && (r.Ok? ==> t.invoices[ref].open == inv.open - inv.expected >= 0)
  {
    S.TruthIsIssuable(lines, d);
    S.SeededConsistent(lines, d);
    S.PaidIffNothingOpen(lines, d);
    hide S.Generated;
  }

  // ---------- payment plans ----------

  lemma {:induction false} RowsOpen(invoices: map<string, Account>, refs: seq<string>)
    requires forall r :: r in invoices ==> invoices[r].open >= 0
    ensures OpenTotal(Rows(invoices, refs)) >= 0
  {
    if refs != [] {
      RowsOpen(invoices, refs[1..]);
      var one, rest := if refs[0] in invoices then [invoices[refs[0]]] else [], Rows(invoices, refs[1..]);
      assert one != [] ==> (one + rest)[1..] == rest;
      assert one == [] ==> one + rest == rest;
    }
  }

  /** After any run, a new plan's total is the nearest cent to the discounted open amount of its invoices,
      its instalments sum to exactly that total, and it moves no invoice; a discount of 0 to 100 percent
      keeps the total between nothing and what is open. */
  lemma {:induction false} PlanExactly(ops: seq<Op>, req: PlanRequest)
    requires AllAdmissible(ops) && 1 <= req.count <= 12 && req.scale > 0
    requires FindPlan(Run(EMPTY, ops).plans, req.key).None? && CreatePlan(Run(EMPTY, ops), req).0.Ok?
    ensures var s := Run(EMPTY, ops);
            var (r, t) := CreatePlan(s, req);
            var open := OpenTotal(Rows(s.invoices, Distinct(req.refs)));
            && Nearest(open * (100 * req.scale - req.pct), 100 * req.scale, r.value.total)
            && (0 <= req.pct <= 100 * req.scale ==> 0 <= r.value.total <= open)
            && Sum(Amounts(r.value.instalments)) == r.value.total && |r.value.instalments| == req.count
            && t.invoices == s.invoices && t.memos == s.memos
  {
    var s := Run(EMPTY, ops);
    RunKeeps(EMPTY, ops);
    forall ref | ref in s.invoices ensures s.invoices[ref].open >= 0 {
      assert Balanced(s, ref);
    }
    var refs := Distinct(req.refs);
    RowsOpen(s.invoices, refs);
    var total := OpenTotal(Rows(s.invoices, refs));
    if 0 <= req.pct <= 100 * req.scale {
      DiscountInRange(total, req.pct, req.scale);
    }
    HalfEvenNear(total * (100 * req.scale - req.pct), 100 * req.scale);
    hide Nearest, HalfEven;
    PlanSums(Discounted(total, req.pct, req.scale), req.count, req.firstDue);
  }
}
