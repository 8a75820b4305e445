/** What the ledger's requests answer and leave behind, on the stored rows and the request alone. */
module ErpLaws {
  import opened Common
  import opened Money
  import opened ErpLedger
  import S = Scenarios

  // ---------- credit memos ----------

  predicate MemoUsed(s: Store, key: string) {
    exists i :: 0 <= i < |s.memos| && s.memos[i].key == key
  }

  lemma {:induction false} MemoFound(memos: seq<Memo>, key: string)
    ensures var r := FindMemo(memos, key);
            && (r.Some? <==> exists i :: 0 <= i < |memos| && memos[i].key == key)
            && (r.Some? ==> exists i :: 0 <= i < |memos| && memos[i] == r.value && r.value.key == key
                                        && forall j :: 0 <= j < i ==> memos[j].key != key)
  {
    if memos != [] && memos[0].key != key {
      MemoFound(memos[1..], key);
      assert forall i :: 0 < i < |memos| ==> memos[i] == memos[1..][i - 1];
      if FindMemo(memos, key).Some? {
        var i :| 0 <= i < |memos[1..]| && memos[1..][i] == FindMemo(memos, key).value
                 && forall j :: 0 <= j < i ==> memos[1..][j].key != key;
        assert memos[i + 1] == FindMemo(memos, key).value;
      }
    }
  }

  /** The invoice after a credit: nothing below zero stays open, and once nothing is open it is PAID if anything had
      been paid and VOID if not. */
  lemma {:induction false} Credits(a: Account, amount: int)
    ensures var left := if amount >= a.open then 0 else a.open - amount;
            Credit(a, amount)
            == Account(a.customer, a.total, a.paid, left,
                       if left != 0 then a.status else if a.paid > 0 then S.Paid else S.Void)
  {
  }

  /** A request for a credit memo: an unknown invoice is not found, an amount outside 1..open is invalid; otherwise one
      memo with the request's figures is added, the invoice is credited, and nothing else is touched. A used key
      answers with the first memo of that key and touches nothing. */
  lemma {:induction false} MemoAnswers(s: Store, req: MemoRequest)
    ensures var (r, t) := CreateMemo(s, req);
            if MemoUsed(s, req.key) then
              && t == s && r.Ok?
              && exists i :: 0 <= i < |s.memos| && s.memos[i] == r.value && s.memos[i].key == req.key
                             && forall j :: 0 <= j < i ==> s.memos[j].key != req.key
            else if req.invoice !in s.invoices then r == Err(NotFound) && t == s
            else
              var a := s.invoices[req.invoice];
              if !(0 < req.amount <= a.open) then r == Err(Invalid) && t == s
              else
                var memo := Memo(req.key, req.invoice, a.customer, req.amount);
                var status := if req.amount < a.open then a.status else if a.paid > 0 then S.Paid else S.Void;
                var credited := Account(a.customer, a.total, a.paid, a.open - req.amount, status);
                r == Ok(memo) && t == Store(s.invoices[req.invoice := credited], s.memos + [memo], s.plans)
  {
    MemoFound(s.memos, req.key);
    hide FindMemo;
  }

  // ---------- payment plans ----------

  predicate PlanUsed(s: Store, key: string) {
    exists i :: 0 <= i < |s.plans| && s.plans[i].key == key
  }

  lemma {:induction false} PlanFound(plans: seq<PlanRow>, key: string)
    ensures var r := FindPlan(plans, key);
            && (r.Some? <==> exists i :: 0 <= i < |plans| && plans[i].key == key)
            && (r.Some? ==> exists i :: 0 <= i < |plans| && plans[i] == r.value && r.value.key == key
                                        && forall j :: 0 <= j < i ==> plans[j].key != key)
  {
    if plans != [] && plans[0].key != key {
      PlanFound(plans[1..], key);
      assert forall i :: 0 < i < |plans| ==> plans[i] == plans[1..][i - 1];
      if FindPlan(plans, key).Some? {
        var i :| 0 <= i < |plans[1..]| && plans[1..][i] == FindPlan(plans, key).value
                 && forall j :: 0 <= j < i ==> plans[1..][j].key != key;
        assert plans[i + 1] == FindPlan(plans, key).value;
      }
    }
  }

  predicate Known(s: Store, refs: seq<string>) {
    forall r :: r in refs ==> r in s.invoices
  }

  lemma {:induction false} RowsAre(invoices: map<string, Account>, refs: seq<string>)
    ensures var rows := Rows(invoices, refs);
            && |rows| <= |refs| && (|rows| == |refs| <==> forall r :: r in refs ==> r in invoices)
            && (|rows| == |refs| ==> forall i :: 0 <= i < |refs| ==> rows[i] == invoices[refs[i]])
  {
    if refs != [] {
      RowsAre(invoices, refs[1..]);
      assert forall r :: r in refs <==> r == refs[0] || r in refs[1..];
      assert forall i :: 0 < i < |refs| ==> refs[i] == refs[1..][i - 1];
    }
  }

  /** One customer owns all the invoices named. */
  predicate OneOwner(s: Store, refs: seq<string>)
    requires Known(s, refs)
  {
    forall r, q :: r in refs && q in refs ==> s.invoices[r].customer == s.invoices[q].customer
  }

  lemma {:induction false} OwnersAgree(s: Store, refs: seq<string>, rows: seq<Account>)
    requires Known(s, refs) && rows == Rows(s.invoices, Distinct(refs)) && rows != []
    ensures |rows| == |Distinct(refs)|
    ensures OneOwner(s, refs) <==> forall i :: 0 <= i < |rows| ==> rows[i].customer == rows[0].customer
    ensures exists r :: r in refs && rows[0].customer == s.invoices[r].customer
  {
    var once := Distinct(refs);
    DistinctSound(refs);
    RowsAre(s.invoices, once);
    hide Rows, Distinct;
    assert once[0] in refs;
    if forall i :: 0 <= i < |rows| ==> rows[i].customer == rows[0].customer {
      forall r | r in refs ensures s.invoices[r].customer == rows[0].customer {
        var i :| 0 <= i < |once| && once[i] == r;
      }
    }
    if OneOwner(s, refs) {
      forall i | 0 <= i < |rows| ensures rows[i].customer == rows[0].customer {
        assert once[i] in refs;
      }
    }
  }

  /** What is open on a list of invoices, nothing on an unknown one. */
  function OpenOn(s: Store, refs: seq<string>): seq<int> {
    seq(|refs|, i requires 0 <= i < |refs| => if refs[i] in s.invoices then s.invoices[refs[i]].open else 0)
  }

  lemma {:induction false} OpenSums(s: Store, refs: seq<string>)
    requires Known(s, refs)
    ensures OpenTotal(Rows(s.invoices, refs)) == Sum(OpenOn(s, refs))
  {
    if refs != [] {
      assert refs[0] in refs;
      OpenSums(s, refs[1..]);
      assert OpenOn(s, refs)[1..] == OpenOn(s, refs[1..]);
      var row, rest := s.invoices[refs[0]], Rows(s.invoices, refs[1..]);
      assert Rows(s.invoices, refs) == [row] + rest && ([row] + rest)[1..] == rest;
    }
  }

  /** A request for a payment plan: it is not found if one of its invoices is unknown, and in conflict if it names none
      or those of two customers; otherwise one plan is added, of the request's own references, for the discounted
      sum of what is open on each invoice once, and nothing else is touched. A used key answers with the first plan
      of that key. */
  lemma {:induction false} PlanAnswers(s: Store, req: PlanRequest)
    requires 1 <= req.count <= 12 && req.scale > 0
    ensures var (r, t) := CreatePlan(s, req);
            if PlanUsed(s, req.key) then
              && t == s && r.Ok?
              && exists i :: 0 <= i < |s.plans| && s.plans[i] == r.value && s.plans[i].key == req.key
                             && forall j :: 0 <= j < i ==> s.plans[j].key != req.key
            else if !Known(s, req.refs) then r == Err(NotFound) && t == s
            else if req.refs == [] || !OneOwner(s, req.refs) then r == Err(Conflict) && t == s
            else
              && r.Ok? && t == Store(s.invoices, s.memos, s.plans + [r.value])
              && r.value.key == req.key && r.value.refs == req.refs
              && (forall ref :: ref in req.refs ==> r.value.customer == s.invoices[ref].customer)
              && Nearest(Sum(OpenOn(s, Distinct(req.refs))) * (100 * req.scale - req.pct), 100 * req.scale,
                  r.value.total)
              && r.value.instalments == Plan(r.value.total, req.count, req.firstDue)
  {
    var once := Distinct(req.refs);
    var rows := Rows(s.invoices, once);
    PlanFound(s.plans, req.key);
    hide FindPlan;
    if PlanUsed(s, req.key) {
      return;
    }
    NamedRows(s, req.refs);
    if Known(s, req.refs) && rows != [] {
      OpenSums(s, once);
      OwnersAgree(s, req.refs, rows);
    }
    HalfEvenNear(OpenTotal(rows) * (100 * req.scale - req.pct), 100 * req.scale);
    hide Distinct, Rows, OpenTotal, Nearest, HalfEven, Plan, Sum, OneOwner, PlanUsed;
  }

  /** The rows of a plan are complete exactly if every invoice is known, and none exactly if none is named. */
  lemma {:induction false} NamedRows(s: Store, refs: seq<string>)
    ensures var once := Distinct(refs);
            && (|Rows(s.invoices, once)| == |once| <==> Known(s, refs))
            && (Known(s, refs) ==> Known(s, once) && (Rows(s.invoices, once) == [] <==> refs == []))
  {
    var once := Distinct(refs);
    DistinctSound(refs);
    RowsAre(s.invoices, once);
    hide Distinct, Rows;
    assert refs != [] ==> refs[0] in once;
    assert once != [] ==> once[0] in refs;
  }

  /** The share of a plan is its total over the count, to the nearest cent and a half to the even one. */
  lemma {:induction false} ShareIsNearest(total: int, n: nat, firstDue: int, i: nat)
    requires i + 1 < n
    ensures Nearest(total, n, Plan(total, n, firstDue)[i].amount)
  {
    HalfEvenNear(total, n);
    assert Plan(total, n, firstDue)[i].amount == Per(total, n) == HalfEven(total, n);
  }

  // ---------- seeding ----------

  lemma {:induction false} RunSnoc(s: Store, ops: seq<Op>, last: Op)
    requires AllAdmissible(ops) && Admissible(last) && AllAdmissible(ops + [last])
    ensures Run(s, ops + [last]) == Step(Run(s, ops), last)
    decreases |ops|
  {
    var all := ops + [last];
    if ops == [] {
      assert all == [last] && all[1..] == [];
      assert Run(s, all) == Run(Step(s, last), []);
    } else {
      assert all[0] == ops[0] && AllAdmissible(all[1..]);
      assert all[1..] == ops[1..] + [last];
      RunSnoc(Step(s, ops[0]), ops[1..], last);
    }
  }

  /** Whatever went before, a new dataset leaves its invoices and no memo and no plan. */
  lemma {:induction false} SeedForgets(s: Store, ops: seq<Op>, invoices: map<string, Account>)
    requires AllAdmissible(ops) && Admissible(Seed(invoices))
    ensures AllAdmissible(ops + [Seed(invoices)]) && Run(s, ops + [Seed(invoices)]) == Store(invoices, [], [])
  {
    var all := ops + [Seed(invoices)];
    assert forall i :: 0 <= i < |all| ==> all[i] == if i < |ops| then ops[i] else Seed(invoices);
    RunSnoc(s, ops, Seed(invoices));
  }
}
