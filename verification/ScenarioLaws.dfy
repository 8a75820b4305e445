/** What the generator writes on an invoice, figure by figure, in terms of the order and the draw alone. */
module ScenarioLaws {
  import opened Common
  import opened Money
  import opened Scenarios

  /** t is n hundredths, to the nearest whole and a half upwards. */
  predicate Hundredths(t: int, n: int) {
    2 * n - 100 < 200 * t <= 2 * n + 100
  }

  /** Tax is seven percent, a credit with tax 107 percent, a contract price the list price less the discount, each to
      the nearest cent. */
  lemma {:induction false} NearestCents(amount: nat, discount: nat, t: int)
    requires discount <= 100
    ensures Tax(amount) == t <==> Hundredths(t, 7 * amount)
    ensures WithTax(amount) == t <==> Hundredths(t, 107 * amount)
    ensures ContractPrice(amount, discount) == t <==> Hundredths(t, amount * (100 - discount))
  {
    HundredthsIs(7 * amount, t);
    HundredthsIs(107 * amount, t);
    HundredthsIs(amount * (100 - discount), t);
  }

  lemma {:induction false} HundredthsIs(n: nat, t: int)
    ensures HalfUp(n, 100) == t <==> Hundredths(t, n)
  {
  }

  /** An overpriced line: its price times the bump, to the nearest cent; its amount follows, and nothing else. */
  lemma {:induction false} BumpedLine(line: Line, bump: nat)
    ensures var next := Bumped(line, bump);
            && 2 * (line.price * bump) - 1000 < 2000 * next.price <= 2 * (line.price * bump) + 1000
            && next == Line(line.no, line.qty, next.price, line.qty * next.price)
  {
  }

  lemma {:induction false} Untouched(lines: seq<Line>, picks: seq<Pick>, i: nat)
    requires forall p :: p in picks ==> p.line < |lines| && p.line != i
    ensures i < |lines| ==> Repriced(lines, picks)[i] == lines[i]
    decreases |picks|
  {
    if picks != [] {
      assert picks[0] in picks;
      var next := Bumped(lines[picks[0].line], picks[0].bump);
      hide Bumped;
      Untouched(lines[picks[0].line := next], picks[1..], i);
    }
  }

  /** Each picked line is bumped once, by its own factor; the lines not picked stay. */
  lemma {:induction false} PickedOnce(lines: seq<Line>, picks: seq<Pick>, k: nat)
    requires k < |picks| && forall p :: p in picks ==> p.line < |lines|
    requires forall j :: 0 <= j < |picks| && j != k ==> picks[j].line != picks[k].line
    ensures Repriced(lines, picks)[picks[k].line] == Bumped(lines[picks[k].line], picks[k].bump)
    decreases |picks|
  {
    var i := picks[0].line;
    assert picks[0] in picks;
    var next := lines[i := Bumped(lines[i], picks[0].bump)];
    var rest := picks[1..];
    assert forall j :: 0 <= j < |rest| ==> rest[j] == picks[j + 1];
    assert forall p :: p in rest ==> p in picks;
    hide Bumped;
    if k == 0 {
      Untouched(next, rest, i);
    } else {
      assert picks[0].line != picks[k].line;
      PickedOnce(next, rest, k - 1);
    }
  }

  /** The delivered quantity of the short line: the drawn share to the nearest unit, a half to the even one, but at most
      one less than billed. */
  lemma {:induction false} DeliveredShare(qty: nat, factor: nat, units: int)
    requires -100 <= 2 * (qty * factor - 100 * units) <= 100
    requires 2 * (qty * factor - 100 * units) in {-100, 100} ==> units % 2 == 0
    ensures Delivered(qty, factor) == if units < qty then units else qty - 1
  {
    HalfEvenIsNearest(qty * factor, 100, units);
    hide HalfEven;
  }

  // ---------- the invoice ----------

  predicate Settled(d: Draw) {
    d.scenario == Clean && d.pastDue && d.settled
  }

  /** The sums of an invoice: its own lines, seven percent tax, the freight, and what of it is unpaid. */
  predicate Sums(inv: Invoice) {
    && inv.subtotal == Subtotal(inv.lines) && Hundredths(inv.tax, 7 * inv.subtotal)
    && inv.total == inv.subtotal + inv.freight + inv.tax && inv.open == inv.total - inv.paid
  }

  lemma {:induction false} FinishSums(
      scenario: Scenario, lines: seq<Line>, delivered: seq<nat>, freight: nat, paid: int, status: InvoiceStatus,
      expected: int)
    ensures var inv := Finish(scenario, lines, delivered, freight, paid, status, expected);
            && Sums(inv) && inv.total == Total(lines, freight)
            && inv == Invoice(scenario, lines, delivered, freight, inv.subtotal, inv.tax, inv.total, paid, inv.open,
                              status, expected)
  {
    NearestCents(Subtotal(lines), 0, Tax(Subtotal(lines)));
    hide Subtotal, Hundredths;
  }

  /** The label, the lines and the freight of the invoice, its sums, what is paid on it, and its status. */
  lemma {:induction false} InvoiceFields(lines: seq<Line>, d: Draw)
    requires InRange(lines, d)
    ensures var inv := Generated(lines, d);
            && inv.scenario == (if d.scenario == Clean && d.pastDue && !d.settled then CashFlow else d.scenario)
            && inv.lines == (if d.scenario == DisputePricing then Repriced(lines, d.picks) else lines)
            && inv.freight == (if d.scenario == ShortPay && d.freight == 0 then d.deducted else d.freight)
            && Sums(inv)
            && inv.paid == (if Settled(d) then inv.total else if d.scenario == ShortPay then inv.total - inv.freight
                            else 0)
            && inv.status == (if Settled(d) then Paid else if d.scenario == ShortPay then PartiallyPaid else Open)
  {
    var inv := Generated(lines, d);
    FinishSums(inv.scenario, inv.lines, inv.delivered, inv.freight, inv.paid, inv.status, inv.expected);
    assert inv == Finish(inv.scenario, inv.lines, inv.delivered, inv.freight, inv.paid, inv.status, inv.expected);
    hide Repriced, Subtotal, HalfUp, Overcharge, Priced, GoodPicks, Delivered, Total, Tax, Sums, FullDelivery;
  }

  /** Every line is delivered as billed, but for the chosen line of a quantity dispute. */
  lemma {:induction false} DeliveredAsBilled(lines: seq<Line>, d: Draw)
    requires InRange(lines, d)
    ensures var inv := Generated(lines, d);
            && |inv.delivered| == |inv.lines| == |lines|
            && forall i :: 0 <= i < |lines| ==>
                 inv.delivered[i] == if d.scenario == DisputeQuantity && i == d.short
                                     then Delivered(lines[i].qty, d.factor) else inv.lines[i].qty
  {
    hide Repriced, Subtotal, HalfUp, Overcharge, Priced, GoodPicks, Delivered, Total, Tax;
  }

  /** What the customer is owed back: the overcharge, or the undelivered goods, with tax to the nearest cent; the
      deducted freight where the contract bills none; the whole of a duplicate; nothing else. */
  lemma {:induction false} ExpectedMemo(lines: seq<Line>, d: Draw)
    requires InRange(lines, d)
    ensures var inv := Generated(lines, d);
            match d.scenario
            case DisputePricing => Hundredths(inv.expected, 107 * Overcharge(lines, d.picks))
            case DisputeQuantity =>
              var line := lines[d.short];
              Hundredths(inv.expected, 107 * ((line.qty - Delivered(line.qty, d.factor)) * line.price))
            case ShortPay => inv.expected == if d.billable then 0 else inv.freight
            case DuplicateInvoice => inv.expected == inv.total
            case _ => inv.expected == 0
  {
    var inv := Generated(lines, d);
    if d.scenario == DisputePricing {
      OverchargePositive(lines, d.picks);
      HundredthsIs(107 * Overcharge(lines, d.picks), inv.expected);
    } else if d.scenario == DisputeQuantity {
      HundredthsIs(107 * Undelivered(lines[d.short], d.factor), inv.expected);
    }
    hide Repriced, Subtotal, HalfUp, Overcharge, Priced, GoodPicks, Delivered, Hundredths;
  }
}
