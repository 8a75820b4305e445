/**
 The scenario generator's money: one purchase order turned into one invoice whose ground truth is known.
 Amounts are cents; the random draws are arbitrary values of the ranges the generator draws from.
 */
module Scenarios {
  import opened Common
  import opened Money

  datatype Scenario =
    | Clean | DisputePricing | DisputeQuantity | MissingPo | WrongContact | ShortPay | DuplicateInvoice | CashFlow

  datatype InvoiceStatus = Open | PartiallyPaid | Paid | Void

  datatype Line = Line(no: nat, qty: nat, price: nat, amount: nat)

  /** One overpriced line; `bump` is the factor in thousandths. */
  datatype Pick = Pick(line: nat, bump: nat)

  datatype Draw = Draw(
    scenario: Scenario, billable: bool, freight: nat, picks: seq<Pick>, short: nat, factor: nat,
    deducted: nat, pastDue: bool, settled: bool)

  datatype Invoice = Invoice(
    scenario: Scenario, lines: seq<Line>, delivered: seq<nat>, freight: nat, subtotal: int, tax: int, total: int,
    paid: int, open: int, status: InvoiceStatus, expected: int)

  // ---------- the purchase order ----------

  datatype Item = Item(qty: nat, price: nat)

  const QUANTITIES: set<nat> := {1, 2, 4, 5, 10, 12, 20, 25, 50, 100}

  /** List price 8.00 to 480.00 less a discount of up to 15 percent. */
  function ContractPrice(list: nat, discount: nat): nat
    requires discount <= 100
  {
    HalfUp(list * (100 - discount), 100)
  }

  lemma {:induction false} ContractPriceRange(list: nat, discount: nat)
    requires 800 <= list <= 48000 && discount <= 15
    ensures 680 <= ContractPrice(list, discount) <= 48000
  {
    Scale(800, list, 100 - discount);
    Scale(list, 48000, 100 - discount);
    HalfUpOfRange(list * (100 - discount));
  }

  lemma {:induction false} HalfUpOfRange(n: nat)
    requires 68000 <= n <= 4800000
    ensures 680 <= HalfUp(n, 100) <= 48000
  {
  }

  predicate GoodItem(item: Item) {
    item.qty in QUANTITIES && 680 <= item.price <= 48000
  }

  function Subtotal(lines: seq<Line>): nat {
    if lines == [] then 0 else lines[0].amount + Subtotal(lines[1..])
  }

  lemma {:induction false} SubtotalConcat(a: seq<Line>, b: seq<Line>)
    ensures Subtotal(a + b) == Subtotal(a) + Subtotal(b)
  {
    if a == [] {
      assert a + b == b;
    } else {
      assert (a + b)[1..] == a[1..] + b;
      SubtotalConcat(a[1..], b);
    }
  }

  /** Line i carries number i + 1 and its amount is the product. */
  predicate Billed(lines: seq<Line>) {
    forall i :: 0 <= i < |lines| ==> lines[i].no == i + 1 && lines[i].amount == lines[i].qty * lines[i].price
  }

  predicate Priced(lines: seq<Line>) {
    lines != [] && Billed(lines) && forall i :: 0 <= i < |lines| ==> GoodItem(Item(lines[i].qty, lines[i].price))
  }

  datatype Order = Order(lines: seq<Line>, total: nat)

  /** `_po` followed by `_invoice_lines_from_po`: the invoice subtotal is the order's total. */
  method OrderLines(items: seq<Item>) returns (order: Order)
    requires items != [] && forall i :: 0 <= i < |items| ==> GoodItem(items[i])
    ensures Priced(order.lines) && |order.lines| == |items|
    ensures forall i :: 0 <= i < |items| ==> Item(order.lines[i].qty, order.lines[i].price) == items[i]
    ensures order.total == Subtotal(order.lines)
  {
    var lines, total: nat := [], 0;
    for i := 0 to |items|
      invariant |lines| == i && Billed(lines) && total == Subtotal(lines)
      invariant forall k :: 0 <= k < i ==> Item(lines[k].qty, lines[k].price) == items[k]
    {
      var line := Line(i + 1, items[i].qty, items[i].price, items[i].qty * items[i].price);
      SubtotalConcat(lines, [line]);
      lines := lines + [line];
      total := total + items[i].qty * items[i].price;
    }
    return Order(lines, total);
  }

  function Tax(subtotal: nat): nat {
    HalfUp(7 * subtotal, 100)
  }

  function Total(lines: seq<Line>, freight: nat): nat {
    Subtotal(lines) + freight + Tax(Subtotal(lines))
  }

  // ---------- the pricing arm ----------

  function Bumped(line: Line, bump: nat): Line {
    var price := HalfUp(line.price * bump, 1000);
    line.(price := price, amount := line.qty * price)
  }

  function Repriced(lines: seq<Line>, picks: seq<Pick>): (r: seq<Line>)
    requires forall p :: p in picks ==> p.line < |lines|
    ensures |r| == |lines|
    decreases |picks|
  {
    if picks == [] then lines
    else
      var i := picks[0].line;
      Repriced(lines[i := Bumped(lines[i], picks[0].bump)], picks[1..])
  }

  function Overcharge(lines: seq<Line>, picks: seq<Pick>): int
    requires forall p :: p in picks ==> p.line < |lines|
    decreases |picks|
  {
    if picks == [] then 0
    else
      var i := picks[0].line;
      var next := Bumped(lines[i], picks[0].bump);
      (next.price - lines[i].price) * lines[i].qty + Overcharge(lines[i := next], picks[1..])
  }

  method Reprice(lines0: seq<Line>, picks: seq<Pick>) returns (lines: seq<Line>, credit: int)
    requires forall p :: p in picks ==> p.line < |lines0|
    ensures lines == Repriced(lines0, picks) && credit == Overcharge(lines0, picks)
  {
    lines, credit := lines0, 0;
    for k := 0 to |picks|
      invariant |lines| == |lines0|
      invariant Repriced(lines, picks[k..]) == Repriced(lines0, picks)
      invariant credit + Overcharge(lines, picks[k..]) == Overcharge(lines0, picks)
    {
      assert picks[k..][1..] == picks[k + 1..];
      var i := picks[k].line;
      var line := lines[i];
      var price := HalfUp(line.price * picks[k].bump, 1000);
      credit := credit + (price - line.price) * line.qty;
      line := line.(price := price);
      line := line.(amount := line.qty * price);
      lines := lines[i := line];
    }
  }

  /** What is credited is exactly what the new prices added to the subtotal. */
  lemma {:induction false} RepriceAddsOvercharge(lines: seq<Line>, picks: seq<Pick>)
    requires Billed(lines) && forall p :: p in picks ==> p.line < |lines|
    ensures Billed(Repriced(lines, picks))
    ensures Subtotal(Repriced(lines, picks)) == Subtotal(lines) + Overcharge(lines, picks)
    decreases |picks|
  {
    if picks != [] {
      var i := picks[0].line;
      var next := Bumped(lines[i], picks[0].bump);
      SubtotalUpdate(lines, i, next);
      assert lines[i].qty * next.price - lines[i].qty * lines[i].price == (next.price - lines[i].price) * lines[i].qty;
      RepriceAddsOvercharge(lines[i := next], picks[1..]);
    }
  }

  lemma {:induction false} SubtotalUpdate(lines: seq<Line>, i: nat, next: Line)
    requires i < |lines|
    ensures Subtotal(lines[i := next]) == Subtotal(lines) - lines[i].amount + next.amount
  {
    if i > 0 {
      assert lines[i := next][1..] == lines[1..][i - 1 := next];
      SubtotalUpdate(lines[1..], i - 1, next);
    }
  }

  predicate GoodPicks(lines: seq<Line>, picks: seq<Pick>) {
    picks != [] && forall p :: p in picks ==> p.line < |lines| && 1050 <= p.bump <= 1220
  }

  lemma {:induction false} BumpRaises(price: nat, bump: nat)
    requires price >= 680 && bump >= 1050
    ensures HalfUp(price * bump, 1000) >= price + 34
  {
    HalfUpIsNearest(price * bump, 1000);
    Scale(1050, bump, price);
  }

  lemma {:induction false} BumpGains(line: Line, bump: nat)
    requires line.qty >= 1 && line.price >= 680 && bump >= 1050
    ensures var next := Bumped(line, bump);
        (next.price - line.price) * line.qty >= 34 && next.qty == line.qty && next.price >= 680
  {
    BumpRaises(line.price, bump);
    Scale(1, line.qty, Bumped(line, bump).price - line.price);
  }

  predicate Sellable(lines: seq<Line>) {
    forall i :: 0 <= i < |lines| ==> lines[i].qty >= 1 && lines[i].price >= 680
  }

  lemma {:induction false} OverchargePositive(lines: seq<Line>, picks: seq<Pick>)
    requires Sellable(lines)
    requires forall p :: p in picks ==> p.line < |lines| && p.bump >= 1050
    ensures Overcharge(lines, picks) >= 34 * |picks|
    decreases |picks|
  {
    if picks != [] {
      var i := picks[0].line;
      BumpGains(lines[i], picks[0].bump);
      hide Bumped;
      OverchargePositive(lines[i := Bumped(lines[i], picks[0].bump)], picks[1..]);
    }
  }

  // ---------- the quantity arm ----------

  /** Delivered units: the drawn share of the billed ones rounded half even, and strictly fewer. */
  function Delivered(qty: nat, factor: nat): int {
    Min(HalfEven(qty * factor, 100), qty - 1)
  }

  lemma {:induction false} DeliveredShort(qty: nat, factor: nat)
    requires qty >= 1
    ensures 0 <= Delivered(qty, factor) < qty
  {
    HalfEvenNear(qty * factor, 100);
  }

  function FullDelivery(lines: seq<Line>): (r: seq<nat>)
    ensures |r| == |lines|
  {
    seq(|lines|, i requires 0 <= i < |lines| => lines[i].qty)
  }

  method ShortDelivery(lines: seq<Line>, i: nat, delivered: nat) returns (qtys: seq<nat>)
    requires Billed(lines) && i < |lines|
    ensures qtys == FullDelivery(lines)[i := delivered]
  {
    qtys := FullDelivery(lines);
    for k := 0 to |lines|
      invariant |qtys| == |lines|
      invariant forall j :: 0 <= j < |lines| ==> qtys[j] == if j < k && j == i then delivered else lines[j].qty
    {
      if lines[k].no == lines[i].no {
        qtys := qtys[k := delivered];
      }
    }
  }

  // ---------- one invoice ----------

  /** A dispute's expected credit: the net overcharge plus tax. */
  function WithTax(credit: nat): nat {
    HalfUp(107 * credit, 100)
  }

  predicate InRange(lines: seq<Line>, d: Draw) {
    && Priced(lines)
    && (d.freight > 0 ==> d.billable && 1500 <= d.freight <= 22000)
    && GoodPicks(lines, d.picks) && d.short < |lines| && d.factor in {50, 60, 75, 80}
    && 4000 <= d.deducted <= 20000
  }

  function Finish(
      scenario: Scenario, lines: seq<Line>, delivered: seq<nat>, freight: nat, paid: int, status: InvoiceStatus,
      expected: int)
      : Invoice
  {
    var total := Total(lines, freight);
    Invoice(scenario, lines, delivered, freight, Subtotal(lines), Tax(Subtotal(lines)), total, paid, total - paid,
        status, expected)
  }

  function Pricing(lines: seq<Line>, d: Draw): Invoice
    requires InRange(lines, d)
  {
    OverchargePositive(lines, d.picks);
    var billed := Repriced(lines, d.picks);
    Finish(DisputePricing, billed, FullDelivery(billed), d.freight, 0, Open, WithTax(Overcharge(lines, d.picks)))
  }

  function Undelivered(line: Line, factor: nat): nat
    requires line.qty >= 1
  {
    DeliveredShort(line.qty, factor);
    (line.qty - Delivered(line.qty, factor)) * line.price
  }

  function Quantity(lines: seq<Line>, d: Draw): Invoice
    requires InRange(lines, d)
  {
    var line := lines[d.short];
    DeliveredShort(line.qty, d.factor);
    var delivered := FullDelivery(lines)[d.short := Delivered(line.qty, d.factor)];
    Finish(DisputeQuantity, lines, delivered, d.freight, 0, Open, WithTax(Undelivered(line, d.factor)))
  }

  function Generated(lines: seq<Line>, d: Draw): Invoice
    requires InRange(lines, d)
  {
    var full := FullDelivery(lines);
    match d.scenario
    case DisputePricing => Pricing(lines, d)
    case DisputeQuantity => Quantity(lines, d)
    case ShortPay =>
      var freight := if d.freight == 0 then d.deducted else d.freight;
      var paid := Total(lines, freight) - freight;
      Finish(d.scenario, lines, full, freight, paid, PartiallyPaid, if d.billable then 0 else freight)
    case DuplicateInvoice => Finish(d.scenario, lines, full, d.freight, 0, Open, Total(lines, d.freight))
    case Clean =>
      if d.pastDue && d.settled then Finish(Clean, lines, full, d.freight, Total(lines, d.freight), Paid, 0)
      else Finish(if d.pastDue then CashFlow else Clean, lines, full, d.freight, 0, Open, 0)
    case _ => Finish(d.scenario, lines, full, d.freight, 0, Open, 0)
  }

  method Generate(lines0: seq<Line>, d: Draw) returns (inv: Invoice)
    requires InRange(lines0, d)
    ensures inv == Generated(lines0, d)
  {
    hide HalfUp, HalfEven, Subtotal, Repriced, Overcharge;
    var scenario, lines, freight := d.scenario, lines0, d.freight;
    var status, paid: int, expected: int := Open, 0, 0;
    var short: Option<nat> := None;
    if scenario == DisputePricing {
      var credit;
      lines, credit := Reprice(lines0, d.picks);
      OverchargePositive(lines0, d.picks);
      expected := HalfUp(107 * credit, 100);
    } else if scenario == DisputeQuantity {
      var line := lines[d.short];
      var delivered := Min(HalfEven(line.qty * d.factor, 100), line.qty - 1);
      DeliveredShort(line.qty, d.factor);
      expected := HalfUp(107 * Undelivered(line, d.factor), 100);
      short := Some(delivered);
    } else if scenario == ShortPay {
      if freight == 0 {
        freight := d.deducted;
      }
      paid := Total(lines, freight) - freight;
      status := PartiallyPaid;
      expected := if d.billable then 0 else freight;
    }
    var total := Total(lines, freight);
    if scenario == DuplicateInvoice {
      expected := total;
    }
    if scenario == Clean && d.settled && d.pastDue {
      status, paid := Paid, total;
    } else if scenario == Clean && d.pastDue {
      scenario := CashFlow;
    }
    var delivered := FullDelivery(lines);
    if short.Some? {
      delivered := ShortDelivery(lines, d.short, short.value);
    }
    inv := Invoice(scenario, lines, delivered, freight, Subtotal(lines), Tax(Subtotal(lines)), total, paid,
        total - paid, status, expected);
  }

  // ---------- the ground truth ----------

  lemma {:induction false} TaxSplits(a: nat, b: nat)
    ensures WithTax(b) == b + Tax(b)
    ensures -1 <= Tax(a + b) - Tax(a) - Tax(b) <= 1
    ensures Tax(a) <= Tax(a + b)
  {
  }

  /** The lines as they should have been billed: contract prices for what was delivered. */
  function Corrected(lines: seq<Line>, delivered: seq<nat>): (r: seq<Line>)
    requires |delivered| == |lines|
    ensures |r| == |lines|
  {
    seq(|lines|, i requires 0 <= i < |lines| => lines[i].(qty := delivered[i], amount := delivered[i] * lines[i].price))
  }

  lemma {:induction false} CorrectedShort(lines: seq<Line>, i: nat, got: nat)
    requires Billed(lines) && i < |lines| && got <= lines[i].qty
    ensures Subtotal(lines) == Subtotal(Corrected(lines, FullDelivery(lines)[i := got]))
        + (lines[i].qty - got) * lines[i].price
  {
    var fixed := lines[i].(qty := got, amount := got * lines[i].price);
    assert Corrected(lines, FullDelivery(lines)[i := got]) == lines[i := fixed];
    SubtotalUpdate(lines, i, fixed);
    assert lines[i].qty * lines[i].price - got * lines[i].price == (lines[i].qty - got) * lines[i].price;
  }

  lemma {:induction false} WithinACent(billed: seq<Line>, corrected: seq<Line>, credit: nat, freight: nat)
    requires Subtotal(billed) == Subtotal(corrected) + credit
    ensures var expected, off := WithTax(credit), Total(billed, freight) - Total(corrected, freight);
            -1 <= expected - off <= 1 && expected <= Total(billed, freight)
            && (expected == off <==> Tax(Subtotal(billed)) == Tax(Subtotal(corrected)) + Tax(credit))
  {
    TaxSplits(Subtotal(corrected), credit);
    TaxSplits(credit, Subtotal(corrected));
  }

  /** What the customer rightly owes in total: contract prices for what was delivered, freight only where
      the contract bills it, and nothing for the second invoice of one order. */
  function Due(lines: seq<Line>, d: Draw): int
    requires InRange(lines, d)
  {
    var inv := Generated(lines, d);
    match d.scenario
    case DisputeQuantity => Total(Corrected(lines, inv.delivered), d.freight)
    case DuplicateInvoice => 0
    case ShortPay => Total(lines, if d.billable then inv.freight else 0)
    case _ => Total(lines, d.freight)
  }

  predicate Unpaid(inv: Invoice) {
    inv.paid == 0 && inv.open == inv.total == Total(inv.lines, inv.freight) && inv.status == Open
  }

  lemma {:induction false} PricingFacts(lines: seq<Line>, d: Draw)
    requires InRange(lines, d)
    ensures var inv := Pricing(lines, d);
            -1 <= inv.expected - (inv.total - Total(lines, inv.freight)) <= 1 && 0 < inv.expected <= inv.total
                && Unpaid(inv)
  {
    RepriceAddsOvercharge(lines, d.picks);
    OverchargePositive(lines, d.picks);
    var credit := Overcharge(lines, d.picks);
    hide Repriced, Overcharge, Subtotal;
    WithinACent(Repriced(lines, d.picks), lines, credit, d.freight);
    TaxSplits(0, credit);
  }

  lemma {:induction false} QuantityFacts(lines: seq<Line>, d: Draw)
    requires InRange(lines, d)
    ensures var inv := Quantity(lines, d);
            -1 <= inv.expected - (inv.total - Total(Corrected(lines, inv.delivered), inv.freight)) <= 1
                && 0 < inv.expected <= inv.total && Unpaid(inv)
  {
    var line := lines[d.short];
    var got := Delivered(line.qty, d.factor);
    DeliveredShort(line.qty, d.factor);
    CorrectedShort(lines, d.short, got);
    Scale(1, line.qty - got, line.price);
    var credit := Undelivered(line, d.factor);
    hide Subtotal, Delivered;
    WithinACent(lines, Corrected(lines, Quantity(lines, d).delivered), credit, d.freight);
    TaxSplits(0, credit);
  }

  /** The expected credit memo is what was overbilled, to the cent but for the rounding of tax. */
  lemma {:induction false} TruthIsRight(lines: seq<Line>, d: Draw)
    requires InRange(lines, d)
    ensures var inv := Generated(lines, d);
            && -1 <= inv.expected - (inv.total - Due(lines, d)) <= 1
            && (d.scenario !in {DisputePricing, DisputeQuantity} ==> inv.expected == inv.total - Due(lines, d))
            && (d.scenario in {DisputePricing, DisputeQuantity} ==> inv.expected > 0)
  {
    PricingFacts(lines, d);
    QuantityFacts(lines, d);
    hide Pricing, Quantity, Subtotal, HalfUp, Corrected;
  }

  /** The expected memo can be issued: it never exceeds the open amount. */
  lemma {:induction false} TruthIsIssuable(lines: seq<Line>, d: Draw)
    requires InRange(lines, d)
    ensures var inv := Generated(lines, d); 0 <= inv.expected <= inv.open
  {
    PricingFacts(lines, d);
    QuantityFacts(lines, d);
    hide Pricing, Quantity, Total, Tax, Subtotal, FullDelivery, InRange;
  }

  /** Every generated invoice is consistent: totals of its own lines, and open is what is unpaid. */
  lemma {:induction false} SeededConsistent(lines: seq<Line>, d: Draw)
    requires InRange(lines, d)
    ensures var inv := Generated(lines, d);
            && inv.open == inv.total - inv.paid && inv.paid >= 0 && inv.open >= 0
            && inv.total == Total(inv.lines, inv.freight)
  {
    PricingFacts(lines, d);
    QuantityFacts(lines, d);
    TotalCovers(lines, d.freight);
    TotalCovers(lines, d.deducted);
    hide Pricing, Quantity, Total, Tax, Subtotal, FullDelivery, InRange;
  }

  lemma {:induction false} PaidIffNothingOpen(lines: seq<Line>, d: Draw)
    requires InRange(lines, d)
    ensures var inv := Generated(lines, d); inv.status == Paid <==> inv.open == 0
  {
    PricingFacts(lines, d);
    QuantityFacts(lines, d);
    hide Pricing, Quantity, Tax, Subtotal, FullDelivery, InRange;
  }

  lemma {:induction false} TotalCovers(lines: seq<Line>, freight: nat)
    ensures freight <= Total(lines, freight)
  {
  }

  /** Rounding tax separately can miss by a cent either way. */
  lemma {:induction false} TaxRoundingMayDiffer()
    ensures exists a: nat, b: nat :: Tax(a + b) == Tax(a) + Tax(b) + 1
    ensures exists a: nat, b: nat :: Tax(a + b) == Tax(a) + Tax(b) - 1
  {
    assert Tax(7 + 1) == Tax(7) + Tax(1) + 1;
    assert Tax(8 + 8) == Tax(8) + Tax(8) - 1;
  }
}
