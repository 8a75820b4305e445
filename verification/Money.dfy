/** Whole-cent money: the two rounding rules and the instalment split. */
module Money {
  import opened Common

  // ---------- rounding ----------

  /** n / d rounded to the nearest integer, ties to even: `quantize` without a mode. */
  function HalfEven(n: int, d: int): int
    requires d > 0
  {
    var q, r := n / d, n % d;
    if 2 * r < d || (2 * r == d && q % 2 == 0) then q else q + 1
  }

  /** n / d rounded half up, for the amounts the generator makes (never negative). */
  function HalfUp(n: nat, d: int): nat
    requires d > 0
  {
    (2 * n + d) / (2 * d)
  }

  predicate Nearest(n: int, d: int, q: int) {
    && -d <= 2 * (n - q * d) <= d
    && (2 * (n - q * d) == d || 2 * (n - q * d) == -d ==> q % 2 == 0)
  }

  lemma {:induction false} HalfEvenNear(n: int, d: int)
    requires d > 0
    ensures Nearest(n, d, HalfEven(n, d))
  {
    var q, r := n / d, n % d;
    assert n == q * d + r;
    assert (q + 1) * d == q * d + d;
  }

  /** `HalfEven` is the one integer that is nearest, and even on a tie. */
  lemma {:induction false} HalfEvenIsNearest(n: int, d: int, m: int)
    requires d > 0
    ensures Nearest(n, d, m) <==> m == HalfEven(n, d)
  {
    var q := HalfEven(n, d);
    HalfEvenNear(n, d);
    hide HalfEven;
    if m < q {
      NearestOnce(n, d, m, q);
    } else if q < m {
      NearestOnce(n, d, q, m);
    }
  }

  /** Two nearest integers would be neighbours, hence both ties, hence not both even. */
  lemma {:induction false} NearestOnce(n: int, d: int, a: int, b: int)
    requires d > 0 && a < b
    ensures !Nearest(n, d, a) || !Nearest(n, d, b)
  {
    var k := b - a;
    assert b * d == a * d + k * d;
    assert k == 1 ==> a % 2 != b % 2;
    if k > 1 {
      Scale(2, k, d);
    }
  }

  lemma {:induction false} Scale(a: int, b: int, d: int)
    requires a <= b && d >= 0
    ensures a * d <= b * d
  {
    assert b * d - a * d == (b - a) * d;
  }

  lemma {:induction false} HalfUpIsNearest(n: nat, d: int)
    requires d > 0
    ensures var q := HalfUp(n, d); 2 * n - d < 2 * (q * d) <= 2 * n + d
  {
    var q := HalfUp(n, d);
    assert 2 * n + d == (2 * d) * q + (2 * n + d) % (2 * d);
    assert (2 * d) * q == 2 * (q * d);
  }

  // ---------- discount ----------

  /** `total_open` less `pct / scale` percent. */
  function Discounted(total: int, pct: int, scale: int): int
    requires scale > 0
  {
    HalfEven(total * (100 * scale - pct), 100 * scale)
  }

  /** For any discount whatever: the result is negative exactly when the discount exceeds 100 percent by
      more than half a cent's worth, above the total exactly when it is below zero by as much. */
  lemma {:induction false} DiscountRangeIff(total: nat, pct: int, scale: int)
    requires scale > 0
    ensures var d, r := 100 * scale, Discounted(total, pct, scale);
            && (0 <= r <==> 2 * (total * (pct - d)) <= d)
            && (r <= total <==> -2 * (total * pct) < d || (-2 * (total * pct) == d && total % 2 == 0))
  {
    var d := 100 * scale;
    var n := total * (d - pct);
    assert n == total * d - total * pct && n == -(total * (pct - d));
    Above(n, d, 0);
    Above(n, d, total + 1);
    assert (total + 1) * d == total * d + d;
  }

  /** A rounded quotient reaches m exactly when the quotient reaches m - 1/2, the tie going to even. */
  lemma {:induction false} Above(n: int, d: int, m: int)
    requires d > 0
    ensures HalfEven(n, d) >= m <==> 2 * (n - m * d) > -d || (2 * (n - m * d) == -d && m % 2 == 0)
  {
    var q := HalfEven(n, d);
    HalfEvenNear(n, d);
    var k := q - m;
    assert q * d == m * d + k * d;
    if k >= 1 {
      Scale(1, k, d);
    } else if k <= -2 {
      Scale(k, -2, d);
    } else if k == -1 {
      Parity(q);
    }
  }

  lemma {:induction false} Parity(q: int)
    ensures (q + 1) % 2 != q % 2
  {
  }

  /** A discount of 0 to 100 percent leaves between nothing and everything. */
  lemma {:induction false} DiscountInRange(total: nat, pct: int, scale: int)
    requires scale > 0 && 0 <= pct <= 100 * scale
    ensures 0 <= Discounted(total, pct, scale) <= total
    ensures pct == 0 ==> Discounted(total, pct, scale) == total
    ensures pct == 100 * scale ==> Discounted(total, pct, scale) == 0
  {
    var d := 100 * scale;
    var n := total * (d - pct);
    DiscountRangeIff(total, pct, scale);
    Scale(0, total, d - pct);
    Scale(0, total, pct);
    assert total * (pct - d) == -(total * (d - pct));
    if pct == 0 {
      HalfEvenIsNearest(n, d, total);
    }
    if pct == d {
      HalfEvenIsNearest(n, d, 0);
    }
  }

  // ---------- instalments ----------

  datatype Instalment = Instalment(n: nat, due: int, amount: int)

  function Per(total: int, n: int): int
    requires n > 0
  {
    HalfEven(total, n)
  }

  function Last(total: int, n: int): int
    requires n > 0
  {
    total - (n - 1) * Per(total, n)
  }

  function Plan(total: int, n: nat, firstDue: int): seq<Instalment>
    requires n > 0
  {
    seq(n, i requires 0 <= i < n =>
      Instalment(i + 1, firstDue + 30 * i, if i < n - 1 then Per(total, n) else Last(total, n)))
  }

  method SplitPlan(total: int, n: nat, firstDue: int) returns (instalments: seq<Instalment>)
    requires n > 0
    ensures instalments == Plan(total, n, firstDue)
  {
    var per := Per(total, n);
    var remaining := total;
    instalments := [];
    for i := 0 to n
      invariant |instalments| == i && forall k :: 0 <= k < i ==> instalments[k] == Plan(total, n, firstDue)[k]
      invariant i < n ==> remaining == total - i * per
    {
      assert (i + 1) * per == i * per + per;
      assert i == n - 1 ==> remaining == Last(total, n);
      var amount := if i < n - 1 then per else remaining;
      remaining := remaining - amount;
      instalments := instalments + [Instalment(i + 1, firstDue + 30 * i, amount)];
    }
  }

  function Amounts(plan: seq<Instalment>): (r: seq<int>)
    ensures |r| == |plan| && forall i :: 0 <= i < |plan| ==> r[i] == plan[i].amount
  {
    if plan == [] then [] else [plan[0].amount] + Amounts(plan[1..])
  }

  lemma {:induction false} SumOfEquals(s: seq<int>, x: int)
    requires forall i :: 0 <= i < |s| ==> s[i] == x
    ensures Sum(s) == |s| * x
  {
    if s != [] {
      SumOfEquals(s[1..], x);
      assert |s| * x == (|s| - 1) * x + x;
    }
  }

  /** The instalments add up to the total exactly, whatever the rounding. */
  lemma {:induction false} PlanSums(total: int, n: nat, firstDue: int)
    requires n > 0
    ensures Sum(Amounts(Plan(total, n, firstDue))) == total
  {
    var s := Amounts(Plan(total, n, firstDue));
    SumOfEquals(s[..n - 1], Per(total, n));
    SumConcat(s[..n - 1], [Last(total, n)]);
    assert s == s[..n - 1] + [Last(total, n)];
  }

  /** All but the last are equal, the last is within n/2 cents of them, and due dates are 30 days apart. */
  lemma {:induction false} PlanIsEven(total: int, n: nat, firstDue: int, i: nat)
    requires i < n
    ensures var p := Plan(total, n, firstDue);
            && |p| == n && p[i].n == i + 1 && p[0].due == firstDue
            && (i + 1 < n ==> p[i].amount == p[0].amount && p[i + 1].due == p[i].due + 30)
            && 2 * (p[n - 1].amount - p[i].amount) <= n && 2 * (p[i].amount - p[n - 1].amount) <= n
  {
    LastNear(total, n);
  }

  lemma {:induction false} LastNear(total: int, n: int)
    requires n > 0
    ensures 2 * (Last(total, n) - Per(total, n)) <= n && 2 * (Per(total, n) - Last(total, n)) <= n
  {
    var p := Per(total, n);
    HalfEvenNear(total, n);
    assert (n - 1) * p == p * n - p;
  }

  /** The last instalment is negative exactly when the share was rounded up and the quotient plus the
      remainder cannot pay for it. */
  lemma {:induction false} LastNegativeIff(total: int, n: nat)
    requires n > 0
    ensures Last(total, n) < 0
        <==> if Per(total, n) == total / n then total / n + total % n < 0 else total / n + total % n < n - 1
  {
    var q := total / n;
    assert total == n * q + total % n;
    assert (n - 1) * q == n * q - q;
    assert (n - 1) * (q + 1) == n * q - q + n - 1;
  }

  /** From n(n-1)/2 cents on, no instalment is negative. */
  lemma {:induction false} PlanNonNegative(total: int, n: nat, firstDue: int, i: nat)
    requires i < n && 2 * total >= n * (n - 1)
    ensures Plan(total, n, firstDue)[i].amount >= 0
  {
    var p, last := Per(total, n), Last(total, n);
    Scale(0, n - 1, n);
    HalfEvenNear(total, n);
    if p < 0 {
      Scale(p, -1, n);
    }
    if n > 1 {
      Scale(2 * (p * n), 2 * total + n, n - 1);
      assert last == total - n * p + p;
      LastBound(total, n, p, last);
    }
  }

  lemma {:induction false} LastBound(total: int, n: int, p: int, last: int)
    requires n > 1 && 2 * total >= n * (n - 1) && last == total - (n - 1) * p
    requires 2 * (p * n) <= 2 * total + n
    ensures last >= 0
  {
    var t := n * total;
    assert n * last == t - (n - 1) * (p * n);
    Scale(2 * (p * n), 2 * total + n, n - 1);
    assert (n - 1) * (2 * total + n) == 2 * t - 2 * total + n * (n - 1);
    assert 2 * (n * last) >= 2 * total - n * (n - 1);
    if last < 0 {
      Scale(last, -1, n);
    }
  }

  /** Seven cents in twelve instalments: eleven of one cent and one of minus four. */
  lemma {:induction false} SmallPlanGoesNegative()
    ensures Per(7, 12) == 1 && Last(7, 12) == -4
  {
  }
}
