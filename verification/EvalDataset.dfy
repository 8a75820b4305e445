/** Building a balanced evaluation dataset: the eligibility filter and the round-robin pick. */
module EvalDataset {
  import opened Common
  import L = ErpLedger

  /** An overdue invoice with its ground truth's root cause and its case's customer, where they exist. */
  datatype Candidate = Candidate(
    ref: string, customer: string, cause: Option<string>, caseCustomer: Option<string>, total: int, paid: int,
        open: int)

  datatype Fate = Ignored | Mismatch | Credited | Eligible

  function FateOf(scenarios: seq<string>, c: Candidate): Fate {
    if c.cause.None? || c.cause.value == "NONE" then Ignored
    else if scenarios != [] && c.cause.value !in scenarios then Ignored
    else if c.caseCustomer.None? then Ignored
    else if c.caseCustomer.value != c.customer then Mismatch
    else if c.open != c.total - c.paid then Credited
    else Eligible
  }

  /** A cause to evaluate: known, not NONE, and among the scenarios asked for, if any are. */
  predicate Wanted(scenarios: seq<string>, c: Candidate) {
    c.cause.Some? && c.cause.value != "NONE" && (scenarios == [] || c.cause.value in scenarios)
  }

  /** What becomes of an invoice: taken into its cause's bucket if its case is its own customer's and nothing was
      credited on it, counted as skipped in either other case, and passed over without a wanted cause or a case. */
  lemma {:induction false} FateIs(scenarios: seq<string>, c: Candidate, cause: string)
    ensures var wanted := Wanted(scenarios, c);
            && (Has(scenarios, Mismatch)(c) <==> wanted && c.caseCustomer.Some? && c.caseCustomer.value != c.customer)
            && (Has(scenarios, Credited)(c) <==>
                  wanted && c.caseCustomer == Some(c.customer) && c.open != c.total - c.paid)
            && (Has(scenarios, Eligible)(c) <==>
                  wanted && c.caseCustomer == Some(c.customer) && c.open == c.total - c.paid)
            && (InBucket(scenarios, cause)(c) <==>
                  && wanted && c.caseCustomer == Some(c.customer) && c.open == c.total - c.paid
                  && c.cause.value == cause)
            && (OfCause(cause)(c) <==> c.cause.Some? && c.cause.value == cause)
  {
  }

  function Has(scenarios: seq<string>, fate: Fate): Candidate -> bool {
    (c: Candidate) => FateOf(scenarios, c) == fate
  }

  function InBucket(scenarios: seq<string>, cause: string): Candidate -> bool {
    (c: Candidate) => FateOf(scenarios, c) == Eligible && c.cause == Some(cause)
  }

  function OfCause(cause: string): Candidate -> bool {
    (c: Candidate) => c.cause == Some(cause)
  }

  function Bucket(scenarios: seq<string>, invoices: seq<Candidate>, cause: string): seq<Candidate> {
    Filter(InBucket(scenarios, cause), invoices)
  }

  lemma {:induction false} FilterSnoc<T>(keep: T -> bool, s: seq<T>, i: nat)
    requires i < |s|
    ensures Filter(keep, s[..i + 1]) == Filter(keep, s[..i]) + (if keep(s[i]) then [s[i]] else [])
  {
    assert s[..i + 1] == s[..i] + [s[i]];
    FilterConcat(keep, s[..i], [s[i]]);
    assert [s[i]][1..] == [];
  }

  /** The filter loop: one bucket per root cause with something eligible, in invoice order, and how many
      were skipped for either reason. */
  method FillBuckets(invoices: seq<Candidate>, scenarios: seq<string>)
    returns (buckets: map<string, seq<Candidate>>, mismatched: nat, credited: nat)
    ensures forall cause :: cause in buckets <==> Bucket(scenarios, invoices, cause) != []
    ensures forall cause :: cause in buckets ==> buckets[cause] == Bucket(scenarios, invoices, cause)
    ensures mismatched == |Filter(Has(scenarios, Mismatch), invoices)|
    ensures credited == |Filter(Has(scenarios, Credited), invoices)|
  {
    buckets, mismatched, credited := map[], 0, 0;
    for i := 0 to |invoices|
      invariant forall cause :: cause in buckets <==> Bucket(scenarios, invoices[..i], cause) != []
      invariant forall cause :: cause in buckets ==> buckets[cause] == Bucket(scenarios, invoices[..i], cause)
      invariant mismatched == |Filter(Has(scenarios, Mismatch), invoices[..i])|
      invariant credited == |Filter(Has(scenarios, Credited), invoices[..i])|
    {
      var c := invoices[i];
      FilterSnoc(Has(scenarios, Mismatch), invoices, i);
      FilterSnoc(Has(scenarios, Credited), invoices, i);
      forall cause
        ensures Bucket(scenarios, invoices[..i + 1], cause)
             == Bucket(scenarios, invoices[..i], cause) + (if InBucket(scenarios, cause)(c) then [c] else [])
      {
        FilterSnoc(InBucket(scenarios, cause), invoices, i);
      }
      hide Filter, Bucket;
      if c.cause.None? || c.cause.value == "NONE" {
        continue;
      }
      if scenarios != [] && c.cause.value !in scenarios {
        continue;
      }
      if c.caseCustomer.None? {
        continue;
      }
      if c.caseCustomer.value != c.customer {
        mismatched := mismatched + 1;
        continue;
      }
      if c.open != c.total - c.paid {
        credited := credited + 1;
        continue;
      }
      var cause := c.cause.value;
      var known := if cause in buckets then buckets[cause] else [];
      buckets := buckets[cause := known + [c]];
    }
    assert invoices[..|invoices|] == invoices;
  }

  // ---------- sorted(buckets) ----------

  predicate Ascending(order: seq<string>) {
    forall i, j :: 0 <= i < j < |order| ==> Before(order[i], order[j])
  }

  lemma {:induction false} AscendingDistinct(order: seq<string>)
    requires Ascending(order)
    ensures forall i, j :: 0 <= i < j < |order| ==> order[i] != order[j]
  {
    forall i, j | 0 <= i < j < |order| ensures order[i] != order[j] {
      BeforeIsTotal(order[i], order[j]);
    }
  }

  method SortKeys(keys: set<string>) returns (order: seq<string>)
    ensures Ascending(order) && forall k :: k in order <==> k in keys
  {
    order := [];
    var rest := keys;
    while rest != {}
      invariant Ascending(order) && rest <= keys
      invariant forall k :: k in order <==> k in keys && k !in rest
      decreases |rest|
    {
      var k :| k in rest;
      order := InsertKey(order, k);
      rest := rest - {k};
    }
  }

  method InsertKey(order: seq<string>, k: string) returns (r: seq<string>)
    requires Ascending(order) && k !in order
    ensures Ascending(r) && forall x :: x in r <==> x == k || x in order
  {
    var i := 0;
    while i < |order| && Before(order[i], k)
      invariant 0 <= i <= |order| && forall j :: 0 <= j < i ==> Before(order[j], k)
    {
      i := i + 1;
    }
    r := order[..i] + [k] + order[i..];
    forall j | i <= j < |order| ensures Before(k, order[j]) {
      BeforeIsTotal(order[i], k);
      BeforeTransitive(k, order[i], order[j]);
    }
  }

  // ---------- the round-robin pick ----------

  function Picks(picked: seq<Candidate>, cause: string): seq<Candidate> {
    Filter(OfCause(cause), picked)
  }

  function Remaining(order: seq<string>, buckets: map<string, seq<Candidate>>): nat
    requires forall c :: c in order ==> c in buckets
  {
    if order == [] then 0 else |buckets[order[0]]| + Remaining(order[1..], buckets)
  }

  lemma {:induction false} RemainingPop(
      order: seq<string>, buckets: map<string, seq<Candidate>>, b: nat, rest: seq<Candidate>)
    requires forall c :: c in order ==> c in buckets
    requires forall i, j :: 0 <= i < j < |order| ==> order[i] != order[j]
    requires b < |order|
    ensures Remaining(order, buckets[order[b] := rest]) == Remaining(order, buckets) - |buckets[order[b]]| + |rest|
  {
    var k := order[b];
    var next := buckets[k := rest];
    if b == 0 {
      RemainingSame(order[1..], buckets, next, k);
    } else {
      assert order[1..][b - 1] == k;
      RemainingPop(order[1..], buckets, b - 1, rest);
    }
  }

  lemma {:induction false} RemainingSame(
      order: seq<string>, a: map<string, seq<Candidate>>, b: map<string, seq<Candidate>>, k: string)
    requires forall c :: c in order ==> c in a && c in b && c != k
    requires forall c :: c in a && c != k ==> c in b && a[c] == b[c]
    ensures Remaining(order, a) == Remaining(order, b)
  {
    if order != [] {
      assert forall c :: c in order[1..] ==> c in order;
      RemainingSame(order[1..], a, b, k);
    }
  }

  lemma {:induction false} RemainingCovers(order: seq<string>, buckets: map<string, seq<Candidate>>, b: nat)
    requires (forall c :: c in order ==> c in buckets) && b < |order|
    ensures |buckets[order[b]]| <= Remaining(order, buckets)
  {
    if b > 0 {
      RemainingCovers(order[1..], buckets, b - 1);
    }
  }

  lemma {:induction false} RemainingNone(order: seq<string>, buckets: map<string, seq<Candidate>>)
    requires forall c :: c in order ==> c in buckets && buckets[c] == []
    ensures Remaining(order, buckets) == 0
  {
    if order != [] {
      RemainingNone(order[1..], buckets);
    }
  }

  /** How often bucket b of n came up in the first i rounds. */
  function Turns(i: nat, n: nat, b: nat): nat
    requires b < n
  {
    i / n + (if i % n > b then 1 else 0)
  }

  lemma {:induction false} TurnsStep(i: nat, n: nat, b: nat)
    requires b < n
    ensures Turns(i + 1, n, b) == Turns(i, n, b) + (if i % n == b then 1 else 0)
    ensures Turns(0, n, b) == 0
  {
    var q, r := i / n, i % n;
    assert i == q * n + r;
    if r + 1 < n {
      Quotient(i + 1, n, q, r + 1);
    } else {
      assert i + 1 == (q + 1) * n;
      Quotient(i + 1, n, q + 1, 0);
    }
  }

  lemma {:induction false} Quotient(i: int, n: int, q: int, r: int)
    requires n > 0 && 0 <= r < n && i == q * n + r
    ensures i / n == q && i % n == r
  {
    var d := i / n - q;
    assert i == (i / n) * n + i % n;
    assert (i / n) * n - q * n == d * n;
    Multiple(d, n);
  }

  lemma {:induction false} Multiple(d: int, n: int)
    requires n > 0
    ensures d >= 1 ==> d * n >= n
    ensures d <= -1 ==> d * n <= -n
  {
    if d >= 1 {
      assert d * n == (d - 1) * n + n;
    } else {
      assert d * n == (d + 1) * n - n;
    }
  }

  /** The state of the loop after i rounds: each bucket gave its first min(len, turns) candidates. */
  ghost predicate Dealt(
      order: seq<string>, buckets0: map<string, seq<Candidate>>, buckets: map<string, seq<Candidate>>,
      picked: seq<Candidate>, i: nat)
  {
    && (forall c :: c in order ==> c in buckets0 && c in buckets)
    && (forall b :: 0 <= b < |order| ==> Share(order, buckets0, buckets, picked, i, b))
  }

  ghost predicate Share(
      order: seq<string>, buckets0: map<string, seq<Candidate>>, buckets: map<string, seq<Candidate>>,
      picked: seq<Candidate>, i: nat, b: nat)
    requires b < |order| && order[b] in buckets0 && order[b] in buckets
  {
    && Picks(picked, order[b]) + buckets[order[b]] == buckets0[order[b]]
    && |Picks(picked, order[b])| == Min(|buckets0[order[b]]|, Turns(i, |order|, b))
  }

  predicate Sorted(order: seq<string>, buckets: map<string, seq<Candidate>>) {
    && (forall i, j :: 0 <= i < j < |order| ==> order[i] != order[j])
    && (forall c :: c in order ==> c in buckets && forall x :: x in buckets[c] ==> x.cause == Some(c))
  }

  lemma {:induction false} PicksSnoc(picked: seq<Candidate>, x: Candidate, cause: string)
    ensures Picks(picked + [x], cause) == Picks(picked, cause) + (if x.cause == Some(cause) then [x] else [])
  {
    FilterConcat(OfCause(cause), picked, [x]);
    assert [x][1..] == [];
  }

  lemma {:induction false} DealStep(
      order: seq<string>, buckets0: map<string, seq<Candidate>>, buckets: map<string, seq<Candidate>>,
      picked: seq<Candidate>, i: nat)
    requires Sorted(order, buckets0) && order != [] && Dealt(order, buckets0, buckets, picked, i)
    ensures var c := order[i % |order|];
            if buckets[c] == [] then Dealt(order, buckets0, buckets, picked, i + 1)
            else Dealt(order, buckets0, buckets[c := buckets[c][1..]], picked + [buckets[c][0]], i + 1)
  {
    var n, r, next := |order|, i % |order|, i + 1;
    var c := order[r];
    assert Share(order, buckets0, buckets, picked, i, r);
    if buckets[c] == [] {
      forall b | 0 <= b < n ensures Share(order, buckets0, buckets, picked, next, b) {
        assert Share(order, buckets0, buckets, picked, i, b);
        TurnsStep(i, n, b);
      }
    } else {
      var x := buckets[c][0];
      assert x == buckets0[c][|Picks(picked, c)|];
      assert (Picks(picked, c) + [x]) + buckets[c][1..] == Picks(picked, c) + buckets[c];
      var popped, dealt := buckets[c := buckets[c][1..]], picked + [x];
      forall b | 0 <= b < n ensures Share(order, buckets0, popped, dealt, next, b) {
        assert Share(order, buckets0, buckets, picked, i, b);
        TurnsStep(i, n, b);
        PicksSnoc(picked, x, order[b]);
      }
    }
  }

  lemma {:induction false} DealtFew(
      order: seq<string>, buckets0: map<string, seq<Candidate>>, buckets: map<string, seq<Candidate>>,
      picked: seq<Candidate>, i: nat, b: nat)
    requires Dealt(order, buckets0, buckets, picked, i) && b < |order| && buckets[order[b]] != []
    ensures i < |order| * Remaining(order, buckets0)
  {
    var n, total := |order|, Remaining(order, buckets0);
    assert Share(order, buckets0, buckets, picked, i, b);
    RemainingCovers(order, buckets0, b);
    BelowProduct(i, n, total);
  }

  lemma {:induction false} BelowProduct(i: nat, n: nat, total: nat)
    requires n > 0 && i / n < total
    ensures i < n * total
  {
    var q, r := i / n, i % n;
    assert i == q * n + r;
    assert n * total - q * n == (total - q) * n;
    Multiple(total - q, n);
  }

  lemma {:induction false} FromBucket(
      order: seq<string>, buckets0: map<string, seq<Candidate>>, buckets: map<string, seq<Candidate>>,
      picked: seq<Candidate>, i: nat, b: nat)
    requires Sorted(order, buckets0) && Dealt(order, buckets0, buckets, picked, i) && b < |order|
    requires buckets[order[b]] != []
    ensures buckets[order[b]][0].cause == Some(order[b])
  {
    assert Share(order, buckets0, buckets, picked, i, b);
    assert buckets[order[b]][0] == buckets0[order[b]][|Picks(picked, order[b])|];
  }

  /** Two causes differ by two picks only if the smaller one's bucket ran out. */
  predicate Balanced(order: seq<string>, buckets: map<string, seq<Candidate>>, picked: seq<Candidate>)
    requires forall c :: c in order ==> c in buckets
  {
    forall a, b ::
      (&& 0 <= a < |order| && 0 <= b < |order|
       && |Picks(picked, order[a])| >= |Picks(picked, order[b])| + 2) ==>
      Picks(picked, order[b]) == buckets[order[b]]
  }

  lemma {:induction false} DealtIsBalanced(
      order: seq<string>, buckets0: map<string, seq<Candidate>>, buckets: map<string, seq<Candidate>>,
      picked: seq<Candidate>, i: nat)
    requires Dealt(order, buckets0, buckets, picked, i)
    ensures Balanced(order, buckets0, picked)
    ensures forall b :: 0 <= b < |order| ==> Picks(picked, order[b]) <= buckets0[order[b]]
  {
    forall a, b | 0 <= a < |order| && 0 <= b < |order| && |Picks(picked, order[a])| >= |Picks(picked, order[b])| + 2
      ensures Picks(picked, order[b]) == buckets0[order[b]]
    {
      assert Share(order, buckets0, buckets, picked, i, a) && Share(order, buckets0, buckets, picked, i, b);
    }
    forall b | 0 <= b < |order| ensures Picks(picked, order[b]) <= buckets0[order[b]] {
      assert Share(order, buckets0, buckets, picked, i, b);
    }
  }

  // ---------- the order of the picks ----------

  /** The candidate due in turn t of the rounds: the t / n-th of list t % n, if that list is so long. */
  function Due(lists: seq<seq<Candidate>>, t: nat): Option<Candidate> {
    if lists == [] then None
    else
      var list, k := lists[t % |lists|], t / |lists|;
      if k < |list| then Some(list[k]) else None
  }

  /** What is picked is due in ascending turns, and no turn is passed over: a candidate is left out only
      because the dataset was full before its turn came. */
  ghost predicate InRounds(lists: seq<seq<Candidate>>, turns: seq<nat>, picked: seq<Candidate>, size: int) {
    && |turns| == |picked|
    && (forall p :: 0 <= p < |picked| ==> Due(lists, turns[p]) == Some(picked[p]))
    && (forall p, q :: 0 <= p < q < |turns| ==> turns[p] < turns[q])
    && (forall t: nat :: Due(lists, t).Some? && t !in turns ==>
          |picked| >= size && forall p :: 0 <= p < |turns| ==> turns[p] < t)
  }

  function Lists(order: seq<string>, buckets: map<string, seq<Candidate>>): (lists: seq<seq<Candidate>>)
    requires forall c :: c in order ==> c in buckets
    ensures |lists| == |order| && forall b :: 0 <= b < |order| ==> lists[b] == buckets[order[b]]
  {
    seq(|order|, b requires 0 <= b < |order| => buckets[order[b]])
  }

  /** After i turns exactly the due ones among them were picked. */
  ghost predicate Rounds(lists: seq<seq<Candidate>>, turns: seq<nat>, picked: seq<Candidate>, i: nat) {
    && |turns| == |picked|
    && (forall p :: 0 <= p < |picked| ==> turns[p] < i && Due(lists, turns[p]) == Some(picked[p]))
    && (forall p, q :: 0 <= p < q < |turns| ==> turns[p] < turns[q])
    && (forall t: nat :: t < i && Due(lists, t).Some? ==> t in turns)
  }

  lemma {:induction false} NoRounds(lists: seq<seq<Candidate>>)
    ensures Rounds(lists, [], [], 0)
  {
  }

  lemma {:induction false} RoundsDone(
      lists: seq<seq<Candidate>>, turns: seq<nat>, picked: seq<Candidate>, i: nat, size: int)
    requires Rounds(lists, turns, picked, i)
    requires |picked| < size ==> forall t: nat :: i <= t ==> Due(lists, t) == None
    ensures InRounds(lists, turns, picked, size)
  {
    hide Due;
  }

  /** The bucket whose turn it is holds what is due. */
  lemma {:induction false} DueIsHead(
      order: seq<string>, buckets0: map<string, seq<Candidate>>, buckets: map<string, seq<Candidate>>,
      picked: seq<Candidate>, i: nat)
    requires order != [] && Dealt(order, buckets0, buckets, picked, i)
    ensures var bucket := buckets[order[i % |order|]];
            Due(Lists(order, buckets0), i) == if bucket == [] then None else Some(bucket[0])
  {
    var r := i % |order|;
    assert Share(order, buckets0, buckets, picked, i, r);
    var c := order[r];
    assert Turns(i, |order|, r) == i / |order|;
    assert buckets[c] != [] ==> buckets0[c][|Picks(picked, c)|] == buckets[c][0];
  }

  lemma {:induction false} RoundsStep(
      lists: seq<seq<Candidate>>, turns: seq<nat>, picked: seq<Candidate>, i: nat)
    requires Rounds(lists, turns, picked, i)
    ensures var due := Due(lists, i);
            if due.None? then Rounds(lists, turns, picked, i + 1)
            else Rounds(lists, turns + [i], picked + [due.value], i + 1)
  {
    hide Due;
    forall t: nat | t < i + 1 && Due(lists, t).Some? ensures t in turns + [i] {
      assert t < i ==> t in turns;
      assert (turns + [i])[|turns|] == i;
    }
  }

  /** With every bucket empty no later turn has anything due. */
  lemma {:induction false} NothingDue(
      order: seq<string>, buckets0: map<string, seq<Candidate>>, buckets: map<string, seq<Candidate>>,
      picked: seq<Candidate>, i: nat, t: nat)
    requires Dealt(order, buckets0, buckets, picked, i) && i <= t
    requires forall b :: 0 <= b < |order| ==> buckets[order[b]] == []
    ensures Due(Lists(order, buckets0), t) == None
  {
    if order != [] {
      var n, r := |order|, t % |order|;
      assert Share(order, buckets0, buckets, picked, i, r);
      LaterTurn(i, t, n);
    }
  }

  lemma {:induction false} LaterTurn(i: nat, t: nat, n: nat)
    requires i <= t && n > 0
    ensures t / n >= Turns(i, n, t % n)
  {
    var d := t / n - i / n;
    assert t - i == (t / n) * n - (i / n) * n + t % n - i % n;
    assert (t / n) * n - (i / n) * n == d * n;
    Multiple(d, n);
  }

  /** One turn of the loop: an empty bucket is passed over, any other one gives what is due. */
  lemma {:induction false} Turn(
      order: seq<string>, buckets0: map<string, seq<Candidate>>, buckets: map<string, seq<Candidate>>,
      picked: seq<Candidate>, turns: seq<nat>, i: nat)
    requires Sorted(order, buckets0) && order != [] && Dealt(order, buckets0, buckets, picked, i)
    requires Rounds(Lists(order, buckets0), turns, picked, i)
    ensures var c, lists := order[i % |order|], Lists(order, buckets0);
            if buckets[c] == [] then
              Dealt(order, buckets0, buckets, picked, i + 1) && Rounds(lists, turns, picked, i + 1)
            else
              var x, next := buckets[c][0], buckets[c := buckets[c][1..]];
              && Dealt(order, buckets0, next, picked + [x], i + 1) && Rounds(lists, turns + [i], picked + [x], i + 1)
              && x.cause == Some(c) && Remaining(order, next) + 1 == Remaining(order, buckets)
  {
    DealStep(order, buckets0, buckets, picked, i);
    DueIsHead(order, buckets0, buckets, picked, i);
    hide Dealt, Rounds, Due, Lists;
    RoundsStep(Lists(order, buckets0), turns, picked, i);
    var c := order[i % |order|];
    if buckets[c] != [] {
      FromBucket(order, buckets0, buckets, picked, i, i % |order|);
      RemainingPop(order, buckets, i % |order|, buckets[c][1..]);
    }
  }

  method RoundRobin(order: seq<string>, buckets0: map<string, seq<Candidate>>, size: int)
      returns (picked: seq<Candidate>, ghost turns: seq<nat>)
    requires Sorted(order, buckets0)
    ensures InRounds(Lists(order, buckets0), turns, picked, size)
    ensures |picked| == Min(Max(size, 0), Remaining(order, buckets0))
    ensures forall b :: 0 <= b < |order| ==> Picks(picked, order[b]) <= buckets0[order[b]]
    ensures Balanced(order, buckets0, picked)
    ensures forall x :: x in picked ==> x.cause.Some? && x.cause.value in order
  {
    picked, turns := [], [];
    var buckets, i := buckets0, 0;
    ghost var lists := Lists(order, buckets0);
    NoRounds(lists);
    assert forall b :: 0 <= b < |order| ==> Share(order, buckets0, buckets, picked, 0, b);
    assert Dealt(order, buckets0, buckets, picked, 0);
    hide Due, Rounds, InRounds, Lists, Dealt, Share, Balanced;
    while |picked| < size && exists b | 0 <= b < |order| :: buckets[order[b]] != []
      invariant forall c :: c in order ==> c in buckets
      invariant i >= 0 && Dealt(order, buckets0, buckets, picked, i) && Rounds(lists, turns, picked, i)
      invariant |picked| + Remaining(order, buckets) == Remaining(order, buckets0)
      invariant |picked| <= Max(size, 0)
      invariant forall x :: x in picked ==> x.cause.Some? && x.cause.value in order
      decreases |order| * Remaining(order, buckets0) - i
    {
      ghost var b :| 0 <= b < |order| && buckets[order[b]] != [];
      DealtFew(order, buckets0, buckets, picked, i, b);
      Turn(order, buckets0, buckets, picked, turns, i);
      var c := order[i % |order|];
      if buckets[c] != [] {
        picked, turns := picked + [buckets[c][0]], turns + [i];
        buckets := buckets[c := buckets[c][1..]];
      }
      i := i + 1;
    }
    if |picked| < size {
      RemainingNone(order, buckets);
      forall t: nat | i <= t ensures Due(lists, t) == None {
        NothingDue(order, buckets0, buckets, picked, i, t);
      }
    }
    RoundsDone(lists, turns, picked, i, size);
    DealtIsBalanced(order, buckets0, buckets, picked, i);
  }

  // ---------- the whole dataset ----------

  function Single(cause: string, order: seq<string>): nat {
    if order == [] then 0 else (if order[0] == cause then 1 else 0) + Single(cause, order[1..])
  }

  lemma {:induction false} SingleIsOne(cause: string, order: seq<string>)
    requires forall i, j :: 0 <= i < j < |order| ==> order[i] != order[j]
    ensures Single(cause, order) == if cause in order then 1 else 0
  {
    if order != [] {
      SingleIsOne(cause, order[1..]);
    }
  }

  function BucketTotal(scenarios: seq<string>, invoices: seq<Candidate>, order: seq<string>): nat {
    if order == [] then 0 else |Bucket(scenarios, invoices, order[0])| + BucketTotal(scenarios, invoices, order[1..])
  }

  lemma {:induction false} BucketTotalHead(scenarios: seq<string>, invoices: seq<Candidate>, order: seq<string>)
    requires invoices != []
    ensures BucketTotal(scenarios, invoices, order)
         == BucketTotal(scenarios, invoices[1..], order)
            + (if FateOf(scenarios, invoices[0]) == Eligible then Single(invoices[0].cause.value, order) else 0)
  {
    if order != [] {
      BucketTotalHead(scenarios, invoices, order[1..]);
    }
  }

  lemma {:induction false} BucketTotalNone(scenarios: seq<string>, order: seq<string>)
    ensures BucketTotal(scenarios, [], order) == 0
  {
    if order != [] {
      BucketTotalNone(scenarios, order[1..]);
    }
  }

  /** The buckets partition the eligible invoices. */
  lemma {:induction false} BucketsPartition(scenarios: seq<string>, invoices: seq<Candidate>, order: seq<string>)
    requires forall i, j :: 0 <= i < j < |order| ==> order[i] != order[j]
    requires forall c :: c in invoices && FateOf(scenarios, c) == Eligible ==> c.cause.value in order
    ensures BucketTotal(scenarios, invoices, order) == |Filter(Has(scenarios, Eligible), invoices)|
  {
    if invoices == [] {
      BucketTotalNone(scenarios, order);
    } else {
      BucketsPartition(scenarios, invoices[1..], order);
      BucketTotalHead(scenarios, invoices, order);
      if FateOf(scenarios, invoices[0]) == Eligible {
        SingleIsOne(invoices[0].cause.value, order);
      }
    }
  }

  lemma {:induction false} RemainingIsTotal(
      scenarios: seq<string>, invoices: seq<Candidate>, order: seq<string>, buckets: map<string, seq<Candidate>>)
    requires forall c :: c in order ==> c in buckets && buckets[c] == Bucket(scenarios, invoices, c)
    ensures Remaining(order, buckets) == BucketTotal(scenarios, invoices, order)
  {
    if order != [] {
      RemainingIsTotal(scenarios, invoices, order[1..], buckets);
    }
  }

  lemma {:induction false} PickedFromBucket(
      scenarios: seq<string>, invoices: seq<Candidate>, picked: seq<Candidate>, x: Candidate)
    requires x in picked && x.cause.Some? && Picks(picked, x.cause.value) <= Bucket(scenarios, invoices, x.cause.value)
    ensures x in invoices && FateOf(scenarios, x) == Eligible
  {
    var cause := x.cause.value;
    FilterIn(OfCause(cause), picked, x);
    var k :| 0 <= k < |Picks(picked, cause)| && Picks(picked, cause)[k] == x;
    assert Bucket(scenarios, invoices, cause)[k] == x;
    FilterIn(InBucket(scenarios, cause), invoices, x);
  }

  function Buckets(scenarios: seq<string>, invoices: seq<Candidate>, order: seq<string>): (lists: seq<seq<Candidate>>)
    ensures |lists| == |order| && forall b :: 0 <= b < |order| ==> lists[b] == Bucket(scenarios, invoices, order[b])
  {
    seq(|order|, b requires 0 <= b < |order| => Bucket(scenarios, invoices, order[b]))
  }

  /** `build_dataset` up to what it stores; None is the error for an empty dataset. It picks
      min(size, eligible) invoices, a prefix of the eligible ones of every cause, and balances causes. */
  method BuildDataset(invoices: seq<Candidate>, scenarios: seq<string>, size: int) returns (r: Option<seq<Candidate>>)
    ensures r.None? <==> size <= 0 || Filter(Has(scenarios, Eligible), invoices) == []
    ensures r.Some? ==> |r.value| == Min(size, |Filter(Has(scenarios, Eligible), invoices)|)
    ensures r.Some? ==> forall x :: x in r.value ==> x in invoices && FateOf(scenarios, x) == Eligible
    ensures r.Some? ==> forall cause :: Bucket(scenarios, invoices, cause) != [] ==>
              Picks(r.value, cause) <= Bucket(scenarios, invoices, cause)
    ensures r.Some? ==> exists order, turns ::
              && Ascending(order) && (forall cause :: cause in order <==> Bucket(scenarios, invoices, cause) != [])
              && InRounds(Buckets(scenarios, invoices, order), turns, r.value, size)
    ensures r.Some? ==> forall a, b ::
              (&& Bucket(scenarios, invoices, a) != [] && Bucket(scenarios, invoices, b) != []
               && |Picks(r.value, a)| >= |Picks(r.value, b)| + 2) ==>
                   Picks(r.value, b) == Bucket(scenarios, invoices, b)
  {
    var buckets, _, _ := FillBuckets(invoices, scenarios);
    var order := SortKeys(buckets.Keys);
    AscendingDistinct(order);
    forall c | c in invoices && FateOf(scenarios, c) == Eligible ensures c.cause.value in order {
      FilterIn(InBucket(scenarios, c.cause.value), invoices, c);
    }
    forall c, x | c in order && x in buckets[c] ensures x.cause == Some(c) {
      FilterIn(InBucket(scenarios, c), invoices, x);
    }
    RemainingIsTotal(scenarios, invoices, order, buckets);
    BucketsPartition(scenarios, invoices, order);
    hide Filter, Bucket, Picks, Ascending, Remaining;
    var picked, turns := RoundRobin(order, buckets, size);
    assert Lists(order, buckets) == Buckets(scenarios, invoices, order);
    if picked == [] {
      return None;
    }
    forall x | x in picked ensures Picks(picked, x.cause.value) <= Bucket(scenarios, invoices, x.cause.value) {
      var k :| 0 <= k < |order| && order[k] == x.cause.value;
    }
    forall cause | Bucket(scenarios, invoices, cause) != []
      ensures cause in order && Picks(picked, cause) <= Bucket(scenarios, invoices, cause)
    {
      var k :| 0 <= k < |order| && order[k] == cause;
    }
    forall x | x in picked ensures x in invoices && FateOf(scenarios, x) == Eligible {
      PickedFromBucket(scenarios, invoices, picked, x);
    }
    return Some(picked);
  }

  // ---------- the filter against the ledger ----------

  function FromAccount(ref: string, a: L.Account, cause: string, caseCustomer: string): Candidate {
    Candidate(ref, a.customer, Some(cause), Some(caseCustomer), a.total, a.paid, a.open)
  }

  /** After any ledger run, an invoice with a cause and its own case is eligible exactly when no credit
      memo was issued on it since seeding. */
  lemma {:induction false} EligibleIffNoMemo(ops: seq<L.Op>, ref: string, cause: string)
    requires L.AllAdmissible(ops) && ref in L.Run(L.EMPTY, ops).invoices && cause != "NONE"
    ensures var s := L.Run(L.EMPTY, ops);
            var c := FromAccount(ref, s.invoices[ref], cause, s.invoices[ref].customer);
            FateOf([], c) == Eligible <==> forall i :: 0 <= i < |s.memos| ==> s.memos[i].invoice != ref
  {
    L.FilterSeesMemos(ops, ref);
  }
}
