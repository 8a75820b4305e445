/** The gateway's token bucket per key, on exact time. */
module TokenBucket {
  import opened Common
  import opened Clock

  datatype Bucket = Bucket(tokens: real, updated: real)

  function MinReal(a: real, b: real): real {
    if a <= b then a else b
  }

  function MaxReal(a: real, b: real): real {
    if a >= b then a else b
  }

  /** Tokens gained in `seconds`. */
  function Gain(perMinute: nat, seconds: real): real {
    seconds * perMinute as real / 60.0
  }

  /** What a bucket holds at `now`; a key never seen starts full. */
  function Level(perMinute: nat, b: Option<Bucket>, now: real): real {
    match b
    case None => perMinute as real
    case Some(k) => MinReal(perMinute as real, k.tokens + Gain(perMinute, now - k.updated))
  }

  predicate Admits(perMinute: nat, b: Option<Bucket>, now: real) {
    Level(perMinute, b, now) >= 1.0
  }

  function After(perMinute: nat, b: Option<Bucket>, now: real): Bucket {
    var level := Level(perMinute, b, now);
    Bucket(if level >= 1.0 then level - 1.0 else level, now)
  }

  function Find(buckets: map<string, Bucket>, key: string): Option<Bucket> {
    if key in buckets then Some(buckets[key]) else None
  }

  class RateLimiter {
    const perMinute: nat
    var buckets: map<string, Bucket>

    constructor (perMinute: nat)
      ensures this.perMinute == perMinute && buckets == map[]
    {
      this.perMinute, buckets := perMinute, map[];
    }

    method Allow(key: string, now: real) returns (ok: bool)
      modifies this
      ensures ok == Admits(perMinute, Find(old(buckets), key), now)
      ensures buckets == old(buckets)[key := After(perMinute, Find(old(buckets), key), now)]
    {
      if key !in buckets {
        buckets := buckets[key := Bucket(perMinute as real, now)];
      }
      var b := buckets[key];
      assert Gain(perMinute, 0.0) == 0.0;
      b := b.(tokens := MinReal(perMinute as real, b.tokens + Gain(perMinute, now - b.updated)));
      assert b.tokens == Level(perMinute, Find(old(buckets), key), now);
      b := b.(updated := now);
      ok := b.tokens >= 1.0;
      if ok {
        b := b.(tokens := b.tokens - 1.0);
      }
      buckets := buckets[key := b];
      assert buckets == old(buckets)[key := b];
    }
  }

  // ---------- runs ----------

  /** How many of the calls for `key` with from <= now <= to are admitted. */
  function Admitted(
      perMinute: nat, buckets: map<string, Bucket>, calls: seq<Call>, key: string, from: real, to: real)
      : nat
    decreases |calls|
  {
    if calls == [] then 0
    else
      var c := calls[0];
      var b := Find(buckets, c.key);
      (if c.key == key && from <= c.now <= to && Admits(perMinute, b, c.now) then 1 else 0)
      + Admitted(perMinute, buckets[c.key := After(perMinute, b, c.now)], calls[1..], key, from, to)
  }

  predicate BucketOk(b: Option<Bucket>, since: real) {
    b.Some? ==> b.value.tokens >= 0.0 && b.value.updated <= since
  }

  lemma {:induction false} GainSplits(perMinute: nat, a: real, b: real, c: real)
    requires a <= b <= c
    ensures Gain(perMinute, c - a) == Gain(perMinute, b - a) + Gain(perMinute, c - b)
    ensures Gain(perMinute, b - a) >= 0.0 && Gain(perMinute, c - b) >= 0.0
  {
    var p := perMinute as real;
    assert (c - a) * p == (b - a) * p + (c - b) * p;
    Product(b - a, p);
    Product(c - b, p);
  }

  lemma {:induction false} Product(x: real, y: real)
    requires x >= 0.0 && y >= 0.0
    ensures x * y >= 0.0
  {
  }

  /** Waiting never adds more than the gain. */
  lemma {:induction false} LevelLater(perMinute: nat, b: Option<Bucket>, a: real, c: real)
    requires BucketOk(b, a) && a <= c
    ensures 0.0 <= Level(perMinute, b, a) && Level(perMinute, b, c) <= Level(perMinute, b, a) + Gain(perMinute, c - a)
    ensures Gain(perMinute, c - a) >= 0.0
  {
    GainSplits(perMinute, a, a, c);
    if b.Some? {
      GainSplits(perMinute, b.value.updated, a, c);
    }
  }

  /** Being called in between never leaves more. */
  lemma {:induction false} LevelAfter(perMinute: nat, b: Option<Bucket>, now: real, later: real)
    requires BucketOk(b, now) && now <= later
    ensures Level(perMinute, Some(After(perMinute, b, now)), later) <= Level(perMinute, b, later)
    ensures BucketOk(Some(After(perMinute, b, now)), now)
    ensures Level(perMinute, Some(After(perMinute, b, now)), now) == After(perMinute, b, now).tokens
  {
    LevelLater(perMinute, b, now, later);
    GainSplits(perMinute, now, now, later);
    if b.Some? {
      GainSplits(perMinute, b.value.updated, now, later);
    }
  }

  lemma {:induction false} LateCallsDoNotCount(
      perMinute: nat, buckets: map<string, Bucket>, calls: seq<Call>, key: string, from: real, to: real, since: real)
    requires Monotone(calls, since) && since > to
    ensures Admitted(perMinute, buckets, calls, key, from, to) == 0
    decreases |calls|
  {
    if calls != [] {
      var c := calls[0];
      LateCallsDoNotCount(perMinute, buckets[c.key := After(perMinute, Find(buckets, c.key), c.now)], calls[1..], key,
          from, to, c.now);
    }
  }

  lemma {:induction false} AdmittedFrom(
      perMinute: nat, buckets: map<string, Bucket>, calls: seq<Call>, key: string, from: real, to: real, since: real)
    requires Monotone(calls, since) && BucketOk(Find(buckets, key), since)
    requires MaxReal(from, since) <= to
    ensures var at := MaxReal(from, since);
            Admitted(perMinute, buckets, calls, key, from, to) as real <= Level(perMinute, Find(buckets, key), at)
                + Gain(perMinute, to - at)
    decreases |calls|
  {
    var at := MaxReal(from, since);
    var b := Find(buckets, key);
    LevelLater(perMinute, b, at, to);
    if calls != [] {
      var c := calls[0];
      var next := buckets[c.key := After(perMinute, Find(buckets, c.key), c.now)];
      if c.now > to {
        LateCallsDoNotCount(perMinute, next, calls[1..], key, from, to, c.now);
      } else {
        var at' := MaxReal(from, c.now);
        GainSplits(perMinute, at, at', to);
        LevelLater(perMinute, b, at, at');
        if c.key == key {
          LevelAfter(perMinute, b, c.now, at');
        }
        AdmittedFrom(perMinute, next, calls[1..], key, from, to, c.now);
      }
    }
  }

  /** One call: a key never seen holds per_minute tokens; one last called at `updated` has gained per_minute tokens a
      minute since, and holds no more than per_minute; a call passes iff it finds one token, and takes exactly one. */
  lemma {:induction false} CallExactly(perMinute: nat, b: Option<Bucket>, now: real)
    ensures var held := match b
                        case None => perMinute as real
                        case Some(k) =>
                          var refilled := k.tokens + (now - k.updated) * perMinute as real / 60.0;
                          if refilled > perMinute as real then perMinute as real else refilled;
            && (Admits(perMinute, b, now) <==> held >= 1.0)
            && After(perMinute, b, now) == Bucket(held - (if held >= 1.0 then 1.0 else 0.0), now)
  {
  }

  /** In any interval a key is admitted at most per_minute + length * per_minute / 60 times. */
  lemma {:induction false} IntervalBound(perMinute: nat, calls: seq<Call>, key: string, from: real, to: real)
    requires from <= to && (calls != [] ==> Monotone(calls, calls[0].now))
    ensures Admitted(perMinute, map[], calls, key, from, to) as real
         <= perMinute as real + (to - from) * perMinute as real / 60.0
  {
    if calls != [] {
      var since := MinReal(from, calls[0].now);
      AdmittedFrom(perMinute, map[], calls, key, from, to, since);
    } else {
      GainSplits(perMinute, from, from, to);
    }
  }

  function ForKey(key: string): Call -> bool {
    (c: Call) => c.key == key
  }

  /** Keys are independent: other keys' calls change nothing. */
  lemma {:induction false} KeysIndependent(
      perMinute: nat, a: map<string, Bucket>, b: map<string, Bucket>, calls: seq<Call>, key: string, from: real,
      to: real)
    requires Find(a, key) == Find(b, key)
    ensures Admitted(perMinute, a, calls, key, from, to)
        == Admitted(perMinute, b, Filter(ForKey(key), calls), key, from, to)
    decreases |calls|
  {
    if calls != [] {
      var c := calls[0];
      var a' := a[c.key := After(perMinute, Find(a, c.key), c.now)];
      if c.key == key {
        var own := Filter(ForKey(key), calls);
        assert own[0] == c && own[1..] == Filter(ForKey(key), calls[1..]);
        KeysIndependent(perMinute, a', b[key := After(perMinute, Find(b, key), c.now)], calls[1..], key, from, to);
      } else {
        KeysIndependent(perMinute, a', b, calls[1..], key, from, to);
      }
    }
  }

  /** A key left alone for the time one token takes is admitted. */
  lemma {:induction false} QuietKeyIsAdmitted(perMinute: nat, b: Option<Bucket>, now: real)
    requires perMinute >= 1 && BucketOk(b, now)
    requires b.Some? ==> (now - b.value.updated) * perMinute as real >= 60.0
    ensures Admits(perMinute, b, now)
  {
    if b.Some? {
      assert Gain(perMinute, now - b.value.updated) >= 1.0;
    }
  }

  function Repeat(c: Call, n: nat): seq<Call> {
    if n == 0 then [] else [c] + Repeat(c, n - 1)
  }

  /** The bound is reached: of n calls at one instant for a new key exactly min(n, per_minute) pass. */
  lemma {:induction false} BurstExact(
      perMinute: nat, buckets: map<string, Bucket>, key: string, now: real, n: nat, left: nat)
    requires left <= perMinute && Level(perMinute, Find(buckets, key), now) == left as real
    ensures Admitted(perMinute, buckets, Repeat(Call(key, now), n), key, now, now) == Min(n, left)
    decreases n
  {
    if n > 0 {
      var calls := Repeat(Call(key, now), n);
      assert calls[1..] == Repeat(Call(key, now), n - 1);
      var b := After(perMinute, Find(buckets, key), now);
      var next := buckets[key := b];
      assert Find(next, key) == Some(b) && Level(perMinute, Some(b), now) == b.tokens;
      BurstExact(perMinute, next, key, now, n - 1, if left == 0 then 0 else left - 1);
    }
  }
}
