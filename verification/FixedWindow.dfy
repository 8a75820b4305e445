/** The tool gateway's fixed-window limiter, with its in-process fallback. */
module FixedWindow {
  import opened Common
  import opened Clock

  datatype Slot = Slot(window: int, count: nat)

  /** `int(time.time() // 60)`. */
  function Window(now: real): int {
    (now / 60.0).Floor
  }

  /** Window w is the minute from second 60 * w up to, not including, second 60 * (w + 1). */
  lemma {:induction false} WindowIsAMinute(now: real, w: int)
    ensures Window(now) == w <==> 60.0 * w as real <= now < 60.0 * (w + 1) as real
  {
    var q := now / 60.0;
    assert 60.0 * q == now;
    assert q.Floor == w <==> w as real <= q < (w + 1) as real;
  }

  /** The calls of `key` counted so far in the window of `now`. */
  function Used(local: map<string, Slot>, key: string, window: int): nat {
    if key in local && local[key].window == window then local[key].count else 0
  }

  class RateLimiter {
    const perMinute: nat
    var redisOk: bool
    var local: map<string, Slot>

    constructor (perMinute: nat, connected: bool)
      ensures this.perMinute == perMinute && redisOk == connected && local == map[]
    {
      this.perMinute, redisOk, local := perMinute, connected, map[];
    }

    /** `redis` is the shared counter's answer, None if it raised. */
    method Allow(key: string, now: real, redis: Option<int>) returns (ok: bool)
      modifies this`redisOk, this`local
      ensures redisOk == (old(redisOk) && redis.Some?)
      ensures redisOk ==> local == old(local) && ok == (redis.value <= perMinute)
      ensures !redisOk ==>
                var used := Used(old(local), key, Window(now));
                local == old(local)[key := Slot(Window(now), used + 1)] && ok == (used < perMinute)
    {
      var window := (now / 60.0).Floor;
      if redisOk {
        if redis.Some? {
          return redis.value <= perMinute;
        }
        redisOk := false;
      }
      var slot := if key in local then local[key] else Slot(window, 0);
      if slot.window != window {
        slot := Slot(window, 0);
      }
      slot := slot.(count := slot.count + 1);
      local := local[key := slot];
      return slot.count <= perMinute;
    }
  }

  // ---------- runs of the local path ----------

  function Next(local: map<string, Slot>, c: Call): map<string, Slot> {
    local[c.key := Slot(Window(c.now), Used(local, c.key, Window(c.now)) + 1)]
  }

  /** A call counts up its own key's slot, from the start again if the slot is of any other window, and leaves the
      other keys' alone. */
  lemma {:induction false} CallCounted(local: map<string, Slot>, c: Call, w: int)
    requires 60.0 * w as real <= c.now < 60.0 * (w + 1) as real
    ensures Next(local, c) - {c.key} == local - {c.key} && c.key in Next(local, c)
    ensures Next(local, c)[c.key]
         == Slot(w, if c.key in local && local[c.key].window == w then local[c.key].count + 1 else 1)
  {
    WindowIsAMinute(c.now, w);
    hide Window;
  }

  function InWindow(key: string, window: int): Call -> bool {
    (c: Call) => c.key == key && Window(c.now) == window
  }

  function InInterval(key: string, from: real, to: real): Call -> bool {
    (c: Call) => c.key == key && from <= c.now <= to
  }

  /** How many of the calls selected by `which` are admitted. */
  function Admitted(perMinute: nat, local: map<string, Slot>, calls: seq<Call>, which: Call -> bool): nat
    decreases |calls|
  {
    if calls == [] then 0
    else
      (if which(calls[0]) && Used(local, calls[0].key, Window(calls[0].now)) < perMinute then 1 else 0)
      + Admitted(perMinute, Next(local, calls[0]), calls[1..], which)
  }

  lemma {:induction false} WindowMonotone(a: real, b: real)
    requires a <= b
    ensures Window(a) <= Window(b)
  {
  }

  /** From a state in which the key's slot is not ahead of the clock. */
  lemma {:induction false} WindowFrom(
      perMinute: nat, local: map<string, Slot>, calls: seq<Call>, key: string, window: int, since: real)
    requires Monotone(calls, since) && (key in local ==> local[key].window <= Window(since))
    ensures Admitted(perMinute, local, calls, InWindow(key, window))
         == Min(|Filter(InWindow(key, window), calls)|, Max(0, perMinute - Used(local, key, window)))
    decreases |calls|
  {
    if calls != [] {
      var c := calls[0];
      WindowMonotone(since, c.now);
      WindowFrom(perMinute, Next(local, c), calls[1..], key, window, c.now);
      if c.key == key && Window(c.now) > window {
        NoneLater(calls, key, window, c.now);
      }
    }
  }

  lemma {:induction false} NoneLater(calls: seq<Call>, key: string, window: int, since: real)
    requires Monotone(calls, since) && Window(since) > window
    ensures Filter(InWindow(key, window), calls) == []
    decreases |calls|
  {
    if calls != [] {
      WindowMonotone(since, calls[0].now);
      NoneLater(calls[1..], key, window, calls[0].now);
    }
  }

  /** A window admits exactly min(calls, per_minute) of a key's calls. */
  lemma {:induction false} WindowExact(perMinute: nat, calls: seq<Call>, key: string, window: int)
    requires calls != [] ==> Monotone(calls, calls[0].now)
    ensures Admitted(perMinute, map[], calls, InWindow(key, window))
        == Min(|Filter(InWindow(key, window), calls)|, perMinute)
  {
    if calls != [] {
      WindowFrom(perMinute, map[], calls, key, window, calls[0].now);
    }
  }

  lemma {:induction false} CoveredBy(
      perMinute: nat, local: map<string, Slot>, calls: seq<Call>, which: Call -> bool, a: Call -> bool, b: Call -> bool)
    requires forall c :: c in calls && which(c) ==> a(c) || b(c)
    ensures Admitted(perMinute, local, calls, which) <= Admitted(perMinute, local, calls, a)
        + Admitted(perMinute, local, calls, b)
    decreases |calls|
  {
    if calls != [] {
      assert calls[0] in calls;
      CoveredBy(perMinute, Next(local, calls[0]), calls[1..], which, a, b);
    }
  }

  /** Sixty seconds touch at most two windows. */
  lemma {:induction false} TwoWindows(from: real, now: real)
    requires from <= now <= from + 60.0
    ensures Window(now) in {Window(from), Window(from) + 1}
  {
    var q := from / 60.0;
    assert (from + 60.0) / 60.0 == q + 1.0;
    assert q <= now / 60.0 <= q + 1.0;
  }

  /** Any sixty seconds admit at most twice per_minute of a key's calls. */
  lemma {:induction false} MinuteBound(perMinute: nat, calls: seq<Call>, key: string, from: real)
    requires calls != [] ==> Monotone(calls, calls[0].now)
    ensures Admitted(perMinute, map[], calls, InInterval(key, from, from + 60.0)) <= 2 * perMinute
  {
    var w := Window(from);
    forall c | c in calls && InInterval(key, from, from + 60.0)(c)
      ensures InWindow(key, w)(c) || InWindow(key, w + 1)(c)
    {
      TwoWindows(from, c.now);
    }
    CoveredBy(perMinute, map[], calls, InInterval(key, from, from + 60.0), InWindow(key, w), InWindow(key, w + 1));
    WindowExact(perMinute, calls, key, w);
    WindowExact(perMinute, calls, key, w + 1);
  }
}
