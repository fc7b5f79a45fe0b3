/**
 The per-key token bucket of the public verify endpoint
 (services/presumptive/certificates.go), over real numbers. A call carries the two
 clock readings `Allow` takes: `first`, used when the key is new, and `now`.
 */
module RateLimiters {

  datatype Bucket = Bucket(tokens: real, last: real)

  datatype Rate = Rate(capacity: real, perSec: real)

  datatype Call = Call(key: string, first: real, now: real)

  /** Tokens earned between two clock readings. */
  function Gain(r: Rate, since: real, now: real): real
  {
    (now - since) * r.perSec
  }

  function Refilled(r: Rate, b: Bucket, now: real): Bucket
  {
    var tokens := b.tokens + Gain(r, b.last, now);
    Bucket(if tokens > r.capacity then r.capacity else tokens, now)
  }

  function BucketFor(r: Rate, m: map<string, Bucket>, c: Call): Bucket
  {
    if c.key in m then m[c.key] else Bucket(r.capacity, c.first)
  }

  function Allowed(r: Rate, m: map<string, Bucket>, c: Call): bool
  {
    Refilled(r, BucketFor(r, m, c), c.now).tokens >= 1.0
  }

  function Step(r: Rate, m: map<string, Bucket>, c: Call): map<string, Bucket>
  {
    var b := Refilled(r, BucketFor(r, m, c), c.now);
    m[c.key := if b.tokens < 1.0 then b else b.(tokens := b.tokens - 1.0)]
  }

  class RateLimiter {
    const rate: Rate
    var buckets: map<string, Bucket>

    constructor (capacity: real, perSec: real)
      ensures rate == Rate(capacity, perSec) && buckets == map[]
    {
      rate := Rate(capacity, perSec);
      buckets := map[];
    }

    method Allow(key: string, first: real, now: real) returns (ok: bool)
      modifies this
      ensures ok == Allowed(rate, old(buckets), Call(key, first, now))
      ensures buckets == Step(rate, old(buckets), Call(key, first, now))
    {
      if key !in buckets { buckets := buckets[key := Bucket(rate.capacity, first)]; }
      var b := buckets[key];
      b := b.(tokens := b.tokens + Gain(rate, b.last, now));
      if b.tokens > rate.capacity { b := b.(tokens := rate.capacity); }
      b := b.(last := now);
      if b.tokens < 1.0 {
        buckets := buckets[key := b];
        return false;
      }
      buckets := buckets[key := b.(tokens := b.tokens - 1.0)];
      ok := true;
    }
  }

  // ---------------------------------------------------------------- runs

  function Run(r: Rate, m: map<string, Bucket>, calls: seq<Call>): map<string, Bucket>
  {
    if calls == [] then m else Step(r, Run(r, m, calls[..|calls| - 1]), calls[|calls| - 1])
  }

  /** How many of the calls on `key` are accepted. */
  function Accepted(r: Rate, m: map<string, Bucket>, calls: seq<Call>, key: string): nat
  {
    if calls == [] then 0
    else
      var before, c := calls[..|calls| - 1], calls[|calls| - 1];
      Accepted(r, m, before, key) + if c.key == key && Allowed(r, Run(r, m, before), c) then 1 else 0
  }

  /** Clock readings never go back, and the second reading of a call is not before its first. */
  predicate Ordered(calls: seq<Call>)
  {
    && (forall i :: 0 <= i < |calls| ==> calls[i].first <= calls[i].now)
    && (forall i, j :: 0 <= i < j < |calls| ==> calls[i].now <= calls[j].first)
  }

  /** Every bucket holds between nothing and a full bucket and was last touched by `now`. */
  predicate Sane(r: Rate, m: map<string, Bucket>, now: real)
  {
    forall k :: k in m ==> 0.0 <= m[k].tokens <= r.capacity && m[k].last <= now
  }

  lemma {:induction false} GainNonNegative(r: Rate, since: real, now: real)
    requires r.perSec >= 0.0 && since <= now
    ensures Gain(r, since, now) >= 0.0
  {
  }

  lemma {:induction false} GainAdds(r: Rate, a: real, b: real, c: real)
    ensures Gain(r, a, c) == Gain(r, a, b) + Gain(r, b, c)
  {
  }

  lemma {:induction false} StepSane(r: Rate, m: map<string, Bucket>, c: Call, t: real)
    requires r.capacity >= 0.0 && r.perSec >= 0.0 && Sane(r, m, t) && t <= c.first <= c.now
    ensures Sane(r, Step(r, m, c), c.now)
  {
    GainNonNegative(r, BucketFor(r, m, c).last, c.now);
  }

  lemma {:induction false} RunSane(r: Rate, calls: seq<Call>, t: real)
    requires r.capacity >= 0.0 && r.perSec >= 0.0 && Ordered(calls)
    requires calls == [] || calls[|calls| - 1].now <= t
    ensures Sane(r, Run(r, map[], calls), t)
  {
    if calls != [] {
      var n := |calls| - 1;
      RunSane(r, calls[..n], if n == 0 then calls[n].first else calls[n - 1].now);
      StepSane(r, Run(r, map[], calls[..n]), calls[n], if n == 0 then calls[n].first else calls[n - 1].now);
    }
  }

  /** What the key can still spend at time `t`, if nothing spilled. */
  function Credit(r: Rate, m: map<string, Bucket>, key: string, t: real): real
  {
    if key in m then m[key].tokens + Gain(r, m[key].last, t) else r.capacity
  }

  function Paid(r: Rate, m: map<string, Bucket>, c: Call, key: string): nat
  {
    if c.key == key && Allowed(r, m, c) then 1 else 0
  }

  /** One call pays one token when accepted; waiting earns at most `perSec` a second. */
  lemma {:induction false} StepPays(r: Rate, m: map<string, Bucket>, c: Call, key: string, t: real)
    requires r.capacity >= 0.0 && r.perSec >= 0.0 && Sane(r, m, t) && t <= c.first <= c.now
    ensures Credit(r, Step(r, m, c), key, c.now) + Paid(r, m, c, key) as real <= Credit(r, m, key, t) + Gain(r, t, c.now)
  {
    GainNonNegative(r, t, c.now);
    GainNonNegative(r, c.first, c.now);
    GainNonNegative(r, c.now, c.now);
    GainAdds(r, c.now, c.now, c.now);
    if key in m { GainAdds(r, m[key].last, t, c.now); }
  }

  /** Over a window: tokens spent plus tokens left are at most tokens at the start plus tokens earned. */
  lemma {:induction false} WindowPays(r: Rate, m: map<string, Bucket>, calls: seq<Call>, key: string, t: real)
    requires r.capacity >= 0.0 && r.perSec >= 0.0 && Sane(r, m, t) && Ordered(calls)
    requires calls != [] ==> t <= calls[0].first
    ensures Sane(r, Run(r, m, calls), End(calls, t))
    ensures Credit(r, Run(r, m, calls), key, End(calls, t)) + Accepted(r, m, calls, key) as real
         <= Credit(r, m, key, t) + Gain(r, t, End(calls, t))
  {
    if calls == [] {
      GainNonNegative(r, t, t);
    } else {
      var n := |calls| - 1;
      var mid := End(calls[..n], t);
      WindowPays(r, m, calls[..n], key, t);
      StepSane(r, Run(r, m, calls[..n]), calls[n], mid);
      StepPays(r, Run(r, m, calls[..n]), calls[n], key, mid);
      GainAdds(r, t, mid, calls[n].now);
    }
  }

  function End(calls: seq<Call>, t: real): real
  {
    if calls == [] then t else calls[|calls| - 1].now
  }

  lemma {:induction false} CreditNonNegative(r: Rate, m: map<string, Bucket>, key: string, t: real)
    requires r.capacity >= 0.0 && r.perSec >= 0.0 && Sane(r, m, t)
    ensures Credit(r, m, key, t) >= 0.0
  {
    if key in m { GainNonNegative(r, m[key].last, t); }
  }

  /** After a call a key has at most a full bucket left, that call's token included. */
  lemma {:induction false} FirstCallPays(r: Rate, m: map<string, Bucket>, c: Call)
    ensures Credit(r, Step(r, m, c), c.key, c.now) + Paid(r, m, c, c.key) as real <= r.capacity
  {
    GainAdds(r, c.now, c.now, c.now);
  }

  lemma {:induction false} AcceptedSplit(r: Rate, m: map<string, Bucket>, a: seq<Call>, b: seq<Call>, key: string)
    ensures Run(r, m, a + b) == Run(r, Run(r, m, a), b)
    ensures Accepted(r, m, a + b, key) == Accepted(r, m, a, key) + Accepted(r, Run(r, m, a), b, key)
  {
    if b == [] {
      assert a + b == a;
    } else {
      var n := |b| - 1;
      assert (a + b)[..|a + b| - 1] == a + b[..n];
      AcceptedSplit(r, m, a, b[..n], key);
    }
  }

  lemma {:induction false} AcceptedFirst(r: Rate, m: map<string, Bucket>, calls: seq<Call>, key: string)
    requires calls != []
    ensures Run(r, m, calls) == Run(r, Step(r, m, calls[0]), calls[1..])
    ensures Accepted(r, m, calls, key) == Paid(r, m, calls[0], key) + Accepted(r, Step(r, m, calls[0]), calls[1..], key)
  {
    var one := [calls[0]];
    assert one[..0] == [] && calls == one + calls[1..];
    assert Run(r, m, one[..0]) == m && Accepted(r, m, one[..0], key) == 0;
    assert Run(r, m, one) == Step(r, m, calls[0]) && Accepted(r, m, one, key) == Paid(r, m, calls[0], key);
    AcceptedSplit(r, m, one, calls[1..], key);
  }

  /** A window that starts with a call on the key. */
  lemma {:induction false} WindowFromFirst(r: Rate, m: map<string, Bucket>, window: seq<Call>, key: string, t: real)
    requires r.capacity >= 0.0 && r.perSec >= 0.0 && Sane(r, m, t) && Ordered(window)
    requires window != [] && t <= window[0].first && window[0].key == key
    ensures Accepted(r, m, window, key) as real <= r.capacity + Gain(r, window[0].now, End(window, t))
  {
    var c, rest := window[0], window[1..];
    AcceptedFirst(r, m, window, key);
    StepSane(r, m, c, t);
    FirstCallPays(r, m, c);
    WindowPays(r, Step(r, m, c), rest, key, c.now);
    CreditNonNegative(r, Run(r, m, window), key, End(rest, c.now));
  }

  /** Leading calls on other keys do not matter. */
  lemma {:induction false} WindowBound(r: Rate, m: map<string, Bucket>, window: seq<Call>, key: string, t: real)
    requires r.capacity >= 0.0 && r.perSec >= 0.0 && Sane(r, m, t) && Ordered(window)
    requires window != [] && t <= window[0].first
    ensures Accepted(r, m, window, key) as real <= r.capacity + Gain(r, window[0].now, End(window, t))
    decreases |window|
  {
    var c, rest := window[0], window[1..];
    if c.key == key {
      WindowFromFirst(r, m, window, key, t);
    } else {
      AcceptedFirst(r, m, window, key);
      StepSane(r, m, c, t);
      GainNonNegative(r, c.now, End(window, t));
      if rest != [] {
        WindowBound(r, Step(r, m, c), rest, key, c.now);
        GainNonNegative(r, c.now, rest[0].now);
        GainAdds(r, c.now, rest[0].now, End(window, t));
      }
    }
  }

  /** In any window of any run, the calls accepted for a key number at most capacity + perSec * T. */
  lemma {:induction false} TokenBucketBound(r: Rate, past: seq<Call>, window: seq<Call>, key: string, T: real)
    requires r.capacity >= 0.0 && r.perSec >= 0.0 && Ordered(past + window)
    requires window != [] && window[|window| - 1].now - window[0].now <= T
    ensures Accepted(r, map[], past + window, key)
         == Accepted(r, map[], past, key) + Accepted(r, Run(r, map[], past), window, key)
    ensures Accepted(r, Run(r, map[], past), window, key) as real <= r.capacity + r.perSec * T
  {
    var all := past + window;
    assert forall i :: 0 <= i < |past| ==> past[i] == all[i];
    assert forall i :: 0 <= i < |window| ==> window[i] == all[|past| + i];
    AcceptedSplit(r, map[], past, window, key);
    RunSane(r, past, window[0].first);
    WindowBound(r, Run(r, map[], past), window, key, window[0].first);
    GainWithin(r, window[0].now, window[|window| - 1].now, T);
  }

  lemma {:induction false} GainWithin(r: Rate, since: real, now: real, T: real)
    requires r.perSec >= 0.0 && now - since <= T
    ensures Gain(r, since, now) <= r.perSec * T
  {
    assert (T - (now - since)) * r.perSec >= 0.0;
  }

  /** Conversely, a new key may spend its whole capacity at once: its first calls, up to the capacity, are accepted. */
  lemma {:induction false} BurstAccepted(r: Rate, m: map<string, Bucket>, calls: seq<Call>, key: string)
    requires r.perSec >= 0.0 && Ordered(calls) && key !in m && |calls| as real <= r.capacity
    requires forall i :: 0 <= i < |calls| ==> calls[i].key == key
    ensures Accepted(r, m, calls, key) == |calls|
    ensures var m' := Run(r, m, calls);
            if calls == [] then m' == m
            else key in m' && m'[key].tokens >= r.capacity - |calls| as real && m'[key].last == calls[|calls| - 1].now
  {
    if calls != [] {
      var n := |calls| - 1;
      BurstAccepted(r, m, calls[..n], key);
      GainNonNegative(r, BucketFor(r, Run(r, m, calls[..n]), calls[n]).last, calls[n].now);
    }
  }

  // ---------------------------------------------------------------- waiting

  /** What the bucket of a key holds when a call reads the clock: at most its capacity, and what the wait has earned. */
  function Holding(r: Rate, m: map<string, Bucket>, c: Call): real
  {
    var filled := if c.key in m then m[c.key].tokens + (c.now - m[c.key].last) * r.perSec
                  else r.capacity + (c.now - c.first) * r.perSec;
    if filled <= r.capacity then filled else r.capacity
  }

  /** A call is accepted exactly when its bucket holds a whole token, takes one then, and touches no other bucket. */
  lemma {:induction false} AllowOutcome(r: Rate, m: map<string, Bucket>, c: Call)
    ensures Allowed(r, m, c) <==> Holding(r, m, c) >= 1.0
    ensures Step(r, m, c)
         == m[c.key := Bucket(if Holding(r, m, c) >= 1.0 then Holding(r, m, c) - 1.0 else Holding(r, m, c), c.now)]
  {
    var b := BucketFor(r, m, c);
    assert Gain(r, b.last, c.now) == (c.now - b.last) * r.perSec;
    assert Refilled(r, b, c.now) == Bucket(Holding(r, m, c), c.now);
  }

  /**
   A key that waits is served: whatever it spent before, its next calls are accepted, as many as the bucket
   can hold and as were left or earned since it was last used.
   */
  lemma {:induction false} WaitingAccepted(r: Rate, m: map<string, Bucket>, calls: seq<Call>, key: string, low: real)
    requires r.perSec >= 0.0 && Ordered(calls) && key in m && calls != []
    requires forall i :: 0 <= i < |calls| ==> calls[i].key == key
    requires |calls| as real <= low <= r.capacity && low <= m[key].tokens + (calls[0].now - m[key].last) * r.perSec
    ensures Accepted(r, m, calls, key) == |calls|
    ensures var v := Run(r, m, calls);
            key in v && v[key].last == calls[|calls| - 1].now && v[key].tokens >= low - |calls| as real
  {
    assert Gain(r, m[key].last, calls[0].now) == (calls[0].now - m[key].last) * r.perSec;
    WaitingServed(r, m, calls, key, low);
  }

  lemma {:induction false} WaitingServed(r: Rate, m: map<string, Bucket>, calls: seq<Call>, key: string, low: real)
    requires r.perSec >= 0.0 && Ordered(calls) && key in m && calls != []
    requires forall i :: 0 <= i < |calls| ==> calls[i].key == key
    requires |calls| as real <= low <= r.capacity && low <= m[key].tokens + Gain(r, m[key].last, calls[0].now)
    ensures Accepted(r, m, calls, key) == |calls|
    ensures var v := Run(r, m, calls);
            key in v && v[key].last == calls[|calls| - 1].now && v[key].tokens >= low - |calls| as real
  {
    hide Gain, Allowed, Step;
    var n := |calls| - 1;
    if n == 0 {
      assert calls[..0] == [];
      assert Run(r, m, calls[..0]) == m && Accepted(r, m, calls[..0], key) == 0;
      Serves(r, m, calls[0], low);
    } else {
      WaitingServed(r, m, calls[..n], key, low);
      var u := Run(r, m, calls[..n]);
      GainNonNegative(r, u[key].last, calls[n].now);
      Serves(r, u, calls[n], low - n as real);
    }
  }

  lemma {:induction false} Serves(r: Rate, m: map<string, Bucket>, c: Call, low: real)
    requires c.key in m && 1.0 <= low <= r.capacity && low <= m[c.key].tokens + Gain(r, m[c.key].last, c.now)
    ensures Allowed(r, m, c) && Step(r, m, c).Keys == m.Keys
    ensures Step(r, m, c)[c.key].tokens >= low - 1.0 && Step(r, m, c)[c.key].last == c.now
  {
    hide Gain;
  }

  /** In particular a bucket is full again, whatever was spent, once the time it takes to earn its capacity has passed. */
  lemma {:induction false} FullAgain(r: Rate, past: seq<Call>, calls: seq<Call>, key: string)
    requires r.capacity >= 0.0 && r.perSec >= 0.0 && Ordered(past + calls) && past != [] && calls != []
    requires forall i :: 0 <= i < |calls| ==> calls[i].key == key
    requires |calls| as real <= r.capacity <= (calls[0].now - past[|past| - 1].now) * r.perSec
    ensures Accepted(r, Run(r, map[], past), calls, key) == |calls|
  {
    hide Accepted, Run, Sane;
    OrderedParts(past, calls);
    RunSane(r, past, past[|past| - 1].now);
    assert Gain(r, past[|past| - 1].now, calls[0].now) == (calls[0].now - past[|past| - 1].now) * r.perSec;
    FullBucket(r, Run(r, map[], past), calls, key, past[|past| - 1].now);
  }

  lemma {:induction false} OrderedParts(past: seq<Call>, calls: seq<Call>)
    requires Ordered(past + calls)
    ensures Ordered(past) && Ordered(calls)
  {
    var all := past + calls;
    assert forall i :: 0 <= i < |past| ==> past[i] == all[i];
    assert forall i :: 0 <= i < |calls| ==> calls[i] == all[|past| + i];
  }

  lemma {:induction false} FullBucket(r: Rate, m: map<string, Bucket>, calls: seq<Call>, key: string, t: real)
    requires r.capacity >= 0.0 && r.perSec >= 0.0 && Ordered(calls) && calls != [] && Sane(r, m, t)
    requires forall i :: 0 <= i < |calls| ==> calls[i].key == key
    requires |calls| as real <= r.capacity <= Gain(r, t, calls[0].now)
    ensures Accepted(r, m, calls, key) == |calls|
  {
    hide Accepted, Run, Ordered, Gain;
    if key in m {
      assert 0.0 <= m[key].tokens && m[key].last <= t;
      Longer(r, m[key].last, t, calls[0].now);
      WaitingServed(r, m, calls, key, r.capacity);
    } else {
      BurstAccepted(r, m, calls, key);
    }
  }

  /** A longer wait earns no less. */
  lemma {:induction false} Longer(r: Rate, a: real, b: real, c: real)
    requires r.perSec >= 0.0 && a <= b
    ensures Gain(r, a, c) >= Gain(r, b, c)
  {
    assert (b - a) * r.perSec >= 0.0;
  }
}
