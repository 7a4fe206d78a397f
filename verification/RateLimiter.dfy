/**
 The token bucket. Tokens and weights are reals, the clock counts milliseconds. `Acquire` reads
 the clock once, and once more after its sleep if the tokens are short; both readings are inputs.
*/
module RateLimiters {
  import opened Wrappers

  datatype Limits = Limits(capacity: real, refillPerSecond: real)

  datatype Bucket = Bucket(tokens: real, updatedAt: int)

  ghost predicate Sensible(l: Limits) {
    l.capacity >= 0.0 && l.refillPerSecond > 0.0
  }

  function Least(a: real, b: real): real {
    if a <= b then a else b
  }

  function Ceiling(x: real): int {
    -((-x).Floor)
  }

  /** What `ms` milliseconds refill. */
  function Gain(l: Limits, ms: int): real {
    ms as real / 1000.0 * l.refillPerSecond
  }

  function Refilled(l: Limits, b: Bucket, now: int): Bucket {
    Bucket(Least(l.capacity, b.tokens + Gain(l, Max(0, now - b.updatedAt))), now)
  }

  function WaitMs(l: Limits, b: Bucket, weight: real): int
    requires l.refillPerSecond > 0.0
  {
    Ceiling((weight - b.tokens) / l.refillPerSecond * 1000.0)
  }

  function Taken(b: Bucket, weight: real): Bucket {
    b.(tokens := if b.tokens - weight < 0.0 then 0.0 else b.tokens - weight)
  }

  // ----- one bucket

  /** The rate is per second: `n` seconds refill `n` times the rate, and a millisecond a thousandth of it. */
  lemma GainIsPerSecond(l: Limits, n: int)
    ensures Gain(l, 1000 * n) == n as real * l.refillPerSecond
    ensures Gain(l, n) * 1000.0 == n as real * l.refillPerSecond
  {
    assert (1000 * n) as real / 1000.0 == n as real;
    var x, r := n as real / 1000.0, l.refillPerSecond;
    assert x * r * 1000.0 == x * 1000.0 * r;
  }

  lemma GainAdds(l: Limits, a: int, b: int)
    ensures Gain(l, a + b) == Gain(l, a) + Gain(l, b)
  {
    var x, y, r := a as real / 1000.0, b as real / 1000.0, l.refillPerSecond;
    assert (a + b) as real / 1000.0 == x + y;
    assert (x + y) * r == x * r + y * r;
  }

  lemma GainGrows(l: Limits, a: int)
    requires Sensible(l) && a >= 0
    ensures Gain(l, a) >= 0.0
  {
  }

  lemma Scaling(x: real, y: real, r: real)
    requires r > 0.0
    ensures x <= y <==> x * r <= y * r
  {
    assert (y - x) * r == y * r - x * r;
  }

  /** The sleep is exactly as long as the missing tokens need: a millisecond less would not refill them. */
  lemma WaitIsExact(l: Limits, b: Bucket, weight: real, ms: int)
    requires Sensible(l)
    ensures b.tokens + Gain(l, ms) >= weight <==> ms >= WaitMs(l, b, weight)
  {
    var r := l.refillPerSecond;
    var seconds := (weight - b.tokens) / r;
    assert seconds * r == weight - b.tokens;
    Scaling(seconds, ms as real / 1000.0, r);
    assert seconds <= ms as real / 1000.0 <==> seconds * 1000.0 <= ms as real;
  }

  /** A refill in between changes nothing, as long as the clock does not run backwards. */
  lemma RefillTwice(l: Limits, b: Bucket, t0: int, t1: int)
    requires Sensible(l) && b.updatedAt <= t0 <= t1
    ensures Refilled(l, Refilled(l, b, t0), t1) == Refilled(l, b, t1)
  {
    GainAdds(l, t0 - b.updatedAt, t1 - t0);
    GainGrows(l, t1 - t0);
    assert t0 - b.updatedAt + (t1 - t0) == t1 - b.updatedAt;
  }

  /** A clock that is set back by `d` and catches up again refills for `d` twice. */
  lemma ClockSetBack(l: Limits, b: Bucket, d: nat)
    requires Sensible(l) && b.tokens <= l.capacity
    ensures Refilled(l, Refilled(l, b, b.updatedAt - d), b.updatedAt).tokens == Least(l.capacity, b.tokens + Gain(l, d))
  {
    assert Gain(l, 0) == 0.0;
  }

  lemma GainIsStrict(l: Limits, a: int, b: int)
    requires Sensible(l) && a < b
    ensures Gain(l, a) < Gain(l, b)
  {
    Scaling(b as real / 1000.0, a as real / 1000.0, l.refillPerSecond);
  }

  /**
   A refill in between changes the next one's result exactly when the clock ran back to it or
   from it, unless the bucket is full by then anyway.
  */
  lemma RefillTwiceExactly(l: Limits, b: Bucket, t0: int, t1: int)
    requires Sensible(l) && Within(l, b) && b.updatedAt <= t1
    ensures Refilled(l, Refilled(l, b, t0), t1) == Refilled(l, b, t1)
            <==> b.updatedAt <= t0 <= t1 || Refilled(l, b, t1).tokens == l.capacity
  {
    assert Gain(l, 0) == 0.0;
    GainGrows(l, t1 - b.updatedAt);
    if b.updatedAt <= t0 <= t1 {
      RefillTwice(l, b, t0, t1);
    } else if t0 < b.updatedAt {
      GainIsStrict(l, t1 - b.updatedAt, t1 - t0);
    } else {
      GainIsStrict(l, t1 - b.updatedAt, t0 - b.updatedAt);
    }
  }

  ghost predicate Within(l: Limits, b: Bucket) {
    0.0 <= b.tokens <= l.capacity
  }

  lemma RefilledWithin(l: Limits, b: Bucket, now: int)
    requires Sensible(l) && Within(l, b)
    ensures Within(l, Refilled(l, b, now)) && Refilled(l, b, now).tokens >= b.tokens
  {
    GainGrows(l, Max(0, now - b.updatedAt));
  }

  lemma RefillBounded(l: Limits, b: Bucket, t0: int, t1: int)
    requires Sensible(l) && b.updatedAt <= t0 <= t1
    ensures Refilled(l, b, t1).tokens <= Refilled(l, b, t0).tokens + Gain(l, t1 - t0)
  {
    RefillTwice(l, b, t0, t1);
  }

  // ----- all buckets

  datatype Event =
    | Acquire(key: string, weight: real, t0: int, t1: int)
    | GetRemaining(key: string, now: int)

  type Buckets = map<string, Bucket>

  function BucketOf(l: Limits, s: Buckets, key: string, now: int): Bucket {
    if key in s then s[key] else Bucket(l.capacity, now)
  }

  function StartOf(e: Event): int {
    if e.Acquire? then e.t0 else e.now
  }

  /** The bucket as it is when the call reads the clock first. */
  function Found(l: Limits, s: Buckets, e: Event): Bucket {
    Refilled(l, BucketOf(l, s, e.key, StartOf(e)), StartOf(e))
  }

  predicate Waits(l: Limits, s: Buckets, e: Event) {
    e.Acquire? && Found(l, s, e).tokens < e.weight
  }

  /** When the call last refilled the bucket; for an acquisition, when it was granted. */
  function EndOf(l: Limits, s: Buckets, e: Event): int {
    if Waits(l, s, e) then e.t1 else StartOf(e)
  }

  /** The bucket a grant is taken from. */
  function Offered(l: Limits, s: Buckets, e: Event): Bucket {
    if Waits(l, s, e) then Refilled(l, Found(l, s, e), e.t1) else Found(l, s, e)
  }

  function Step(l: Limits, s: Buckets, e: Event): Buckets {
    s[e.key := if e.Acquire? then Taken(Offered(l, s, e), e.weight) else Found(l, s, e)]
  }

  function Run(l: Limits, es: seq<Event>): Buckets {
    if es == [] then map[] else Step(l, Run(l, es[..|es| - 1]), es[|es| - 1])
  }

  /** The sleep lasts at least as long as was asked for. */
  ghost predicate Honoured(l: Limits, s: Buckets, e: Event)
    requires l.refillPerSecond > 0.0
  {
    Waits(l, s, e) ==> e.t1 >= e.t0 + WaitMs(l, Found(l, s, e), e.weight)
  }

  /** Every bucket is within its bounds, and none was refilled after `now`. */
  ghost predicate Inv(l: Limits, s: Buckets, now: int) {
    forall k :: k in s ==> Within(l, s[k]) && s[k].updatedAt <= now
  }

  /** The calls come one at a time, on a clock that does not run backwards and honours the sleeps. */
  ghost predicate Fits(l: Limits, s: Buckets, e: Event, before: int, after: int)
    requires l.refillPerSecond > 0.0
  {
    && before <= StartOf(e) <= EndOf(l, s, e) <= after
    && Honoured(l, s, e)
    && (e.Acquire? ==> e.weight >= 0.0)
  }

  /**
   A grant takes its whole weight from the bucket exactly when the weight is at most the
   capacity; a heavier one is granted all the same, and empties the bucket.
  */
  lemma GrantCoversExactly(l: Limits, s: Buckets, e: Event, before: int, after: int)
    requires Sensible(l) && Inv(l, s, before) && Fits(l, s, e, before, after) && e.Acquire?
    ensures Offered(l, s, e).tokens >= e.weight <==> e.weight <= l.capacity
    ensures Step(l, s, e)[e.key].tokens == if e.weight <= l.capacity then Offered(l, s, e).tokens - e.weight else 0.0
  {
    FoundWithin(l, s, e, before);
    if Waits(l, s, e) {
      WaitIsExact(l, Found(l, s, e), e.weight, e.t1 - e.t0);
    }
  }

  lemma FoundWithin(l: Limits, s: Buckets, e: Event, before: int)
    requires Sensible(l) && Inv(l, s, before)
    ensures Within(l, Found(l, s, e)) && Found(l, s, e).updatedAt == StartOf(e)
  {
    RefilledWithin(l, BucketOf(l, s, e.key, StartOf(e)), StartOf(e));
  }

  lemma InvStep(l: Limits, s: Buckets, e: Event, before: int, after: int)
    requires Sensible(l) && Inv(l, s, before) && Fits(l, s, e, before, after)
    ensures Inv(l, Step(l, s, e), after)
  {
    FoundWithin(l, s, e, before);
    if Waits(l, s, e) { RefilledWithin(l, Found(l, s, e), e.t1); }
  }

  /** The tokens `key` would hold after a refill at `now`. */
  function Level(l: Limits, s: Buckets, key: string, now: int): real {
    Refilled(l, BucketOf(l, s, key, now), now).tokens
  }

  function Drawn(e: Event, key: string): real {
    if e.Acquire? && e.key == key then e.weight else 0.0
  }

  /** What a call draws is paid for by the level before it and the refill until after it. */
  lemma StepPays(l: Limits, s: Buckets, e: Event, key: string, before: int, a: int, b: int)
    requires Sensible(l) && Inv(l, s, before) && Fits(l, s, e, before, b)
    requires before <= a && (e.key == key && e.Acquire? ==> a <= EndOf(l, s, e)) && a <= b
    requires e.Acquire? && e.key == key ==> e.weight <= l.capacity
    ensures Level(l, Step(l, s, e), key, b) + Drawn(e, key) <= Level(l, s, key, a) + Gain(l, b - a)
  {
    if e.key != key {
      LevelGrows(l, s, key, a, b);
    } else if e.Acquire? {
      AcquirePays(l, s, e, before, a, b);
    } else {
      RefillTwice(l, BucketOf(l, s, key, e.now), e.now, b);
      LevelGrows(l, s, key, a, b);
      NewBucketIsFull(l, e.now, b);
    }
  }

  lemma AcquirePays(l: Limits, s: Buckets, e: Event, before: int, a: int, b: int)
    requires Sensible(l) && Inv(l, s, before) && e.Acquire? && Fits(l, s, e, before, b)
    requires before <= a <= EndOf(l, s, e) && e.weight <= l.capacity
    ensures Level(l, Step(l, s, e), e.key, b) + e.weight <= Level(l, s, e.key, a) + Gain(l, b - a)
  {
    var end := EndOf(l, s, e);
    OfferedIsLevel(l, s, e, before);
    GrantCoversExactly(l, s, e, before, b);
    LevelGrows(l, s, e.key, a, end);
    GainAdds(l, end - a, b - end);
    assert end - a + (b - end) == b - a;
    AtMostGain(l, Step(l, s, e), e.key, end, b);
  }

  lemma AtMostGain(l: Limits, s: Buckets, key: string, end: int, b: int)
    requires key in s && s[key].updatedAt == end <= b
    ensures Level(l, s, key, b) <= s[key].tokens + Gain(l, b - end)
  {
  }

  /** Looking at a bucket changes nothing that a later call, of this key or another, could tell. */
  lemma LookingChangesNothing(l: Limits, s: Buckets, e: Event, before: int, key: string, later: int)
    requires Sensible(l) && Inv(l, s, before) && e.GetRemaining? && before <= e.now <= later
    ensures Level(l, Step(l, s, e), key, later) == Level(l, s, key, later)
  {
    NewBucketIsFull(l, e.now, later);
    NewBucketIsFull(l, later, later);
    NewBucketIsFull(l, e.now, e.now);
    if key == e.key { RefillTwice(l, BucketOf(l, s, key, e.now), e.now, later); }
  }

  lemma NewBucketIsFull(l: Limits, t0: int, t1: int)
    requires Sensible(l) && t0 <= t1
    ensures Refilled(l, Bucket(l.capacity, t0), t1).tokens == l.capacity
  {
    GainGrows(l, t1 - t0);
  }

  lemma LevelGrows(l: Limits, s: Buckets, key: string, a: int, b: int)
    requires Sensible(l) && a <= b && Inv(l, s, a)
    ensures Level(l, s, key, b) <= Level(l, s, key, a) + Gain(l, b - a)
  {
    GainGrows(l, b - a);
    NewBucketIsFull(l, a, a);
    if key in s { RefillBounded(l, s[key], a, b); }
  }

  lemma OfferedIsLevel(l: Limits, s: Buckets, e: Event, before: int)
    requires Sensible(l) && Inv(l, s, before) && before <= StartOf(e) <= EndOf(l, s, e)
    ensures Offered(l, s, e).tokens == Level(l, s, e.key, EndOf(l, s, e))
    ensures Offered(l, s, e).updatedAt == EndOf(l, s, e)
  {
    NewBucketIsFull(l, StartOf(e), EndOf(l, s, e));
    NewBucketIsFull(l, EndOf(l, s, e), EndOf(l, s, e));
    RefillTwice(l, BucketOf(l, s, e.key, StartOf(e)), StartOf(e), EndOf(l, s, e));
  }

  // ----- runs

  /** When the first `n` calls were over; the run begins at `start`. */
  function Clock(l: Limits, es: seq<Event>, start: int): int {
    if es == [] then start else EndOf(l, Run(l, es[..|es| - 1]), es[|es| - 1])
  }

  ghost predicate Orderly(l: Limits, es: seq<Event>, start: int)
    requires l.refillPerSecond > 0.0
    decreases |es|
  {
    es != [] ==>
      var before := es[..|es| - 1];
      Orderly(l, before, start)
      && Fits(l, Run(l, before), es[|es| - 1], Clock(l, before, start), Clock(l, es, start))
  }

  /** In every reachable state each bucket holds between no tokens and its capacity. */
  lemma {:induction false} TokensStayWithin(l: Limits, es: seq<Event>, start: int)
    requires Sensible(l) && Orderly(l, es, start)
    ensures Inv(l, Run(l, es), Clock(l, es, start))
    decreases |es|
  {
    if es != [] {
      var before := es[..|es| - 1];
      TokensStayWithin(l, before, start);
      InvStep(l, Run(l, before), es[|es| - 1], Clock(l, before, start), Clock(l, es, start));
    }
  }

  /** The weight granted to `key` at times from `a` on. */
  function GrantedSince(l: Limits, es: seq<Event>, key: string, a: int): real {
    if es == [] then 0.0
    else
      GrantedSince(l, es[..|es| - 1], key, a)
      + if EndOf(l, Run(l, es[..|es| - 1]), es[|es| - 1]) >= a then Drawn(es[|es| - 1], key) else 0.0
  }

  ghost predicate NoneTooHeavy(l: Limits, es: seq<Event>, key: string) {
    forall i :: 0 <= i < |es| ==> Drawn(es[i], key) <= l.capacity
  }

  lemma {:induction false} NothingBefore(l: Limits, es: seq<Event>, key: string, start: int, a: int)
    requires Sensible(l) && Orderly(l, es, start) && Clock(l, es, start) < a
    ensures GrantedSince(l, es, key, a) == 0.0
    decreases |es|
  {
    if es != [] { NothingBefore(l, es[..|es| - 1], key, start, a); }
  }

  lemma PaidFurther(l: Limits, s: Buckets, e: Event, key: string, was: int, now: int, a: int, granted: real)
    requires Sensible(l) && Inv(l, s, was) && Fits(l, s, e, was, now) && Drawn(e, key) <= l.capacity && a <= was
    requires Level(l, s, key, was) + granted <= l.capacity + Gain(l, was - a)
    ensures Level(l, Step(l, s, e), key, now) + (granted + Drawn(e, key)) <= l.capacity + Gain(l, now - a)
  {
    StepPays(l, s, e, key, was, was, now);
    GainAdds(l, was - a, now - was);
    assert was - a + (now - was) == now - a;
  }

  lemma PaidFirst(l: Limits, s: Buckets, e: Event, key: string, was: int, now: int, a: int)
    requires Sensible(l) && Inv(l, s, was) && Fits(l, s, e, was, now) && Drawn(e, key) <= l.capacity
    requires was < a <= now == EndOf(l, s, e)
    ensures Level(l, Step(l, s, e), key, now) + Drawn(e, key) <= l.capacity + Gain(l, now - a)
  {
    StepPays(l, s, e, key, was, a, now);
    LevelWithin(l, s, key, a);
  }

  /** The level now and everything granted since `a` were in the bucket at `a` or refilled since. */
  lemma {:induction false} GrantsArePaid(l: Limits, es: seq<Event>, key: string, start: int, a: int)
    requires Sensible(l) && Orderly(l, es, start) && NoneTooHeavy(l, es, key) && a <= Clock(l, es, start)
    ensures Level(l, Run(l, es), key, Clock(l, es, start)) + GrantedSince(l, es, key, a)
            <= l.capacity + Gain(l, Clock(l, es, start) - a)
    decreases |es|
  {
    var now := Clock(l, es, start);
    if es == [] {
      GainGrows(l, now - a);
    } else {
      var before, e := es[..|es| - 1], es[|es| - 1];
      var s, was := Run(l, before), Clock(l, before, start);
      assert forall i :: 0 <= i < |before| ==> before[i] == es[i];
      TokensStayWithin(l, before, start);
      if a <= was {
        GrantsArePaid(l, before, key, start, a);
        PaidFurther(l, s, e, key, was, now, a, GrantedSince(l, before, key, a));
      } else {
        NothingBefore(l, before, key, start, a);
        PaidFirst(l, s, e, key, was, now, a);
      }
    }
  }

  /** The weight granted to `key` at times from `a` to `b`. */
  function GrantedBetween(l: Limits, es: seq<Event>, key: string, a: int, b: int): real {
    if es == [] then 0.0
    else
      GrantedBetween(l, es[..|es| - 1], key, a, b)
      + if a <= EndOf(l, Run(l, es[..|es| - 1]), es[|es| - 1]) <= b then Drawn(es[|es| - 1], key) else 0.0
  }

  lemma {:induction false} AllOfThem(l: Limits, es: seq<Event>, key: string, start: int, a: int, b: int)
    requires l.refillPerSecond > 0.0 && Orderly(l, es, start) && Clock(l, es, start) <= b
    ensures GrantedBetween(l, es, key, a, b) == GrantedSince(l, es, key, a)
    decreases |es|
  {
    if es != [] { AllOfThem(l, es[..|es| - 1], key, start, a, b); }
  }

  /**
   In no interval of time is a key granted more than its capacity and what the interval
   refills, whatever other keys do.
  */
  lemma {:induction false} IntervalBound(l: Limits, es: seq<Event>, key: string, start: int, a: int, b: int)
    requires Sensible(l) && Orderly(l, es, start) && NoneTooHeavy(l, es, key) && a <= b
    ensures GrantedBetween(l, es, key, a, b) <= l.capacity + Gain(l, b - a)
    decreases |es|
  {
    var now := Clock(l, es, start);
    GainGrows(l, b - a);
    if es != [] && now > b {
      assert forall i :: 0 <= i < |es| - 1 ==> es[..|es| - 1][i] == es[i];
      IntervalBound(l, es[..|es| - 1], key, start, a, b);
    } else if es != [] {
      AllOfThem(l, es, key, start, a, b);
      if now < a {
        NothingBefore(l, es, key, start, a);
      } else {
        GrantsArePaid(l, es, key, start, a);
        TokensStayWithin(l, es, start);
        LevelWithin(l, Run(l, es), key, now);
        GainAdds(l, now - a, b - now);
        GainGrows(l, b - now);
        assert now - a + (b - now) == b - a;
      }
    }
  }

  /** A call that was granted lies in the interval of its own moment. */
  lemma {:induction false} OwnMoment(l: Limits, es: seq<Event>, key: string, start: int, i: nat, t: int)
    requires Sensible(l) && Orderly(l, es, start) && i < |es| && t == EndOf(l, Run(l, es[..i]), es[i])
    ensures GrantedBetween(l, es, key, t, t) >= Drawn(es[i], key) >= 0.0
    decreases |es|
  {
    var before, e := es[..|es| - 1], es[|es| - 1];
    GrantsAreNotNegative(l, before, key, start, t);
    if i < |before| {
      assert before[..i] == es[..i];
      OwnMoment(l, before, key, start, i, t);
    }
  }

  lemma {:induction false} GrantsAreNotNegative(l: Limits, es: seq<Event>, key: string, start: int, t: int)
    requires l.refillPerSecond > 0.0 && Orderly(l, es, start)
    ensures GrantedBetween(l, es, key, t, t) >= 0.0
    decreases |es|
  {
    if es != [] { GrantsAreNotNegative(l, es[..|es| - 1], key, start, t); }
  }

  ghost predicate BoundedEverywhere(l: Limits, es: seq<Event>, key: string) {
    forall a, b :: a <= b ==> GrantedBetween(l, es, key, a, b) <= l.capacity + Gain(l, b - a)
  }

  /** Every interval keeps the bound exactly when no single weight is above the capacity. */
  lemma BoundExactly(l: Limits, es: seq<Event>, key: string, start: int)
    requires Sensible(l) && Orderly(l, es, start)
    ensures BoundedEverywhere(l, es, key) <==> NoneTooHeavy(l, es, key)
  {
    if NoneTooHeavy(l, es, key) {
      forall a, b | a <= b ensures GrantedBetween(l, es, key, a, b) <= l.capacity + Gain(l, b - a) {
        IntervalBound(l, es, key, start, a, b);
      }
    } else {
      var i :| 0 <= i < |es| && !(Drawn(es[i], key) <= l.capacity);
      var t := EndOf(l, Run(l, es[..i]), es[i]);
      OwnMoment(l, es, key, start, i, t);
      assert Gain(l, t - t) == 0.0;
      assert GrantedBetween(l, es, key, t, t) > l.capacity + Gain(l, t - t);
    }
  }

  lemma LevelWithin(l: Limits, s: Buckets, key: string, now: int)
    requires Sensible(l) && Inv(l, s, now)
    ensures 0.0 <= Level(l, s, key, now) <= l.capacity
  {
    RefilledWithin(l, BucketOf(l, s, key, now), now);
  }

  // ----- the implementation

  class MemoryRateLimiter {
    const limits: Limits
    var buckets: Buckets

    constructor (limits: Limits)
      ensures this.limits == limits && buckets == Run(limits, [])
    {
      this.limits := limits;
      buckets := map[];
    }

    /** The bucket of `key`, made full when there is none. */
    method TheBucket(key: string, now: int) returns (b: Bucket)
      modifies this
      ensures b == BucketOf(limits, old(buckets), key, now) && buckets == old(buckets)[key := b]
    {
      if key !in buckets {
        buckets := buckets[key := Bucket(limits.capacity, now)];
      }
      b := buckets[key];
      assert buckets == buckets[key := b];
    }

    method Refill(key: string, now: int)
      requires key in buckets
      modifies this
      ensures buckets == old(buckets)[key := Refilled(limits, old(buckets)[key], now)]
    {
      var b := buckets[key];
      var elapsed := Max(0, now - b.updatedAt);
      buckets := buckets[key := Bucket(Least(limits.capacity, b.tokens + Gain(limits, elapsed)), now)];
    }

    /** `waited` is the length of the sleep it asks for; `t1` is the clock when it wakes. */
    method AcquireTokens(key: string, weight: real, t0: int, t1: int) returns (waited: Option<int>)
      requires limits.refillPerSecond > 0.0
      modifies this
      ensures var e := Acquire(key, weight, t0, t1);
              && buckets == Step(limits, old(buckets), e)
              && (waited.Some? <==> Waits(limits, old(buckets), e))
              && (waited.Some? ==> waited.value == WaitMs(limits, Found(limits, old(buckets), e), weight))
    {
      ghost var was := buckets;
      var _ := TheBucket(key, t0);
      Refill(key, t0);
      assert buckets == was[key := Found(limits, was, Acquire(key, weight, t0, t1))];
      waited := None;
      if buckets[key].tokens < weight {
        waited := Some(WaitMs(limits, buckets[key], weight));
        Refill(key, t1);
      }
      assert buckets == was[key := Offered(limits, was, Acquire(key, weight, t0, t1))];
      buckets := buckets[key := Taken(buckets[key], weight)];
    }

    /** The whole tokens left. */
    method Remaining(key: string, now: int) returns (remaining: int)
      modifies this
      ensures buckets == Step(limits, old(buckets), GetRemaining(key, now))
      ensures remaining as real <= Level(limits, old(buckets), key, now) < (remaining + 1) as real
    {
      var b := TheBucket(key, now);
      Refill(key, now);
      remaining := buckets[key].tokens.Floor;
    }
  }
}
