/**
 The in-process limiter's token buckets: `acquire_tokens` and the bucket half of
 `evict_inactive`, over a dictionary of buckets updated in place.

 A bucket's critical section never yields to the event loop, so each call is one
 step and no bucket lock is held when a sweep runs.
 */
module MemoryLimiter {
  import opened Common
  import opened Maths
  import opened TokenBuckets

  type Key = string
  type Table = map<Key, Bucket>

  function Lookup(t: Table, key: Key): Option<Bucket> {
    if key in t then Some(t[key]) else None
  }

  function AfterCall(t: Table, key: Key, l: Limits, cost: real, now: real): (Table, Outcome)
    requires l.Positive()
  {
    var (b, outcome) := Spend(Lookup(t, key), l, cost, now);
    (t[key := b], outcome)
  }

  function AfterSweep(t: Table, olderThan: real, now: real): Table {
    map k | k in t && now - t[k].lastAccess < olderThan :: t[k]
  }

  class MemoryRateLimiter {
    var buckets: Table

    constructor ()
      ensures buckets == map[]
    {
      buckets := map[];
    }

    method AcquireTokens(key: Key, l: Limits, cost: real, now: real) returns (r: Result<Outcome, LimitError>)
      modifies this
      ensures !l.Positive() ==> r == Failure(NonPositiveLimits) && buckets == old(buckets)
      ensures l.Positive() ==>
                r.Success? && (buckets, r.value) == AfterCall(old(buckets), key, l, cost, now)
    {
      if l.capacity <= 0.0 || l.refill <= 0.0 {
        return Failure(NonPositiveLimits);
      }
      var tokens;
      if key !in buckets {
        tokens := l.capacity;
      } else {
        var elapsed := Max(0.0, now - buckets[key].lastRefill);
        tokens := Min(l.capacity, buckets[key].tokens + elapsed * l.refill);
      }
      if tokens >= cost {
        tokens := tokens - cost;
        buckets := buckets[key := Bucket(tokens, now, now)];
        return Success(Outcome(true, tokens, 0.0));
      }
      buckets := buckets[key := Bucket(tokens, now, now)];
      var deficit := cost - tokens;
      return Success(Outcome(false, tokens, deficit / l.refill));
    }

    method EvictInactive(olderThan: real, now: real) returns (evicted: nat)
      modifies this
      ensures buckets == AfterSweep(old(buckets), olderThan, now)
      ensures evicted == |old(buckets)| - |buckets|
    {
      evicted := 0;
      var left := buckets.Keys;
      while left != {}
        invariant left <= buckets.Keys <= old(buckets).Keys
        invariant forall k :: k in buckets ==> buckets[k] == old(buckets)[k]
        invariant forall k :: k in old(buckets) && k !in left ==>
                    (k in buckets <==> now - old(buckets)[k].lastAccess < olderThan)
        invariant evicted + |buckets.Keys| == |old(buckets).Keys|
      {
        var key :| key in left;
        left := left - {key};
        if now - buckets[key].lastAccess >= olderThan {
          ghost var before := buckets.Keys;
          buckets := buckets - {key};
          assert buckets.Keys == before - {key};
          evicted := evicted + 1;
        }
      }
      assert |buckets| == |buckets.Keys| && |old(buckets)| == |old(buckets).Keys|;
    }
  }

  // ---------------------------------------------------------------- runs over every key

  datatype Event = Acquire(key: Key, cost: real, now: real) | Sweep(now: real)

  /** The limiter's answers to a run; `idle` is the sweep age, or None to ignore sweeps. */
  function RunEvents(t: Table, config: Key -> Limits, events: seq<Event>, idle: Option<real>): (r: seq<Outcome>)
    requires forall k :: config(k).Positive()
    ensures |r| == Acquires(events)
    decreases |events|
  {
    if events == [] then []
    else match events[0]
      case Acquire(key, cost, now) =>
        var (t', outcome) := AfterCall(t, key, config(key), cost, now);
        [outcome] + RunEvents(t', config, events[1..], idle)
      case Sweep(now) =>
        RunEvents(if idle.Some? then AfterSweep(t, idle.value, now) else t, config, events[1..], idle)
  }

  function Acquires(events: seq<Event>): nat {
    if events == [] then 0 else (if events[0].Acquire? then 1 else 0) + Acquires(events[1..])
  }

  predicate ClockFrom(events: seq<Event>, clock: real) {
    events == [] || (clock <= events[0].now && ClockFrom(events[1..], events[0].now))
  }

  predicate CostsNonNegative(events: seq<Event>) {
    forall e :: e in events && e.Acquire? ==> e.cost >= 0.0
  }

  function CallsOn(events: seq<Event>, key: Key): seq<Call> {
    if events == [] then []
    else
      var mine := events[0].Acquire? && events[0].key == key;
      (if mine then [Call(events[0].cost, events[0].now)] else []) + CallsOn(events[1..], key)
  }

  /** The answers a run gave to one key. */
  function AnswersTo(events: seq<Event>, outcomes: seq<Outcome>, key: Key): (r: seq<Outcome>)
    requires |outcomes| == Acquires(events)
    ensures |r| == |CallsOn(events, key)|
  {
    if events == [] then []
    else if events[0].Sweep? then AnswersTo(events[1..], outcomes, key)
    else
      (if events[0].key == key then [outcomes[0]] else []) + AnswersTo(events[1..], outcomes[1..], key)
  }

  // ---------------------------------------------------------------- one key inside a whole run

  function Swept(b: Option<Bucket>, olderThan: real, now: real): Option<Bucket> {
    if b.Some? && now - b.value.lastAccess >= olderThan then None else b
  }

  /** One bucket on its own, called when its key is called and swept with the rest. */
  function RunKey(b: Option<Bucket>, l: Limits, events: seq<Event>, key: Key, idle: Option<real>): (r: seq<Outcome>)
    requires l.Positive()
    ensures |r| == |CallsOn(events, key)|
    decreases |events|
  {
    if events == [] then []
    else match events[0]
      case Acquire(k, cost, now) =>
        if k != key then RunKey(b, l, events[1..], key, idle)
        else
          var (b', outcome) := Spend(b, l, cost, now);
          [outcome] + RunKey(Some(b'), l, events[1..], key, idle)
      case Sweep(now) =>
        RunKey(if idle.Some? then Swept(b, idle.value, now) else b, l, events[1..], key, idle)
  }

  /** Keys do not disturb each other: in any run over any keys, swept or not, a key is
      answered as its own bucket alone would answer. */
  lemma {:induction false} KeysAreIndependent(
      t: Table, config: Key -> Limits, events: seq<Event>, key: Key, idle: Option<real>)
    requires forall k :: config(k).Positive()
    ensures AnswersTo(events, RunEvents(t, config, events, idle), key)
         == RunKey(Lookup(t, key), config(key), events, key, idle)
    decreases |events|
  {
    if events != [] {
      var rest := events[1..];
      match events[0]
      case Acquire(k, cost, now) =>
        var (t', outcome) := AfterCall(t, k, config(k), cost, now);
        KeysAreIndependent(t', config, rest, key, idle);
        assert RunEvents(t, config, events, idle)[1..] == RunEvents(t', config, rest, idle);
        CallOnOneKey(t, k, config(k), cost, now, key);
      case Sweep(now) =>
        var t' := if idle.Some? then AfterSweep(t, idle.value, now) else t;
        KeysAreIndependent(t', config, rest, key, idle);
        if idle.Some? {
          SweepOnEachKey(t, idle.value, now, key);
        }
    }
  }

  lemma {:induction false} CallOnOneKey(t: Table, k: Key, l: Limits, cost: real, now: real, key: Key)
    requires l.Positive()
    ensures var (t', outcome) := AfterCall(t, k, l, cost, now);
            var (b', own) := Spend(Lookup(t, k), l, cost, now);
            outcome == own && Lookup(t', key) == if k == key then Some(b') else Lookup(t, key)
  {
  }

  lemma {:induction false} SweepOnEachKey(t: Table, age: real, now: real, key: Key)
    ensures Lookup(AfterSweep(t, age, now), key) == Swept(Lookup(t, key), age, now)
  {
  }

  lemma {:induction false} ForgettingChangesNoAnswer(
      kept: Option<Bucket>, seen: Option<Bucket>, l: Limits, events: seq<Event>, key: Key, clock: real, idle: real)
    requires l.Positive() && RefillsWithin(l, idle)
    requires ClockFrom(events, clock) && CostsNonNegative(events)
    requires WithinLimits(kept, l) && SameOrForgotten(kept, seen, clock, idle)
    ensures RunKey(seen, l, events, key, Some(idle)) == RunKey(kept, l, events, key, None)
    decreases |events|
  {
    if events != [] {
      var rest := events[1..];
      match events[0]
      case Acquire(k, cost, now) =>
        assert events[0] in events;
        if k == key {
          IdleIsPositive(l, idle);
          ForgettingIsInvisibleToACall(kept, seen, l, cost, now, clock, idle);
          BalanceStaysWithinLimits(kept, l, cost, now);
          var b := Spend(kept, l, cost, now).0;
          ForgettingChangesNoAnswer(Some(b), Some(b), l, rest, key, now, idle);
        } else {
          ForgettingChangesNoAnswer(kept, seen, l, rest, key, now, idle);
        }
      case Sweep(now) =>
        ForgettingChangesNoAnswer(kept, Swept(seen, idle, now), l, rest, key, now, idle);
    }
  }

  lemma {:induction false} IdleIsPositive(l: Limits, idle: real)
    requires l.Positive() && RefillsWithin(l, idle)
    ensures idle > 0.0
  {
    assert idle * l.refill > 0.0;
  }

  /** Main result: a key whose bucket refills within the sweep age is answered, in every
      run over every key of the limiter, exactly as if nothing were ever swept; the other
      keys may refill as slowly as they like. */
  lemma {:induction false} SweepsAreInvisible(config: Key -> Limits, events: seq<Event>, clock: real, idle: real, key: Key)
    requires forall k :: config(k).Positive()
    requires RefillsWithin(config(key), idle)
    requires ClockFrom(events, clock) && CostsNonNegative(events)
    ensures AnswersTo(events, RunEvents(map[], config, events, Some(idle)), key)
         == AnswersTo(events, RunEvents(map[], config, events, None), key)
  {
    KeysAreIndependent(map[], config, events, key, Some(idle));
    KeysAreIndependent(map[], config, events, key, None);
    ForgettingChangesNoAnswer(None, None, config(key), events, key, clock, idle);
  }

  /** A drained bucket, swept once it is old enough, refilled by being forgotten. */
  function ForgetfulRun(l: Limits, idle: real, key: Key): seq<Event> {
    var wait := Max(0.0, idle);
    [Acquire(key, l.capacity, 0.0), Sweep(wait), Acquire(key, l.capacity, wait)]
  }

  lemma {:induction false} ForgetfulRunDiffers(config: Key -> Limits, idle: real, key: Key)
    requires forall k :: config(k).Positive()
    requires !RefillsWithin(config(key), idle)
    ensures var events := ForgetfulRun(config(key), idle, key);
            && ClockFrom(events, 0.0) && CostsNonNegative(events)
            && AnswersTo(events, RunEvents(map[], config, events, Some(idle)), key)
               != AnswersTo(events, RunEvents(map[], config, events, None), key)
  {
    var l, events, wait := config(key), ForgetfulRun(config(key), idle, key), Max(0.0, idle);
    KeysAreIndependent(map[], config, events, key, Some(idle));
    KeysAreIndependent(map[], config, events, key, None);
    var tail, last := events[1..], events[1..][1..];
    assert tail == [Sweep(wait), Acquire(key, l.capacity, wait)] && last == [Acquire(key, l.capacity, wait)];
    assert last[1..] == [] && ClockFrom(last, wait) && ClockFrom(tail, 0.0);
    var drained := Bucket(0.0, 0.0, 0.0);
    assert Spend(None, l, l.capacity, 0.0) == (drained, Outcome(true, 0.0, 0.0));
    assert Swept(Some(drained), idle, wait) == None;
    assert wait * l.refill < l.capacity;
    assert Refilled(Some(drained), l, wait) == wait * l.refill;
    assert Refilled(None, l, wait) == l.capacity;
    assert RunKey(Some(drained), l, tail, key, None) == RunKey(Some(drained), l, last, key, None);
    assert RunKey(Some(drained), l, tail, key, Some(idle)) == RunKey(None, l, last, key, Some(idle));
    assert RunKey(None, l, events, key, Some(idle))[1].allowed;
    assert !RunKey(None, l, events, key, None)[1].allowed;
  }

  /** Exactly when a key is out of the sweep's reach: in whatever table it lives, all its
      answers are the same with and without sweeps in every run from an empty table, if and
      only if the sweep age is long enough to refill its bucket. */
  lemma {:induction false} SweepInvisibleIff(config: Key -> Limits, idle: real, key: Key)
    requires forall k :: config(k).Positive()
    ensures RefillsWithin(config(key), idle) <==>
            forall events :: ClockFrom(events, 0.0) && CostsNonNegative(events) ==>
              AnswersTo(events, RunEvents(map[], config, events, Some(idle)), key)
              == AnswersTo(events, RunEvents(map[], config, events, None), key)
  {
    if RefillsWithin(config(key), idle) {
      forall events | ClockFrom(events, 0.0) && CostsNonNegative(events)
        ensures AnswersTo(events, RunEvents(map[], config, events, Some(idle)), key)
             == AnswersTo(events, RunEvents(map[], config, events, None), key)
      {
        SweepsAreInvisible(config, events, 0.0, idle, key);
      }
    } else {
      ForgetfulRunDiffers(config, idle, key);
      var events := ForgetfulRun(config(key), idle, key);
      assert ClockFrom(events, 0.0) && CostsNonNegative(events);
    }
  }

  // ---------------------------------------------------------------- what a key gets under any sweep

  /** The rate at which tokens really come back when idle buckets are forgotten. */
  function EffectiveRate(l: Limits, idle: real): real
    requires idle > 0.0
  {
    Max(l.refill, l.capacity / idle)
  }

  /** The most the next call, at `now`, could find. */
  function Allowance(b: Option<Bucket>, l: Limits, rate: real, now: real): real {
    if b.None? then l.capacity
    else Min(l.capacity, b.value.tokens + Accrued(b.value.lastAccess, now, rate))
  }

  function Accrued(from: real, to: real, rate: real): real { Max(0.0, to - from) * rate }

  /** The refill decides the effective rate exactly when the bucket refills within the age. */
  lemma {:induction false} RateBetween(l: Limits, idle: real)
    requires idle > 0.0
    ensures (l.capacity / idle) * idle == l.capacity
    ensures RefillsWithin(l, idle) ==> EffectiveRate(l, idle) == l.refill
    ensures !RefillsWithin(l, idle) ==> EffectiveRate(l, idle) == l.capacity / idle
  {
    var perAge := l.capacity / idle;
    assert perAge * idle == l.capacity && l.refill * idle == idle * l.refill;
    if RefillsWithin(l, idle) {
      ProductCancel(l.refill, perAge, idle);
    } else {
      ProductCancel(perAge, l.refill, idle);
    }
  }

  /** What a rate brings in between the first and the last of the calls. */
  function Earned(rate: real, calls: seq<Call>): real { rate * ForwardTime(calls) }

  lemma {:induction false} EarnedOneMore(rate: real, calls: seq<Call>)
    ensures |calls| < 2 ==> Earned(rate, calls) == 0.0
    ensures |calls| >= 2 ==>
              Earned(rate, calls) == Accrued(calls[0].now, calls[1].now, rate) + Earned(rate, calls[1..])
  {
    if |calls| >= 2 {
      Distribute(rate, Max(0.0, calls[1].now - calls[0].now), ForwardTime(calls[1..]));
    }
  }

  predicate Settled(b: Option<Bucket>, clock: real) {
    b.Some? ==> b.value.tokens >= 0.0 && b.value.lastRefill == b.value.lastAccess <= clock
  }

  lemma {:induction false} RateCoversForgetting(b: Option<Bucket>, l: Limits, idle: real, swept: real, now: real)
    requires l.Positive() && idle > 0.0 && swept <= now && Settled(b, swept)
    ensures Allowance(Swept(b, idle, swept), l, EffectiveRate(l, idle), now) <= Allowance(b, l, EffectiveRate(l, idle), now)
  {
    if b.Some? && swept - b.value.lastAccess >= idle {
      var rate, gap := EffectiveRate(l, idle), now - b.value.lastAccess;
      assert (l.capacity / idle) * idle == l.capacity;
      ProductMonotone(l.capacity / idle, rate, idle);
      assert rate >= 0.0;
      assert gap * rate >= idle * rate by {
        assert (gap - idle) * rate >= 0.0;
      }
    }
  }

  lemma {:induction false} RateCoversRefill(b: Option<Bucket>, l: Limits, rate: real, now: real)
    requires l.Positive() && rate >= l.refill && Settled(b, now)
    ensures 0.0 <= Refilled(b, l, now) <= Allowance(b, l, rate, now)
  {
    if b.Some? {
      var gap := now - b.value.lastAccess;
      assert gap * l.refill >= 0.0;
      assert gap * (rate - l.refill) >= 0.0;
    }
  }

  lemma {:induction false} GrantedWithin(
      b: Option<Bucket>, l: Limits, events: seq<Event>, key: Key, clock: real, idle: real)
    requires l.Positive() && idle > 0.0
    requires ClockFrom(events, clock) && CostsNonNegative(events) && Settled(b, clock)
    ensures var calls := CallsOn(events, key);
            calls != [] ==>
              && clock <= calls[0].now
              && Granted(calls, RunKey(b, l, events, key, Some(idle)))
                 <= Allowance(b, l, EffectiveRate(l, idle), calls[0].now) + Earned(EffectiveRate(l, idle), calls)
    decreases |events|
  {
    if events != [] {
      var rest, rate, calls := events[1..], EffectiveRate(l, idle), CallsOn(events, key);
      match events[0]
      case Acquire(k, cost, now) =>
        assert events[0] in events;
        if k != key {
          GrantedWithin(b, l, rest, key, now, idle);
          assert calls == CallsOn(rest, key);
        } else {
          RateCoversRefill(b, l, rate, now);
          var after := Spend(b, l, cost, now).0;
          GrantedWithin(Some(after), l, rest, key, now, idle);
          assert calls[1..] == CallsOn(rest, key);
          assert RunKey(b, l, events, key, Some(idle))[1..] == RunKey(Some(after), l, rest, key, Some(idle));
          GrantedOneMore(b, l, rate, calls, RunKey(b, l, events, key, Some(idle)));
        }
      case Sweep(now) =>
        GrantedWithin(Swept(b, idle, now), l, rest, key, now, idle);
        assert calls == CallsOn(rest, key);
        if calls != [] {
          RateCoversForgetting(b, l, idle, now, calls[0].now);
        }
    }
  }

  lemma {:induction false} GrantedOneMore(b: Option<Bucket>, l: Limits, rate: real, calls: seq<Call>, answers: seq<Outcome>)
    requires l.Positive() && |calls| == |answers| > 0
    requires answers[0] == Spend(b, l, calls[0].cost, calls[0].now).1
    requires |calls| > 1 ==>
               Granted(calls[1..], answers[1..])
               <= Allowance(Some(Spend(b, l, calls[0].cost, calls[0].now).0), l, rate, calls[1].now) + Earned(rate, calls[1..])
    requires Spend(b, l, calls[0].cost, calls[0].now).0.tokens >= 0.0
    ensures Granted(calls, answers) <= Refilled(b, l, calls[0].now) + Earned(rate, calls)
  {
    var after := Spend(b, l, calls[0].cost, calls[0].now).0;
    var spent := if answers[0].allowed then calls[0].cost else 0.0;
    assert spent + after.tokens == Refilled(b, l, calls[0].now);
    EarnedOneMore(rate, calls);
    assert |calls| == 1 ==> Granted(calls[1..], answers[1..]) == 0.0;
  }

  /** Main result: in every run over any keys, under any sweep age, a key is granted at most
      its capacity plus its effective rate over its own span: the refill, or one capacity per
      sweep age where that is more. */
  lemma {:induction false} GrantBoundUnderSweeps(config: Key -> Limits, events: seq<Event>, clock: real, idle: real, key: Key)
    requires forall k :: config(k).Positive()
    requires idle > 0.0 && ClockFrom(events, clock) && CostsNonNegative(events)
    ensures var calls := CallsOn(events, key);
            Granted(calls, AnswersTo(events, RunEvents(map[], config, events, Some(idle)), key))
            <= config(key).capacity + EffectiveRate(config(key), idle) * ForwardTime(calls)
  {
    KeysAreIndependent(map[], config, events, key, Some(idle));
    GrantedWithin(None, config(key), events, key, clock, idle);
    EarnedOneMore(EffectiveRate(config(key), idle), CallsOn(events, key));
  }

  /** For a key that refills within the sweep age the bound is the one without sweeps. */
  lemma {:induction false} RunBoundWithSweeps(config: Key -> Limits, events: seq<Event>, clock: real, idle: real, key: Key)
    requires forall k :: config(k).Positive()
    requires RefillsWithin(config(key), idle) && ClockFrom(events, clock) && CostsNonNegative(events)
    ensures var calls := CallsOn(events, key);
            Granted(calls, AnswersTo(events, RunEvents(map[], config, events, Some(idle)), key))
            <= config(key).capacity + config(key).refill * ForwardTime(calls)
  {
    IdleIsPositive(config(key), idle);
    GrantBoundUnderSweeps(config, events, clock, idle, key);
    var l := config(key);
    RateBetween(l, idle);
  }

  /** Drain, be forgotten, drain again: `n` times over. */
  function DrainingRun(l: Limits, idle: real, key: Key, start: real, n: nat): seq<Event>
    decreases n
  {
    if n == 0 then [Acquire(key, l.capacity, start)]
    else Drain(l, idle, key, start) + DrainingRun(l, idle, key, start + idle, n - 1)
  }

  function Drain(l: Limits, idle: real, key: Key, start: real): seq<Event> {
    [Acquire(key, l.capacity, start), Sweep(start + idle)]
  }

  lemma {:induction false} DrainTail(l: Limits, idle: real, key: Key, start: real, rest: seq<Event>)
    ensures var events := Drain(l, idle, key, start) + rest;
            && events[0] == Acquire(key, l.capacity, start) && events[1] == Sweep(start + idle)
            && events[1..] == [Sweep(start + idle)] + rest && events[1..][1..] == rest
  {
  }

  lemma {:induction false} OneDrain(l: Limits, idle: real, key: Key, start: real, rest: seq<Event>)
    requires l.Positive() && idle > 0.0
    ensures var events := Drain(l, idle, key, start) + rest;
            && CallsOn(events, key) == [Call(l.capacity, start)] + CallsOn(rest, key)
            && (ClockFrom(rest, start + idle) ==> ClockFrom(events, start))
  {
    var events := Drain(l, idle, key, start) + rest;
    DrainTail(l, idle, key, start, rest);
    assert CallsOn(events[1..], key) == CallsOn(rest, key);
    assert ClockFrom(rest, start + idle) ==> ClockFrom(events[1..], start);
  }

  lemma {:induction false} OneDrainCosts(l: Limits, idle: real, key: Key, start: real, rest: seq<Event>)
    requires l.Positive() && CostsNonNegative(rest)
    ensures CostsNonNegative(Drain(l, idle, key, start) + rest)
  {
  }

  lemma {:induction false} OneDrainGranted(l: Limits, idle: real, key: Key, start: real, rest: seq<Event>)
    requires l.Positive() && idle > 0.0
    ensures RunKey(None, l, Drain(l, idle, key, start) + rest, key, Some(idle))
         == [Outcome(true, 0.0, 0.0)] + RunKey(None, l, rest, key, Some(idle))
  {
    var events := Drain(l, idle, key, start) + rest;
    var after := Spend(None, l, l.capacity, start).0;
    DrainTail(l, idle, key, start, rest);
    assert Swept(Some(after), idle, start + idle) == None;
    assert RunKey(Some(after), l, events[1..], key, Some(idle)) == RunKey(None, l, rest, key, Some(idle));
  }

  lemma {:induction false} LastDrain(l: Limits, idle: real, key: Key, start: real)
    requires l.Positive() && idle > 0.0
    ensures var events := DrainingRun(l, idle, key, start, 0);
            && ClockFrom(events, start) && CostsNonNegative(events) && CallsOn(events, key) == [Call(l.capacity, start)]
            && Granted(CallsOn(events, key), RunKey(None, l, events, key, Some(idle))) == l.capacity
  {
    var events := DrainingRun(l, idle, key, start, 0);
    assert events[1..] == [] && CallsOn(events, key)[1..] == [];
  }

  lemma {:induction false} DrainingCosts(l: Limits, idle: real, key: Key, start: real, n: nat)
    requires l.Positive()
    ensures CostsNonNegative(DrainingRun(l, idle, key, start, n))
    decreases n
  {
    if n > 0 {
      DrainingCosts(l, idle, key, start + idle, n - 1);
      OneDrainCosts(l, idle, key, start, DrainingRun(l, idle, key, start + idle, n - 1));
    }
  }

  lemma {:induction false} DrainingClock(l: Limits, idle: real, key: Key, start: real, n: nat)
    requires l.Positive() && idle > 0.0
    ensures ClockFrom(DrainingRun(l, idle, key, start, n), start)
    decreases n
  {
    if n == 0 {
      LastDrain(l, idle, key, start);
    } else {
      DrainingClock(l, idle, key, start + idle, n - 1);
      OneDrain(l, idle, key, start, DrainingRun(l, idle, key, start + idle, n - 1));
    }
  }

  lemma {:induction false} DrainingCalls(l: Limits, idle: real, key: Key, start: real, n: nat)
    requires l.Positive() && idle > 0.0
    ensures CallsOn(DrainingRun(l, idle, key, start, n), key)
         == [Call(l.capacity, start)]
            + (if n == 0 then [] else CallsOn(DrainingRun(l, idle, key, start + idle, n - 1), key))
  {
    if n == 0 {
      LastDrain(l, idle, key, start);
    } else {
      OneDrain(l, idle, key, start, DrainingRun(l, idle, key, start + idle, n - 1));
    }
  }

  function Multiple(n: nat, x: real): real { n as real * x }

  lemma {:induction false} OneMore(n: nat, x: real)
    requires n > 0
    ensures Multiple(n, x) == x + Multiple(n - 1, x)
  {
    assert n as real == (n - 1) as real + 1.0;
  }

  lemma {:induction false} DrainingRunSpan(l: Limits, idle: real, key: Key, start: real, n: nat)
    requires l.Positive() && idle > 0.0
    ensures ForwardTime(CallsOn(DrainingRun(l, idle, key, start, n), key)) == Multiple(n, idle)
    decreases n
  {
    DrainingCalls(l, idle, key, start, n);
    if n > 0 {
      DrainingRunSpan(l, idle, key, start + idle, n - 1);
      DrainingCalls(l, idle, key, start + idle, n - 1);
      SpanOneMore(Call(l.capacity, start), CallsOn(DrainingRun(l, idle, key, start + idle, n - 1), key), idle, n);
    } else {
      SpanOfOne(Call(l.capacity, start), idle);
    }
  }

  lemma {:induction false} SpanOfOne(call: Call, idle: real)
    ensures [call] + [] == [call] && ForwardTime([call]) == Multiple(0, idle)
  {
  }

  lemma {:induction false} SpanOneMore(first: Call, calls: seq<Call>, idle: real, n: nat)
    requires n > 0 && idle >= 0.0 && calls != [] && calls[0].now == first.now + idle
    requires ForwardTime(calls) == Multiple(n - 1, idle)
    ensures ForwardTime([first] + calls) == Multiple(n, idle)
  {
    assert ([first] + calls)[1..] == calls;
    OneMore(n, idle);
  }

  lemma {:induction false} DrainingRunGrantsAll(l: Limits, idle: real, key: Key, start: real, n: nat)
    requires l.Positive() && idle > 0.0
    ensures var events := DrainingRun(l, idle, key, start, n);
            Granted(CallsOn(events, key), RunKey(None, l, events, key, Some(idle))) == l.capacity + Multiple(n, l.capacity)
    decreases n
  {
    if n == 0 {
      LastDrain(l, idle, key, start);
    } else {
      var rest := DrainingRun(l, idle, key, start + idle, n - 1);
      var answers := RunKey(None, l, rest, key, Some(idle));
      DrainingRunGrantsAll(l, idle, key, start + idle, n - 1);
      OneDrain(l, idle, key, start, rest);
      OneDrainGranted(l, idle, key, start, rest);
      GrantedFirst(Call(l.capacity, start), Outcome(true, 0.0, 0.0), CallsOn(rest, key), answers);
      OneMore(n, l.capacity);
    }
  }

  /** The bound is reached, over any number of sweep ages, by a key that does not refill in one. */
  lemma {:induction false} SweptBoundIsTight(config: Key -> Limits, idle: real, key: Key, n: nat)
    requires forall k :: config(k).Positive()
    requires idle > 0.0 && !RefillsWithin(config(key), idle)
    ensures var events := DrainingRun(config(key), idle, key, 0.0, n);
            var calls := CallsOn(events, key);
            && ClockFrom(events, 0.0) && CostsNonNegative(events)
            && Granted(calls, AnswersTo(events, RunEvents(map[], config, events, Some(idle)), key))
               == config(key).capacity + EffectiveRate(config(key), idle) * ForwardTime(calls)
  {
    var l, events := config(key), DrainingRun(config(key), idle, key, 0.0, n);
    KeysAreIndependent(map[], config, events, key, Some(idle));
    DrainingClock(l, idle, key, 0.0, n);
    DrainingCosts(l, idle, key, 0.0, n);
    DrainingRunSpan(l, idle, key, 0.0, n);
    DrainingRunGrantsAll(l, idle, key, 0.0, n);
    var perAge := l.capacity / idle;
    RateBetween(l, idle);
    Spread(perAge, idle, n as real);
  }

  lemma {:induction false} Spread(rate: real, idle: real, n: real)
    ensures rate * (n * idle) == n * (rate * idle)
  {
  }

  // ---------------------------------------------------------------- the gateway's buckets

  const EVICTION_INACTIVE_SECONDS: real := 300.0
  const ADMISSION_GLOBAL_KEY: Key := "admission:global"

  function ClientLimits(perHour: real, burst: real): Limits { Limits(perHour + burst, perHour / 3600.0) }
  function GlobalLimits(perMinute: real): Limits { Limits(perMinute, perMinute / 60.0) }

  /** The one limiter that holds the deployment-wide bucket and every client's. */
  function Gateway(perHour: real, burst: real, perMinute: real): Key -> Limits {
    key => if key == ADMISSION_GLOBAL_KEY then GlobalLimits(perMinute) else ClientLimits(perHour, burst)
  }

  lemma {:induction false} GatewayRefills(perHour: real, burst: real, perMinute: real)
    requires perHour > 0.0 && burst >= 0.0 && perMinute > 0.0
    ensures RefillsWithin(GlobalLimits(perMinute), EVICTION_INACTIVE_SECONDS)
    ensures !RefillsWithin(ClientLimits(perHour, burst), EVICTION_INACTIVE_SECONDS)
  {
  }

  /** Main result, over every run of the gateway's one limiter: the sweep changes no answer of
      the deployment-wide bucket, while every client can run into an answer it changes. */
  lemma {:induction false} GatewaySweepForgetsClients(perHour: real, burst: real, perMinute: real, client: Key)
    requires perHour > 0.0 && burst >= 0.0 && perMinute > 0.0 && client != ADMISSION_GLOBAL_KEY
    ensures var config, age := Gateway(perHour, burst, perMinute), Some(EVICTION_INACTIVE_SECONDS);
            && (forall k :: config(k).Positive())
            && (forall events :: ClockFrom(events, 0.0) && CostsNonNegative(events) ==>
                  AnswersTo(events, RunEvents(map[], config, events, age), ADMISSION_GLOBAL_KEY)
                  == AnswersTo(events, RunEvents(map[], config, events, None), ADMISSION_GLOBAL_KEY))
            && exists events :: ClockFrom(events, 0.0) && CostsNonNegative(events)
                 && AnswersTo(events, RunEvents(map[], config, events, age), client)
                    != AnswersTo(events, RunEvents(map[], config, events, None), client)
  {
    var config := Gateway(perHour, burst, perMinute);
    GatewayRefills(perHour, burst, perMinute);
    SweepInvisibleIff(config, EVICTION_INACTIVE_SECONDS, ADMISSION_GLOBAL_KEY);
    SweepInvisibleIff(config, EVICTION_INACTIVE_SECONDS, client);
  }

  /** What a client of the gateway really gets: its capacity at once, and again every sweep
      age, twelve times an hour, in place of the configured hourly rate. */
  lemma {:induction false} GatewayClientBound(
      perHour: real, burst: real, perMinute: real, events: seq<Event>, client: Key)
    requires perHour > 0.0 && burst >= 0.0 && perMinute > 0.0 && client != ADMISSION_GLOBAL_KEY
    requires ClockFrom(events, 0.0) && CostsNonNegative(events)
    ensures forall k :: Gateway(perHour, burst, perMinute)(k).Positive()
    ensures var config, calls := Gateway(perHour, burst, perMinute), CallsOn(events, client);
            Granted(calls, AnswersTo(events, RunEvents(map[], config, events, Some(EVICTION_INACTIVE_SECONDS)), client))
            <= (perHour + burst) * (1.0 + ForwardTime(calls) / EVICTION_INACTIVE_SECONDS)
  {
    var calls := CallsOn(events, client);
    GatewayRefills(perHour, burst, perMinute);
    GrantBoundUnderSweeps(Gateway(perHour, burst, perMinute), events, 0.0, EVICTION_INACTIVE_SECONDS, client);
    ClientRate(perHour, burst, perMinute, ForwardTime(calls));
  }

  lemma {:induction false} ClientRate(perHour: real, burst: real, perMinute: real, time: real)
    requires perHour > 0.0 && burst >= 0.0 && perMinute > 0.0
    ensures var l := ClientLimits(perHour, burst);
            l.capacity + EffectiveRate(l, EVICTION_INACTIVE_SECONDS) * time
            == (perHour + burst) * (1.0 + time / EVICTION_INACTIVE_SECONDS)
  {
    RateBetween(ClientLimits(perHour, burst), EVICTION_INACTIVE_SECONDS);
    GatewayRefills(perHour, burst, perMinute);
    PerAge(perHour + burst, time);
  }

  lemma {:induction false} PerAge(x: real, time: real)
    ensures x + x / EVICTION_INACTIVE_SECONDS * time == x * (1.0 + time / EVICTION_INACTIVE_SECONDS)
  {
  }
}
