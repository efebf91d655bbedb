/**
 The token bucket shared by both rate-limiter backends.

 One call refills the bucket from the clock, then spends or refuses. `Spend` is
 that call on one bucket; the in-memory limiter and the Redis script are proved
 against it elsewhere. Tokens and seconds are exact reals.
 */
module TokenBuckets {
  import opened Common
  import opened Maths

  datatype Bucket = Bucket(tokens: real, lastRefill: real, lastAccess: real)

  datatype Limits = Limits(capacity: real, refill: real) {
    predicate Positive() { capacity > 0.0 && refill > 0.0 }
  }

  datatype Outcome = Outcome(allowed: bool, remaining: real, retryAfter: real)

  datatype LimitError = NonPositiveLimits

  function Refilled(b: Option<Bucket>, l: Limits, now: real): real {
    match b
    case None => l.capacity
    case Some(k) => Min(l.capacity, k.tokens + Max(0.0, now - k.lastRefill) * l.refill)
  }

  function Spend(b: Option<Bucket>, l: Limits, cost: real, now: real): (Bucket, Outcome)
    requires l.Positive()
  {
    var tokens := Refilled(b, l, now);
    if tokens >= cost then
      (Bucket(tokens - cost, now, now), Outcome(true, tokens - cost, 0.0))
    else
      (Bucket(tokens, now, now), Outcome(false, tokens, (cost - tokens) / l.refill))
  }

  /** What every stored bucket satisfies, given callers that spend non-negative costs. */
  predicate WithinLimits(b: Option<Bucket>, l: Limits) {
    b.Some? ==> 0.0 <= b.value.tokens <= l.capacity && b.value.lastRefill == b.value.lastAccess
  }

  // ---------------------------------------------------------------- runs

  datatype Call = Call(cost: real, now: real)

  function RunCalls(b: Option<Bucket>, l: Limits, calls: seq<Call>): (r: (Option<Bucket>, seq<Outcome>))
    requires l.Positive()
    ensures |r.1| == |calls|
    decreases |calls|
  {
    if calls == [] then (b, [])
    else
      var first := Spend(b, l, calls[0].cost, calls[0].now);
      var rest := RunCalls(Some(first.0), l, calls[1..]);
      (rest.0, [first.1] + rest.1)
  }

  /** The total cost of the calls that were allowed. */
  function Granted(calls: seq<Call>, outcomes: seq<Outcome>): real
    requires |calls| == |outcomes|
  {
    if calls == [] then 0.0
    else (if outcomes[0].allowed then calls[0].cost else 0.0) + Granted(calls[1..], outcomes[1..])
  }

  /** The forward clock movement between consecutive calls; a clock that steps back adds nothing. */
  function ForwardTime(calls: seq<Call>): real {
    if |calls| < 2 then 0.0
    else Max(0.0, calls[1].now - calls[0].now) + ForwardTime(calls[1..])
  }

  function Gain(l: Limits, from: real, to: real): real { Max(0.0, to - from) * l.refill }

  /** The tokens the clock adds between the calls, before any capping. */
  function Refill(l: Limits, calls: seq<Call>): real {
    if |calls| < 2 then 0.0
    else Gain(l, calls[0].now, calls[1].now) + Refill(l, calls[1..])
  }

  lemma {:induction false} RefillOfForwardTime(l: Limits, calls: seq<Call>)
    ensures Refill(l, calls) == l.refill * ForwardTime(calls)
  {
    if |calls| >= 2 {
      RefillOfForwardTime(l, calls[1..]);
      Distribute(l.refill, Max(0.0, calls[1].now - calls[0].now), ForwardTime(calls[1..]));
    }
  }

  lemma {:induction false} Distribute(r: real, a: real, b: real)
    ensures r * (a + b) == a * r + r * b
  {
  }

  lemma {:induction false} SpendBalances(b: Option<Bucket>, l: Limits, call: Call)
    requires l.Positive()
    requires b.Some? ==> b.value.tokens >= 0.0
    ensures var (left, outcome) := Spend(b, l, call.cost, call.now);
            && left.tokens >= 0.0
            && left.tokens + (if outcome.allowed then call.cost else 0.0) == Refilled(b, l, call.now)
  {
    RefilledNonNegative(b, l, call.now);
  }

  /** The answer tells the balance that is left, and asks for a wait only when it refuses. */
  lemma {:induction false} AnswerTellsBalance(b: Option<Bucket>, l: Limits, cost: real, now: real)
    requires l.Positive()
    ensures var (left, outcome) := Spend(b, l, cost, now);
            && outcome.remaining == left.tokens && left.lastRefill == left.lastAccess == now
            && (outcome.allowed ==> outcome.retryAfter == 0.0)
            && (outcome.allowed <==> cost <= (if b.None? then l.capacity else
                  Min(l.capacity, b.value.tokens + Max(0.0, now - b.value.lastRefill) * l.refill)))
  {
  }

  /** What is spent and what is left together never exceed the opening balance plus the refill. */
  lemma {:induction false} Balance(b: Option<Bucket>, l: Limits, calls: seq<Call>)
    requires l.Positive() && |calls| > 0
    requires b.Some? ==> b.value.tokens >= 0.0
    ensures var (end, outcomes) := RunCalls(b, l, calls);
            && end.Some? && end.value.tokens >= 0.0
            && Granted(calls, outcomes) + end.value.tokens <= Refilled(b, l, calls[0].now) + Refill(l, calls)
    decreases |calls|
  {
    var call, rest := calls[0], calls[1..];
    assert calls == [call] + rest;
    SpendBalances(b, l, call);
    RunFirst(b, l, call, rest);
    GrantedFirst(call, Spend(b, l, call.cost, call.now).1, rest, RunCalls(Some(Spend(b, l, call.cost, call.now).0), l, rest).1);
    if rest == [] {
      RefillOne(l, call);
    } else {
      var left := Spend(b, l, call.cost, call.now).0;
      Balance(Some(left), l, rest);
      RefillFirst(l, call, rest);
      RefilledAtMost(left, l, rest[0].now);
    }
  }

  lemma {:induction false} RunFirst(b: Option<Bucket>, l: Limits, call: Call, rest: seq<Call>)
    requires l.Positive()
    ensures var (left, outcome) := Spend(b, l, call.cost, call.now);
            && left.lastRefill == call.now
            && RunCalls(b, l, [call] + rest).0 == RunCalls(Some(left), l, rest).0
            && RunCalls(b, l, [call] + rest).1 == [outcome] + RunCalls(Some(left), l, rest).1
            && (rest == [] ==> RunCalls(Some(left), l, rest) == (Some(left), []))
  {
    assert ([call] + rest)[1..] == rest;
  }

  lemma {:induction false} RefillOne(l: Limits, call: Call)
    ensures Refill(l, [call]) == 0.0 && Granted([], []) == 0.0
  {
  }

  lemma {:induction false} RefillFirst(l: Limits, call: Call, rest: seq<Call>)
    requires rest != []
    ensures Refill(l, [call] + rest) == Gain(l, call.now, rest[0].now) + Refill(l, rest)
  {
    assert ([call] + rest)[1..] == rest;
  }

  lemma {:induction false} GrantedFirst(call: Call, answer: Outcome, calls: seq<Call>, answers: seq<Outcome>)
    requires |calls| == |answers|
    ensures Granted([call] + calls, [answer] + answers) == (if answer.allowed then call.cost else 0.0) + Granted(calls, answers)
  {
    assert ([call] + calls)[1..] == calls && ([answer] + answers)[1..] == answers;
  }

  lemma {:induction false} RefilledAtMost(b: Bucket, l: Limits, now: real)
    ensures Refilled(Some(b), l, now) <= b.tokens + Gain(l, b.lastRefill, now)
  {
  }

  lemma {:induction false} RefilledNonNegative(b: Option<Bucket>, l: Limits, now: real)
    requires l.Positive()
    requires b.Some? ==> b.value.tokens >= 0.0
    ensures 0.0 <= Refilled(b, l, now) <= l.capacity
  {
    if b.Some? {
      assert Max(0.0, now - b.value.lastRefill) * l.refill >= 0.0;
    }
  }

  /** Main result: no contiguous run of calls on one key is granted more than
      `capacity + refill * (forward clock movement inside the run)`, whatever the
      bucket held before, whatever the costs, and whichever way the clock steps. */
  lemma {:induction false} RunBound(b: Option<Bucket>, l: Limits, calls: seq<Call>)
    requires l.Positive()
    requires b.Some? ==> b.value.tokens >= 0.0
    ensures Granted(calls, RunCalls(b, l, calls).1) <= l.capacity + l.refill * ForwardTime(calls)
  {
    RefillOfForwardTime(l, calls);
    if calls != [] {
      Balance(b, l, calls);
      RefilledNonNegative(b, l, calls[0].now);
    }
  }

  /** The bound is reached: a full bucket drained, then drained again after any wait
      no longer than a full refill, grants exactly capacity plus the refill of that wait. */
  lemma {:induction false} RunBoundIsTight(l: Limits, start: real, wait: real)
    requires l.Positive() && 0.0 <= wait && wait * l.refill <= l.capacity
    ensures var calls := [Call(l.capacity, start), Call(wait * l.refill, start + wait)];
            Granted(calls, RunCalls(None, l, calls).1) == l.capacity + l.refill * ForwardTime(calls)
  {
    var calls := [Call(l.capacity, start), Call(wait * l.refill, start + wait)];
    var first := Spend(None, l, l.capacity, start);
    assert calls[1..] == [Call(wait * l.refill, start + wait)];
    var second := Spend(Some(first.0), l, wait * l.refill, start + wait);
    assert first.1.allowed && first.0.tokens == 0.0;
    assert start + wait - start == wait;
    assert Refilled(Some(first.0), l, start + wait) == wait * l.refill;
    assert RunCalls(Some(second.0), l, calls[1..][1..]) == (Some(second.0), []);
    assert second.1.allowed;
    assert RunCalls(Some(first.0), l, calls[1..]).1 == [second.1];
    var outcomes := RunCalls(None, l, calls).1;
    assert outcomes == [first.1, second.1];
    assert outcomes[1..] == [second.1];
    assert Granted(calls[1..], outcomes[1..]) == wait * l.refill by {
      assert Granted(calls[1..][1..], outcomes[1..][1..]) == 0.0;
    }
    assert ForwardTime(calls) == wait;
  }

  /** Non-negative costs keep every stored balance within [0, capacity]; a negative
      cost on a full bucket leaves it above capacity, so the condition is exact. */
  lemma {:induction false} BalanceStaysWithinLimits(b: Option<Bucket>, l: Limits, cost: real, now: real)
    requires l.Positive() && WithinLimits(b, l)
    ensures cost >= 0.0 ==> WithinLimits(Some(Spend(b, l, cost, now).0), l)
    ensures cost < 0.0 ==> !WithinLimits(Some(Spend(None, l, cost, now).0), l)
  {
    RefilledNonNegative(b, l, now);
  }

  lemma {:induction false} RunStaysWithinLimits(b: Option<Bucket>, l: Limits, calls: seq<Call>)
    requires l.Positive() && WithinLimits(b, l)
    requires forall c :: c in calls ==> c.cost >= 0.0
    ensures WithinLimits(RunCalls(b, l, calls).0, l)
    ensures forall o :: o in RunCalls(b, l, calls).1 ==> 0.0 <= o.remaining <= l.capacity
    decreases |calls|
  {
    if calls != [] {
      BalanceStaysWithinLimits(b, l, calls[0].cost, calls[0].now);
      var first := Spend(b, l, calls[0].cost, calls[0].now);
      RunStaysWithinLimits(Some(first.0), l, calls[1..]);
    }
  }

  /** A refusal's `retryAfter` is exactly the least wait that would succeed when nobody
      else spends meanwhile; a cost above capacity succeeds after no wait, however long. */
  lemma {:induction false} RetryAfterIsExact(b: Option<Bucket>, l: Limits, cost: real, now: real, wait: real)
    requires l.Positive() && wait >= 0.0
    requires b.Some? ==> b.value.tokens >= 0.0
    requires !Spend(b, l, cost, now).1.allowed
    ensures var (left, refusal) := Spend(b, l, cost, now);
            && refusal.retryAfter > 0.0
            && (Spend(Some(left), l, cost, now + wait).1.allowed
                <==> cost <= l.capacity && wait >= refusal.retryAfter)
  {
    var (left, refusal) := Spend(b, l, cost, now);
    var deficit := cost - left.tokens;
    assert refusal.retryAfter * l.refill == deficit;
    QuotientCompare(deficit, l.refill, wait);
    assert now + wait - left.lastRefill == wait;
  }

  lemma {:induction false} QuotientCompare(n: real, d: real, x: real)
    requires d > 0.0
    ensures x * d >= n <==> x >= n / d
    ensures n > 0.0 ==> n / d > 0.0
  {
    var q := n / d;
    assert q * d == n;
    if x >= q {
      assert (x - q) * d >= 0.0;
    } else {
      assert (q - x) * d > 0.0;
    }
  }

  // ---------------------------------------------------------------- forgetting

  /** A bucket left alone for `idle` seconds is full again exactly when this holds. */
  predicate RefillsWithin(l: Limits, idle: real) { idle * l.refill >= l.capacity }

  /** What the key looks like after an optional eviction of an idle bucket. */
  predicate SameOrForgotten(kept: Option<Bucket>, seen: Option<Bucket>, clock: real, idle: real) {
    seen == kept || (seen == None && kept.Some? && clock - kept.value.lastAccess >= idle)
  }

  lemma {:induction false} ForgottenRefillsFull(kept: Bucket, l: Limits, now: real, idle: real)
    requires l.Positive() && RefillsWithin(l, idle)
    requires kept.tokens >= 0.0 && kept.lastRefill == kept.lastAccess
    requires idle >= 0.0 && now - kept.lastAccess >= idle
    ensures Refilled(Some(kept), l, now) == l.capacity
  {
    assert (now - kept.lastRefill) * l.refill >= idle * l.refill by {
      assert (now - kept.lastRefill - idle) * l.refill >= 0.0;
    }
  }

  /** One call answers alike, and stores the same bucket, whether or not the key was forgotten. */
  lemma {:induction false} ForgettingIsInvisibleToACall(kept: Option<Bucket>, seen: Option<Bucket>, l: Limits,
                                     cost: real, now: real, clock: real, idle: real)
    requires l.Positive() && RefillsWithin(l, idle) && idle >= 0.0
    requires WithinLimits(kept, l) && SameOrForgotten(kept, seen, clock, idle) && clock <= now
    ensures Spend(kept, l, cost, now) == Spend(seen, l, cost, now)
  {
    if seen != kept {
      ForgottenRefillsFull(kept.value, l, now, idle);
    }
  }
}
