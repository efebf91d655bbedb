/**
 The Redis limiter: four atomic scripts over one token hash and one sorted set of
 leases, Redis's own key expiry, the polling acquire, and the heartbeat.

 A script receives its caller's clock as an argument; Redis expires keys by the
 server's clock. `skew` bounds how far the two may differ.
 */
module RedisBackend {
  import opened Common
  import opened Maths
  import opened TokenBuckets

  // ---------------------------------------------------------------- token hash

  /** Whole seconds: `max(60, int(capacity / refill) * 4)`. */
  function TokenTtl(l: Limits): int
    requires l.Positive()
  {
    var scaled := (l.capacity / l.refill).Floor * 4;
    if scaled < 60 then 60 else scaled
  }

  /** The key's expiry never comes before an empty bucket would have refilled. */
  lemma {:induction false} TokenTtlRefills(l: Limits)
    requires l.Positive()
    ensures RefillsWithin(l, TokenTtl(l) as real)
  {
    TtlCovers(l.capacity / l.refill, TokenTtl(l));
    Refilled(l.capacity, l.refill, TokenTtl(l) as real);
  }

  lemma {:induction false} Refilled(capacity: real, refill: real, wait: real)
    requires capacity > 0.0 && refill > 0.0 && wait >= capacity / refill
    ensures wait * refill >= capacity
  {
    var q := capacity / refill;
    assert q * refill == capacity;
    assert (wait - q) * refill >= 0.0;
  }

  lemma {:induction false} TtlCovers(q: real, ttl: int)
    requires ttl >= 60 && ttl >= q.Floor * 4
    ensures ttl as real >= q
  {
    assert q < q.Floor as real + 1.0;
    if q >= 60.0 {
      assert (q.Floor * 4) as real >= q;
    }
  }

  class TokenHash {
    var fields: Option<(real, real)>   // tokens, last_refill
    var expiresAt: real

    /** The bucket a script running at `server` finds under the key. */
    function Stored(server: real): Option<Bucket>
      reads this
    {
      if fields.Some? && server < expiresAt
      then Some(Bucket(fields.value.0, fields.value.1, fields.value.1))
      else None
    }

    method Script(l: Limits, cost: real, now: real, ttl: int, server: real)
      returns (allowed: bool, tokens: real)
      requires l.Positive()
      modifies this
      ensures var (b, outcome) := Spend(old(Stored(server)), l, cost, now);
              && allowed == outcome.allowed && tokens == outcome.remaining
              && fields == Some((b.tokens, b.lastRefill)) && expiresAt == server + ttl as real
    {
      tokens := l.capacity;
      var lastRefill := now;
      if fields.Some? && server < expiresAt {
        tokens, lastRefill := fields.value.0, fields.value.1;
      }
      var elapsed := now - lastRefill;
      if elapsed < 0.0 {
        elapsed := 0.0;
      }
      tokens := Min(l.capacity, tokens + elapsed * l.refill);
      allowed := false;
      if tokens >= cost {
        tokens := tokens - cost;
        allowed := true;
      }
      fields := Some((tokens, now));
      expiresAt := server + ttl as real;
    }

    /** `now` is the caller's clock; the key expires by the server's. */
    method AcquireTokens(l: Limits, cost: real, now: real, server: real) returns (r: Result<Outcome, LimitError>)
      modifies this
      ensures !l.Positive() ==> r == Failure(NonPositiveLimits) && fields == old(fields) && expiresAt == old(expiresAt)
      ensures l.Positive() ==> r == Success(Spend(old(Stored(server)), l, cost, now).1)
      ensures l.Positive() ==> Stored(server) == Some(Spend(old(Stored(server)), l, cost, now).0)
      ensures l.Positive() ==> expiresAt == server + TokenTtl(l) as real
    {
      if l.capacity <= 0.0 || l.refill <= 0.0 {
        return Failure(NonPositiveLimits);
      }
      var ttl := TokenTtl(l);
      var allowed, remaining := Script(l, cost, now, ttl, server);
      if allowed {
        return Success(Outcome(true, remaining, 0.0));
      }
      var deficit := cost - remaining;
      return Success(Outcome(false, remaining, deficit / l.refill));
    }
  }

  /** A call by a process whose clock reads `now` when the server's reads `server`. */
  datatype TimedCall = TimedCall(cost: real, now: real, server: real)

  function Calls(calls: seq<TimedCall>): (r: seq<Call>)
    ensures |r| == |calls|
  {
    if calls == [] then [] else [Call(calls[0].cost, calls[0].now)] + Calls(calls[1..])
  }

  /** A run of calls in which Redis drops the key `ttl` seconds of its own clock after the key's
      last use, which was at `used`. */
  function RunExpiring(b: Option<Bucket>, used: real, l: Limits, calls: seq<TimedCall>, ttl: real): seq<Outcome>
    requires l.Positive()
    decreases |calls|
  {
    if calls == [] then []
    else
      var found := if b.Some? && calls[0].server >= used + ttl then None else b;
      var (b', outcome) := Spend(found, l, calls[0].cost, calls[0].now);
      [outcome] + RunExpiring(Some(b'), calls[0].server, l, calls[1..], ttl)
  }

  /** The TTL outlasts the refill from empty by 44 s, so clocks may be up to 22 s off. */
  const TTL_MARGIN: real := 44.0

  lemma {:induction false} TokenTtlMargin(l: Limits)
    requires l.Positive()
    ensures (TokenTtl(l) as real - TTL_MARGIN) * l.refill >= l.capacity
    ensures TokenTtl(l) as real <= Max(60.0, 4.0 * (l.capacity / l.refill))
  {
    var q := l.capacity / l.refill;
    assert q < q.Floor as real + 1.0;
    if q >= 16.0 {
      assert q.Floor >= 16;
    }
    Refilled(l.capacity, l.refill, TokenTtl(l) as real - TTL_MARGIN);
  }

  /** Main result: Redis's expiry changes no answer of any run of non-negative costs, though
      callers' clocks differ from the server's, and so from each other, by up to 22 s. */
  lemma {:induction false} TokenExpiryIsInvisible(b: Option<Bucket>, used: real, l: Limits, calls: seq<TimedCall>, skew: real)
    requires l.Positive() && WithinLimits(b, l) && 2.0 * skew <= TTL_MARGIN
    requires b.Some? ==> Abs(b.value.lastAccess - used) <= skew
    requires forall c :: c in calls ==> c.cost >= 0.0 && Abs(c.now - c.server) <= skew
    ensures RunExpiring(b, used, l, calls, TokenTtl(l) as real) == RunCalls(b, l, Calls(calls)).1
    decreases |calls|
  {
    if calls != [] {
      var ttl, now, idle := TokenTtl(l) as real, calls[0].now, TokenTtl(l) as real - TTL_MARGIN;
      assert calls[0] in calls;
      TokenTtlMargin(l);
      var found := if b.Some? && calls[0].server >= used + ttl then None else b;
      ForgettingIsInvisibleToACall(b, found, l, calls[0].cost, now, now, idle);
      BalanceStaysWithinLimits(b, l, calls[0].cost, now);
      TokenExpiryIsInvisible(Some(Spend(b, l, calls[0].cost, now).0), calls[0].server, l, calls[1..], skew);
      assert Calls(calls)[1..] == Calls(calls[1..]);
    }
  }

  // ---------------------------------------------------------------- lease set

  type LeaseId = string

  const LEASE_KEY_TTL_BUFFER: int := 5

  function Ceil(x: real): int { -((-x).Floor) }

  function LeaseKeyTtl(ttl: real): int { Ceil(ttl) + LEASE_KEY_TTL_BUFFER }

  /** The key outlives a lease by five to six seconds. */
  lemma {:induction false} KeyOutlivesLease(ttl: real)
    ensures ttl + 5.0 <= LeaseKeyTtl(ttl) as real < ttl + 6.0
  {
  }

  /** One sorted set: each lease's score, and when the server expires the whole key. */
  datatype LeaseSet = LeaseSet(scores: map<LeaseId, real>, expiresAt: real) {
    function Alive(server: real): map<LeaseId, real> {
      if server < expiresAt then scores else map[]
    }
  }

  function Swept(scores: map<LeaseId, real>, now: real): map<LeaseId, real> {
    map id | id in scores && scores[id] > now :: scores[id]
  }

  function AfterAcquire(k: LeaseSet, id: LeaseId, maximum: int, ttl: real, now: real, server: real): (LeaseSet, bool) {
    var left := Swept(k.Alive(server), now);
    if |left| < maximum
    then (LeaseSet(left[id := now + ttl], server + LeaseKeyTtl(ttl) as real), true)
    else (k.(scores := left), false)
  }

  function AfterRenew(k: LeaseSet, id: LeaseId, ttl: real, now: real, server: real): (LeaseSet, bool) {
    var found := k.Alive(server);
    if id in found
    then (LeaseSet(found[id := now + ttl], server + LeaseKeyTtl(ttl) as real), true)
    else (k.(scores := found), false)
  }

  function AfterRelease(k: LeaseSet, id: LeaseId, server: real): LeaseSet {
    k.(scores := k.Alive(server) - {id})
  }

  /** The Redis key itself, with the three lease scripts updating it in place. */
  class LeaseKey {
    var scores: map<LeaseId, real>
    var expiresAt: real

    function State(): LeaseSet
      reads this
    {
      LeaseSet(scores, expiresAt)
    }

    /** Redis drops an expired key before running a command on it. */
    method DropIfExpired(server: real)
      modifies this
      ensures scores == old(State()).Alive(server) && expiresAt == old(expiresAt)
    {
      if expiresAt <= server {
        scores := map[];
      }
    }

    method Acquire(id: LeaseId, maximum: int, ttl: real, now: real, server: real) returns (granted: bool)
      modifies this
      ensures (State(), granted) == AfterAcquire(old(State()), id, maximum, ttl, now, server)
    {
      DropIfExpired(server);
      scores := map i | i in scores && scores[i] > now :: scores[i];
      if |scores| < maximum {
        scores := scores[id := now + ttl];
        expiresAt := server + LeaseKeyTtl(ttl) as real;
        return true;
      }
      return false;
    }

    method Renew(id: LeaseId, ttl: real, now: real, server: real) returns (renewed: bool)
      modifies this
      ensures (State(), renewed) == AfterRenew(old(State()), id, ttl, now, server)
    {
      DropIfExpired(server);
      if id !in scores {
        return false;
      }
      scores := scores[id := now + ttl];
      expiresAt := server + LeaseKeyTtl(ttl) as real;
      return true;
    }

    method Release(id: LeaseId, server: real)
      modifies this
      ensures State() == AfterRelease(old(State()), id, server)
    {
      DropIfExpired(server);
      scores := scores - {id};
    }
  }

  // ---------------------------------------------------------------- every run of the lease protocol

  datatype Config = Config(maximum: int, ttl: real, skew: real) {
    predicate Valid() { maximum >= 1 && skew >= 0.0 }
  }

  /** `now` is the calling process's clock, `server` is Redis's when the script runs. */
  datatype Step =
    | Acquire(id: LeaseId, now: real, server: real)
    | Renew(id: LeaseId, now: real, server: real)
    | Release(id: LeaseId, now: real, server: real)

  /** The key, plus what each process believes: which ids were ever granted, which
      were released, and the server time of each id's last grant or renewal. */
  datatype World = World(key: LeaseSet, granted: set<LeaseId>, released: set<LeaseId>,
                         touched: map<LeaseId, real>, clock: real)

  const START := World(LeaseSet(map[], 0.0), {}, {}, map[], 0.0)

  /** The server clock never steps back, callers stay within the skew, and no id is
      granted twice. Renewals and releases may come from anyone at any time, so a
      heartbeat cancelled in flight or a call repeated after a timeout is included. */
  predicate Enabled(w: World, c: Config, s: Step) {
    && w.clock <= s.server
    && s.server - c.skew <= s.now <= s.server + c.skew
    && (s.Acquire? ==> s.id !in w.granted)
  }

  function Next(w: World, c: Config, s: Step): World {
    match s
    case Acquire(id, now, server) =>
      var (key, ok) := AfterAcquire(w.key, id, c.maximum, c.ttl, now, server);
      if ok then World(key, w.granted + {id}, w.released, w.touched[id := server], server)
      else w.(key := key, clock := server)
    case Renew(id, now, server) =>
      var (key, ok) := AfterRenew(w.key, id, c.ttl, now, server);
      if ok then w.(key := key, touched := w.touched[id := server], clock := server)
      else w.(key := key, clock := server)
    case Release(id, _, server) =>
      w.(key := AfterRelease(w.key, id, server), released := w.released + {id}, clock := server)
  }

  predicate EnabledRun(w: World, c: Config, steps: seq<Step>)
    decreases |steps|
  {
    steps == [] || (Enabled(w, c, steps[0]) && EnabledRun(Next(w, c, steps[0]), c, steps[1..]))
  }

  function Run(w: World, c: Config, steps: seq<Step>): World
    decreases |steps|
  {
    if steps == [] then w else Run(Next(w, c, steps[0]), c, steps[1..])
  }

  /** A process that holds a lease and heard from Redis recently enough to trust it. */
  predicate Fresh(w: World, c: Config, id: LeaseId, at: real) {
    && id in w.granted && id !in w.released && id in w.touched
    && at - w.touched[id] < c.ttl - 2.0 * c.skew
  }

  function FreshHolders(w: World, c: Config, at: real): set<LeaseId> {
    set id | id in w.granted && Fresh(w, c, id, at)
  }

  ghost predicate Inv(w: World, c: Config) {
    && |w.key.scores| <= c.maximum
    && w.key.scores.Keys <= w.granted == w.touched.Keys
    && ScoresCover(w.key, w.touched, c)
    && (c.ttl >= 0.0 ==> w.key.expiresAt <= w.clock + LeaseKeyTtl(c.ttl) as real)
    && (forall id :: id in w.granted ==> w.touched[id] <= w.clock)
    && (forall id :: Fresh(w, c, id, w.clock) ==> id in w.key.scores)
  }

  /** Scores lie a lease ahead of the last word from each holder, give or take the skew, and
      the key's expiry lies further ahead. */
  ghost predicate ScoresCover(key: LeaseSet, touched: map<LeaseId, real>, c: Config)
    requires key.scores.Keys <= touched.Keys
  {
    forall id :: id in key.scores ==>
      && touched[id] - c.skew + c.ttl <= key.scores[id] <= touched[id] + c.skew + c.ttl
      && key.expiresAt >= touched[id] + LeaseKeyTtl(c.ttl) as real
  }

  lemma {:induction false} FreshIsAlive(w: World, c: Config, id: LeaseId, at: real)
    requires c.Valid() && Inv(w, c) && w.clock <= at && Fresh(w, c, id, at)
    ensures id in w.key.Alive(at)
  {
  }

  lemma {:induction false} SubsetSize<T>(a: set<T>, b: set<T>)
    requires a <= b
    ensures |a| <= |b|
  {
    assert b == a + (b - a);
  }

  /** Sweeping by a caller's clock leaves a part of the set and removes no fresh holder. */
  lemma {:induction false} SweepKeepsFresh(w: World, c: Config, now: real, server: real)
    requires c.Valid() && Inv(w, c) && w.clock <= server && now <= server + c.skew
    ensures var left := Swept(w.key.Alive(server), now);
            && left.Keys <= w.key.scores.Keys && |left| == |left.Keys| <= c.maximum
            && (forall i :: i in left ==> left[i] == w.key.scores[i])
            && (forall i :: Fresh(w, c, i, server) ==> i in left)
  {
    var left := Swept(w.key.Alive(server), now);
    SubsetSize(left.Keys, w.key.scores.Keys);
    forall id | Fresh(w, c, id, server)
      ensures id in left
    {
      FreshIsAlive(w, c, id, server);
      assert w.key.scores[id] >= w.touched[id] - c.skew + c.ttl;
    }
  }

  lemma {:induction false} InvAcquire(w: World, c: Config, s: Step)
    requires c.Valid() && Inv(w, c) && Enabled(w, c, s) && s.Acquire?
    ensures Inv(Next(w, c, s), c)
  {
    SweepKeepsFresh(w, c, s.now, s.server);
    var left := Swept(w.key.Alive(s.server), s.now);
    if |left| >= c.maximum {
      InvRefused(w, c, left, s.server);
    }
  }

  lemma {:induction false} InvRefused(w: World, c: Config, left: map<LeaseId, real>, server: real)
    requires c.Valid() && Inv(w, c) && w.clock <= server
    requires left.Keys <= w.key.scores.Keys && |left.Keys| <= c.maximum
    requires forall i :: i in left ==> left[i] == w.key.scores[i]
    requires forall i :: Fresh(w, c, i, server) ==> i in left
    ensures Inv(w.(key := w.key.(scores := left), clock := server), c)
  {
  }

  lemma {:induction false} InvRenew(w: World, c: Config, s: Step)
    requires c.Valid() && Inv(w, c) && Enabled(w, c, s) && s.Renew?
    ensures Inv(Next(w, c, s), c)
  {
  }

  lemma {:induction false} InvRelease(w: World, c: Config, s: Step)
    requires c.Valid() && Inv(w, c) && Enabled(w, c, s) && s.Release?
    ensures Inv(Next(w, c, s), c)
  {
    var w' := Next(w, c, s);
    SubsetSize(w'.key.scores.Keys, w.key.scores.Keys);
    forall id | Fresh(w', c, id, w'.clock)
      ensures id in w'.key.scores
    {
      FreshIsAlive(w, c, id, s.server);
    }
  }

  lemma {:induction false} InvStep(w: World, c: Config, s: Step)
    requires c.Valid() && Inv(w, c) && Enabled(w, c, s)
    ensures Inv(Next(w, c, s), c)
  {
    match s
    case Acquire(_, _, _) => InvAcquire(w, c, s);
    case Renew(_, _, _) => InvRenew(w, c, s);
    case Release(_, _, _) => InvRelease(w, c, s);
  }

  lemma {:induction false} InvRun(w: World, c: Config, steps: seq<Step>)
    requires c.Valid() && Inv(w, c) && EnabledRun(w, c, steps)
    ensures Inv(Run(w, c, steps), c)
    decreases |steps|
  {
    if steps != [] {
      InvStep(w, c, steps[0]);
      InvRun(Next(w, c, steps[0]), c, steps[1..]);
    }
  }

  /** Main result: after any run, and at any later moment before the next step, the
      set holds at most `maximum` leases, every unreleased holder that heard from
      Redis within `ttl - 2 * skew` is still in it, and so they number at most `maximum`. */
  lemma {:induction false} LeaseSafety(c: Config, steps: seq<Step>, at: real)
    requires c.Valid() && EnabledRun(START, c, steps) && Run(START, c, steps).clock <= at
    ensures var w := Run(START, c, steps);
            && |w.key.Alive(at)| <= c.maximum
            && FreshHolders(w, c, at) <= w.key.Alive(at).Keys
            && |FreshHolders(w, c, at)| <= c.maximum
  {
    var w := Run(START, c, steps);
    InvRun(START, c, steps);
    forall id | id in FreshHolders(w, c, at)
      ensures id in w.key.Alive(at)
    {
      FreshIsAlive(w, c, id, at);
    }
    SubsetSize(FreshHolders(w, c, at), w.key.Alive(at).Keys);
    SubsetSize(w.key.Alive(at).Keys, w.key.scores.Keys);
  }

  /** Main result: a lease that is out of the set, swept, expired or released, is out of it at
      every later point of every continuation. */
  lemma {:induction false} GoneForGood(w: World, c: Config, steps: seq<Step>, id: LeaseId, at: real)
    requires EnabledRun(w, c, steps) && Run(w, c, steps).clock <= at
    requires id in w.granted && id !in w.key.Alive(w.clock)
    ensures id !in Run(w, c, steps).key.Alive(at)
    decreases |steps|
  {
    if steps != [] {
      assert id !in w.key.Alive(steps[0].server);
      GoneForGood(Next(w, c, steps[0]), c, steps[1..], id, at);
    } else {
      assert w.key.Alive(at) == map[] || w.key.Alive(at) == w.key.Alive(w.clock);
    }
  }

  /** Main result: releasing takes the lease out of the set, at that moment and at every later
      point of every continuation, and nothing else: until the next step every other lease
      is in the set, with its score, exactly when it would have been. */
  lemma {:induction false} ReleasedIsGone(w: World, c: Config, id: LeaseId, now: real, server: real, steps: seq<Step>, at: real)
    requires Enabled(w, c, Release(id, now, server)) && id in w.granted
    requires EnabledRun(Next(w, c, Release(id, now, server)), c, steps)
    requires Run(Next(w, c, Release(id, now, server)), c, steps).clock <= at
    ensures id !in Run(Next(w, c, Release(id, now, server)), c, steps).key.Alive(at)
    ensures forall later :: later >= server ==>
              Next(w, c, Release(id, now, server)).key.Alive(later) == w.key.Alive(later) - {id}
  {
    GoneForGood(Next(w, c, Release(id, now, server)), c, steps, id, at);
  }

  /** Main result: a release frees a slot. In every run, when a lease in the set is released, a
      process with a fresh id that asks next, then or later, is granted one. */
  lemma {:induction false} ReleaseFreesASlot(c: Config, steps: seq<Step>, id: LeaseId, now: real, server: real, next: Step)
    requires c.Valid() && EnabledRun(START, c, steps)
    requires var w := Run(START, c, steps);
             && id in w.key.Alive(server) && Enabled(w, c, Release(id, now, server))
             && next.Acquire? && Enabled(Next(w, c, Release(id, now, server)), c, next)
    ensures next.id in Next(Next(Run(START, c, steps), c, Release(id, now, server)), c, next).granted
  {
    var w := Run(START, c, steps);
    var w' := Next(w, c, Release(id, now, server));
    InvRun(START, c, steps);
    InvStep(w, c, Release(id, now, server));
    InvStep(w', c, next);
    ReleasedIsGone(w, c, id, now, server, [], server);
    SubsetSize(Swept(w'.key.Alive(next.server), next.now).Keys, w.key.scores.Keys - {id});
  }

  /** The leases a caller at `server` must still reckon with: heard from within a lease time and
      twice the skew. */
  function Recent(w: World, c: Config, server: real): set<LeaseId> {
    set id | id in w.touched && server - w.touched[id] < c.ttl + 2.0 * c.skew
  }

  /** Main result: a crashed holder's slot comes back. In every run, an acquire is granted
      whenever fewer than `maximum` leases were heard from within the lease time and twice
      the skew, released or not. */
  lemma {:induction false} SilentLeasesAreReclaimed(c: Config, steps: seq<Step>, next: Step)
    requires c.Valid() && EnabledRun(START, c, steps)
    requires next.Acquire? && Enabled(Run(START, c, steps), c, next)
    requires |Recent(Run(START, c, steps), c, next.server)| < c.maximum
    ensures next.id in Next(Run(START, c, steps), c, next).granted
  {
    var w := Run(START, c, steps);
    InvRun(START, c, steps);
    var left := Swept(w.key.Alive(next.server), next.now);
    forall id | id in left
      ensures id in Recent(w, c, next.server)
    {
      assert left[id] == w.key.scores[id] > next.now;
    }
    SubsetSize(left.Keys, Recent(w, c, next.server));
  }

  /** No step but an acquire's sweep touches another process's lease: it stays in the set, with
      its score, at least as long as it would have. */
  lemma {:induction false} OthersKeepTheirLeases(w: World, c: Config, s: Step, other: LeaseId, at: real)
    requires c.Valid() && c.ttl >= 0.0 && Inv(w, c) && Enabled(w, c, s) && s.server <= at
    requires other != s.id && other in w.key.Alive(at) && (s.Acquire? ==> w.key.scores[other] > s.now)
    ensures other in Next(w, c, s).key.Alive(at)
    ensures Next(w, c, s).key.scores[other] == w.key.scores[other]
  {
  }

  /** A refusal is never spurious: the set then holds `maximum` other leases, each
      scored beyond the caller's clock. */
  lemma {:induction false} RefusedOnlyWhenFull(w: World, c: Config, s: Step)
    requires c.Valid() && Inv(w, c) && s.Acquire? && Enabled(w, c, s)
    requires s.id !in Next(w, c, s).granted
    ensures |Next(w, c, s).key.scores| == c.maximum
    ensures forall id :: id in Next(w, c, s).key.scores ==> id != s.id && Next(w, c, s).key.scores[id] > s.now
  {
    InvStep(w, c, s);
  }

  // ---------------------------------------------------------------- heartbeat

  const MIN_POLL_INTERVAL: real := 0.02
  const MAX_POLL_INTERVAL: real := 0.25

  function RenewInterval(ttl: real): real { Max(MIN_POLL_INTERVAL, ttl / 3.0) }

  /** The time between two successful renewals with `missed` failures between them. */
  function RenewalGap(ttl: real, missed: nat): real { (missed + 1) as real * RenewInterval(ttl) }

  /** Whenever anything happens to the key while the process holds its lease, the process has
      been heard from, by its grant or a renewal, at most `gap` seconds before. */
  predicate OnTime(w: World, c: Config, steps: seq<Step>, id: LeaseId, gap: real)
    decreases |steps|
  {
    steps == [] ||
    (&& (id in w.granted && id !in w.released ==> id in w.touched && steps[0].server - w.touched[id] <= gap)
     && OnTime(Next(w, c, steps[0]), c, steps[1..], id, gap))
  }

  /** The lease is in the set, at every point of the run, from its grant to its release. */
  predicate StaysIn(w: World, c: Config, steps: seq<Step>, id: LeaseId)
    decreases |steps|
  {
    && (id in w.granted && id !in w.released ==> id in w.key.Alive(w.clock))
    && (steps == [] || StaysIn(Next(w, c, steps[0]), c, steps[1..], id))
  }

  lemma {:induction false} OnTimeStaysIn(w: World, c: Config, steps: seq<Step>, id: LeaseId, gap: real)
    requires c.Valid() && Inv(w, c) && EnabledRun(w, c, steps) && OnTime(w, c, steps, id, gap)
    requires gap < c.ttl - 2.0 * c.skew && 0.0 < c.ttl - 2.0 * c.skew
    requires id in w.granted && id !in w.released ==> Fresh(w, c, id, w.clock)
    ensures StaysIn(w, c, steps, id)
    decreases |steps|
  {
    if id in w.granted && id !in w.released {
      FreshIsAlive(w, c, id, w.clock);
    }
    if steps != [] {
      var w' := Next(w, c, steps[0]);
      InvStep(w, c, steps[0]);
      assert id in w'.granted && id !in w'.released ==> Fresh(w', c, id, w'.clock);
      OnTimeStaysIn(w', c, steps[1..], id, gap);
    }
  }

  /** A slow process is granted a lease; a fast one comes as soon as that looks run out to it. */
  function SweptRun(c: Config): seq<Step> {
    var t := Max(0.0, c.ttl - 2.0 * c.skew);
    [Acquire("a", -c.skew, 0.0), Acquire("b", t + c.skew, t)]
  }

  function SlowGranted(c: Config): World {
    World(LeaseSet(map["a" := -c.skew + c.ttl], LeaseKeyTtl(c.ttl) as real), {"a"}, {}, map["a" := 0.0], 0.0)
  }

  lemma {:induction false} SlowIsGranted(c: Config)
    requires c.Valid()
    ensures Next(START, c, Acquire("a", -c.skew, 0.0)) == SlowGranted(c)
  {
    assert Swept(START.key.Alive(0.0), -c.skew) == map[];
  }

  lemma {:induction false} FastSweepsSlow(c: Config, t: real)
    requires c.Valid() && t >= c.ttl - 2.0 * c.skew
    ensures var w := Next(SlowGranted(c), c, Acquire("b", t + c.skew, t));
            "a" in w.granted && w.released == {} && "a" !in w.key.Alive(w.clock)
  {
    assert Swept(SlowGranted(c).key.Alive(t), t + c.skew) == map[];
  }

  lemma {:induction false} LateIsSwept(c: Config, gap: real)
    requires c.Valid() && gap >= 0.0 && gap >= c.ttl - 2.0 * c.skew
    ensures EnabledRun(START, c, SweptRun(c)) && OnTime(START, c, SweptRun(c), "a", gap)
    ensures !StaysIn(START, c, SweptRun(c), "a")
  {
    var steps, t := SweptRun(c), Max(0.0, c.ttl - 2.0 * c.skew);
    SlowIsGranted(c);
    FastSweepsSlow(c, t);
    var w1 := SlowGranted(c);
    var w2 := Next(w1, c, steps[1]);
    assert steps[1..] == [steps[1]] && steps[1..][1..] == [];
    assert !StaysIn(w2, c, [], "a") && OnTime(w2, c, [], "a", gap) && EnabledRun(w2, c, []);
    assert !StaysIn(w1, c, steps[1..], "a") && OnTime(w1, c, steps[1..], "a", gap) && EnabledRun(w1, c, steps[1..]);
  }

  /** Main result: leases heard from at most `gap` seconds apart stay in the set in every run, if
      and only if the gap is shorter than the lease time less twice the clock skew. */
  lemma {:induction false} LeaseKeptIff(c: Config, gap: real)
    requires c.Valid() && gap >= 0.0
    ensures gap < c.ttl - 2.0 * c.skew <==>
            forall steps, id :: EnabledRun(START, c, steps) && OnTime(START, c, steps, id, gap) ==> StaysIn(START, c, steps, id)
  {
    if gap < c.ttl - 2.0 * c.skew {
      forall steps, id | EnabledRun(START, c, steps) && OnTime(START, c, steps, id, gap)
        ensures StaysIn(START, c, steps, id)
      {
        OnTimeStaysIn(START, c, steps, id, gap);
      }
    } else {
      LateIsSwept(c, gap);
    }
  }

  lemma {:induction false} GapWithinLease(ttl: real, missed: nat)
    ensures RenewalGap(ttl, missed) >= 0.0
    ensures RenewalGap(ttl, missed) < ttl <==> if ttl > 0.04 then missed <= 1 else ttl > 0.02 && missed == 0
  {
    var k, interval := (missed + 1) as real, RenewInterval(ttl);
    if missed >= 2 {
      ProductMonotone(3.0, k, interval);
    } else if missed == 1 {
      assert k * interval == 2.0 * interval;
    }
  }

  /** Main result: how many missed renewals in a row a lease survives, in every run with exact
      clocks. A lease above 40 ms survives one and never two, one above 20 ms none, and a
      shorter one may be gone before its first renewal. */
  lemma {:induction false} MissedRenewalsSurvived(c: Config, missed: nat)
    requires c.Valid() && c.skew == 0.0
    ensures (forall steps, id ::
               EnabledRun(START, c, steps) && OnTime(START, c, steps, id, RenewalGap(c.ttl, missed)) ==> StaysIn(START, c, steps, id))
       <==> if c.ttl > 0.04 then missed <= 1 else c.ttl > 0.02 && missed == 0
  {
    GapWithinLease(c.ttl, missed);
    LeaseKeptIff(c, RenewalGap(c.ttl, missed));
  }

  /** One slot, exact clocks, and a first holder whose renewal comes after a whole lease time. */
  function OverfillRun(ttl: real): seq<Step> {
    [Acquire("a", 0.0, 0.0), Acquire("b", ttl, ttl), Renew("a", ttl, ttl)]
  }

  /** Any number of missed renewals that a lease does not survive lets the slot be given away
      while its first holder still runs and renews no later than it would. */
  lemma {:induction false} MissedRenewalsOverfill(ttl: real, missed: nat)
    requires ttl > 0.0 && !(if ttl > 0.04 then missed <= 1 else ttl > 0.02 && missed == 0)
    ensures var c := Config(1, ttl, 0.0);
            var w := Run(START, c, OverfillRun(ttl));
            && EnabledRun(START, c, OverfillRun(ttl))
            && OnTime(START, c, OverfillRun(ttl), "a", RenewalGap(ttl, missed))
            && w.granted - w.released == {"a", "b"}
            && w.key.Alive(ttl).Keys == {"b"}
  {
    var c, steps, gap := Config(1, ttl, 0.0), OverfillRun(ttl), RenewalGap(ttl, missed);
    GapWithinLease(ttl, missed);
    var keyTtl := LeaseKeyTtl(ttl) as real;
    var w1 := World(LeaseSet(map["a" := ttl], keyTtl), {"a"}, {}, map["a" := 0.0], 0.0);
    assert Next(START, c, steps[0]) == w1;
    var w2 := World(LeaseSet(map["b" := ttl + ttl], ttl + keyTtl), {"a", "b"}, {}, map["a" := 0.0, "b" := ttl], ttl);
    assert Next(w1, c, steps[1]) == w2 by {
      assert Swept(w1.key.Alive(ttl), ttl) == map[];
    }
    assert Next(w2, c, steps[2]) == w2;
    assert steps[1..] == [steps[1], steps[2]] && steps[1..][1..] == [steps[2]] && steps[1..][1..][1..] == [];
    assert Run(w2, c, steps[1..][1..]) == w2 && EnabledRun(w2, c, steps[1..][1..]) && OnTime(w2, c, steps[1..][1..], "a", gap);
    assert Run(w1, c, steps[1..]) == w2 && EnabledRun(w1, c, steps[1..]) && OnTime(w1, c, steps[1..], "a", gap);
  }

  // ---------------------------------------------------------------- polling acquire

  function PollInterval(i: nat): real {
    if i == 0 then MIN_POLL_INTERVAL else Min(PollInterval(i - 1) * 2.0, MAX_POLL_INTERVAL)
  }

  /** When the i-th attempt is made, on a loop clock that starts at 0 and sleeps exactly. */
  function PollTime(i: nat, timeout: real): real {
    if i == 0 then 0.0
    else
      var before := PollTime(i - 1, timeout);
      before + Min(PollInterval(i - 1), Max(0.0, timeout - before))
  }

  /** Waits of 20, 40, 80 and 160 ms, and of 250 ms from then on. */
  lemma {:induction false} PollSchedule(i: nat)
    ensures 0.02 <= PollInterval(i) <= 0.25
    ensures PollInterval(i) == if i == 0 then 0.02 else if i == 1 then 0.04 else if i == 2 then 0.08 else if i == 3 then 0.16 else 0.25
  {
    if i > 0 {
      PollSchedule(i - 1);
    }
  }

  datatype PollError = RateLimitExceeded(attempts: nat)

  /** `answers(i)` is what the acquire script returns to the i-th attempt. The first
      granted attempt wins; a refusal means every attempt up to and including one made
      exactly at the deadline was turned away. */
  method PollForLease(answers: nat -> bool, timeout: real) returns (r: Result<nat, PollError>)
    ensures r.Success? ==> answers(r.value) && (forall j: nat :: j < r.value ==> !answers(j))
    ensures r.Success? && r.value > 0 ==> PollTime(r.value - 1, timeout) < timeout
    ensures r.Failure? ==> r.error.attempts > 0 && (forall j: nat :: j < r.error.attempts ==> !answers(j))
    ensures r.Failure? ==> PollTime(r.error.attempts - 1, timeout) == Max(0.0, timeout)
  {
    var i: nat, now, interval := 0, 0.0, MIN_POLL_INTERVAL;
    while true
      invariant now == PollTime(i, timeout) && interval == PollInterval(i)
      invariant 0.0 <= now <= Max(0.0, timeout)
      invariant forall j: nat :: j < i ==> !answers(j)
      invariant i > 0 ==> PollTime(i - 1, timeout) < timeout
      decreases if now < timeout then ((timeout - now) * 50.0).Floor + 1 else 0
    {
      if answers(i) {
        return Success(i);
      }
      if now >= timeout {
        return Failure(RateLimitExceeded(i + 1));
      }
      PollSchedule(i);
      now := now + Min(interval, Max(0.0, timeout - now));
      interval := Min(interval * 2.0, MAX_POLL_INTERVAL);
      i := i + 1;
    }
  }
}
