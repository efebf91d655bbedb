/**
 The dataset store's byte cap when puts interleave. A put reads the other datasets' total
 before it takes the store lock to write, so a check and its write are two steps with any
 other thread's steps, deletes and expiries between them.
 */
module DatasetCap {
  import opened Datasets

  type Thread = nat

  /** A schedule says who checks, writes or removes what, and not how large anything is. */
  datatype Step = Check(t: Thread, id: DatasetId) | Write(t: Thread) | Remove(ids: set<DatasetId>)

  /** The stored sizes, and the puts whose check has passed. */
  datatype World = World(sizes: map<DatasetId, nat>, cleared: map<Thread, (DatasetId, nat)>)

  ghost function Next(w: World, s: Step, size: nat, maxBytes: nat): World {
    match s
    case Check(t, id) =>
      if Total(w.sizes - {id}) + size <= maxBytes then w.(cleared := w.cleared[t := (id, size)])
      else w.(cleared := w.cleared - {t})
    case Write(t) =>
      if t in w.cleared then World(w.sizes[w.cleared[t].0 := w.cleared[t].1], w.cleared - {t}) else w
    case Remove(ids) => w.(sizes := w.sizes - ids)
  }

  /** The store after `n` steps, step i's dataset being `sizes[i]` bytes. */
  ghost function After(plan: seq<Step>, sizes: seq<nat>, maxBytes: nat, n: nat): World
    requires n <= |plan| == |sizes|
  {
    if n == 0 then World(map[], map[]) else Next(After(plan, sizes, maxBytes, n - 1), plan[n - 1], sizes[n - 1], maxBytes)
  }

  ghost predicate CapHolds(plan: seq<Step>, sizes: seq<nat>, maxBytes: nat)
    requires |plan| == |sizes|
  {
    forall n :: 0 <= n <= |plan| ==> Total(After(plan, sizes, maxBytes, n).sizes) <= maxBytes
  }

  // ---------------------------------------------------------------- what a schedule lets happen

  /** A passed check: when it was made, and which other datasets have been written since and
      are still stored, each with the check its write came from. */
  datatype Clearance = Clearance(id: DatasetId, at: nat, news: map<DatasetId, nat>)

  /** `stored` maps a dataset to the check its last write came from; `used` holds every check
      that has been written. */
  datatype Track = Track(cleared: map<Thread, Clearance>, stored: map<DatasetId, nat>, used: set<nat>)

  function Overtaken(c: Clearance, id: DatasetId, at: nat): Clearance {
    if c.id == id then c else c.(news := c.news[id := at])
  }

  function Follow(tr: Track, s: Step, n: nat): Track {
    match s
    case Check(t, id) => tr.(cleared := tr.cleared[t := Clearance(id, n, map[])])
    case Write(t) =>
      if t !in tr.cleared then tr
      else
        var c := tr.cleared[t];
        Track(map u | u in tr.cleared && u != t :: Overtaken(tr.cleared[u], c.id, c.at),
              tr.stored[c.id := c.at], tr.used + {c.at})
    case Remove(ids) =>
      Track(map u | u in tr.cleared :: tr.cleared[u].(news := tr.cleared[u].news - ids), tr.stored - ids, tr.used)
  }

  /** What has happened after `n` steps when every check passes. */
  function Tracked(plan: seq<Step>, n: nat): Track
    requires n <= |plan|
  {
    if n == 0 then Track(map[], map[], {}) else Follow(Tracked(plan, n - 1), plan[n - 1], n - 1)
  }

  /** Step `n` writes although another dataset, still stored, was written since its check. */
  predicate Stale(plan: seq<Step>, n: nat)
    requires n < |plan|
  {
    var tr := Tracked(plan, n);
    plan[n].Write? && plan[n].t in tr.cleared && tr.cleared[plan[n].t].news != map[]
  }

  predicate Careful(plan: seq<Step>) { forall n :: 0 <= n < |plan| ==> !Stale(plan, n) }

  // ---------------------------------------------------------------- careful schedules keep the cap

  ghost predicate PartOf(a: map<DatasetId, nat>, b: map<DatasetId, nat>) {
    forall k :: k in a ==> k in b && a[k] == b[k]
  }

  lemma {:induction false} TotalOfPart(a: map<DatasetId, nat>, b: map<DatasetId, nat>)
    requires PartOf(a, b)
    ensures Total(a) <= Total(b)
    decreases |a.Keys|
  {
    if a.Keys != {} {
      var k :| k in a.Keys;
      TotalWithout(a, k);
      TotalWithout(b, k);
      assert (a - {k}).Keys == a.Keys - {k};
      TotalOfPart(a - {k}, b - {k});
    }
  }

  /** A passed check still holds for the datasets nobody has written since. */
  ghost predicate Cleared(w: World, tr: Track, t: Thread, maxBytes: nat)
    requires t in w.cleared
  {
    && t in tr.cleared && tr.cleared[t].id == w.cleared[t].0
    && Total(w.sizes - {w.cleared[t].0} - tr.cleared[t].news.Keys) + w.cleared[t].1 <= maxBytes
  }

  ghost predicate Inv(w: World, tr: Track, maxBytes: nat) {
    Total(w.sizes) <= maxBytes && forall t :: t in w.cleared ==> Cleared(w, tr, t, maxBytes)
  }

  lemma {:induction false} NothingNew(sizes: map<DatasetId, nat>, news: map<DatasetId, nat>)
    requires news == map[]
    ensures sizes - news.Keys == sizes
  {
  }

  lemma {:induction false} InvCheck(w: World, tr: Track, t: Thread, id: DatasetId, size: nat, n: nat, maxBytes: nat)
    requires Inv(w, tr, maxBytes)
    ensures Inv(Next(w, Check(t, id), size, maxBytes), Follow(tr, Check(t, id), n), maxBytes)
  {
    var w', tr' := Next(w, Check(t, id), size, maxBytes), Follow(tr, Check(t, id), n);
    forall u | u in w'.cleared
      ensures Cleared(w', tr', u, maxBytes)
    {
      if u != t {
        assert Cleared(w, tr, u, maxBytes);
      } else {
        NothingNew(w.sizes - {id}, tr'.cleared[t].news);
      }
    }
  }

  lemma {:induction false} InvWrite(w: World, tr: Track, t: Thread, size: nat, n: nat, maxBytes: nat)
    requires Inv(w, tr, maxBytes) && (t in tr.cleared ==> tr.cleared[t].news == map[])
    ensures Inv(Next(w, Write(t), size, maxBytes), Follow(tr, Write(t), n), maxBytes)
  {
    var w', tr' := Next(w, Write(t), size, maxBytes), Follow(tr, Write(t), n);
    if t in w.cleared {
      var (id, mine) := w.cleared[t];
      assert Cleared(w, tr, t, maxBytes);
      NothingNew(w.sizes - {id}, tr.cleared[t].news);
      TotalAfterWrite(w.sizes, id, mine);
    }
    forall u | u in w'.cleared
      ensures Cleared(w', tr', u, maxBytes)
    {
      assert Cleared(w, tr, u, maxBytes) && u != t;
      TotalOfPart(w'.sizes - {w.cleared[u].0} - tr'.cleared[u].news.Keys, w.sizes - {w.cleared[u].0} - tr.cleared[u].news.Keys);
    }
  }

  lemma {:induction false} InvRemove(w: World, tr: Track, ids: set<DatasetId>, size: nat, n: nat, maxBytes: nat)
    requires Inv(w, tr, maxBytes)
    ensures Inv(Next(w, Remove(ids), size, maxBytes), Follow(tr, Remove(ids), n), maxBytes)
  {
    var w', tr' := Next(w, Remove(ids), size, maxBytes), Follow(tr, Remove(ids), n);
    TotalOfPart(w'.sizes, w.sizes);
    forall u | u in w'.cleared
      ensures Cleared(w', tr', u, maxBytes)
    {
      assert Cleared(w, tr, u, maxBytes);
      TotalOfPart(w'.sizes - {w.cleared[u].0} - tr'.cleared[u].news.Keys, w.sizes - {w.cleared[u].0} - tr.cleared[u].news.Keys);
    }
  }

  lemma {:induction false} InvAfter(plan: seq<Step>, sizes: seq<nat>, maxBytes: nat, n: nat)
    requires n <= |plan| == |sizes| && Careful(plan)
    ensures Inv(After(plan, sizes, maxBytes, n), Tracked(plan, n), maxBytes)
  {
    if n > 0 {
      InvAfter(plan, sizes, maxBytes, n - 1);
      var w, tr := After(plan, sizes, maxBytes, n - 1), Tracked(plan, n - 1);
      assert !Stale(plan, n - 1);
      match plan[n - 1]
      case Check(t, id) => InvCheck(w, tr, t, id, sizes[n - 1], n - 1, maxBytes);
      case Write(t) => InvWrite(w, tr, t, sizes[n - 1], n - 1, maxBytes);
      case Remove(ids) => InvRemove(w, tr, ids, sizes[n - 1], n - 1, maxBytes);
    }
  }

  // ---------------------------------------------------------------- a stale write can pass the cap

  /** Every check is written at most once, and what counts as news was written after the check. */
  predicate Sound(plan: seq<Step>, n: nat)
    requires n <= |plan|
  {
    var tr := Tracked(plan, n);
    && (forall k :: k in tr.used ==> k < n)
    && (forall e :: e in tr.stored ==> tr.stored[e] in tr.used)
    && (forall d, e :: d in tr.stored && e in tr.stored && d != e ==> tr.stored[d] != tr.stored[e])
    && (forall u :: u in tr.cleared ==> tr.cleared[u].at < n && tr.cleared[u].at !in tr.used)
    && (forall u, v :: u in tr.cleared && v in tr.cleared && u != v ==> tr.cleared[u].at != tr.cleared[v].at)
    && (forall u, d :: u in tr.cleared && d in tr.cleared[u].news ==> IsNews(plan, tr, tr.cleared[u], d))
  }

  predicate IsNews(plan: seq<Step>, tr: Track, c: Clearance, d: DatasetId)
    requires d in c.news
  {
    d != c.id && d in tr.stored && tr.stored[d] == c.news[d]
    && c.at <= |plan| && c.news[d] !in Tracked(plan, c.at).used
  }

  lemma {:induction false} UsedGrows(plan: seq<Step>, m: nat, n: nat)
    requires m <= n <= |plan|
    ensures Tracked(plan, m).used <= Tracked(plan, n).used
  {
    if m < n {
      UsedGrows(plan, m, n - 1);
    }
  }

  lemma {:induction false} SoundWrite(plan: seq<Step>, n: nat)
    requires n < |plan| && Sound(plan, n) && plan[n].Write?
    ensures Sound(plan, n + 1)
  {
    var tr, tr' := Tracked(plan, n), Tracked(plan, n + 1);
    var t := plan[n].t;
    if t in tr.cleared {
      var c := tr.cleared[t];
      forall u, d | u in tr'.cleared && d in tr'.cleared[u].news
        ensures IsNews(plan, tr', tr'.cleared[u], d)
      {
        UsedGrows(plan, tr.cleared[u].at, n);
        if d in tr.cleared[u].news {
          assert IsNews(plan, tr, tr.cleared[u], d);
        }
      }
    }
  }

  lemma {:induction false} SoundCheck(plan: seq<Step>, n: nat)
    requires n < |plan| && Sound(plan, n) && plan[n].Check?
    ensures Sound(plan, n + 1)
  {
    var tr, tr' := Tracked(plan, n), Tracked(plan, n + 1);
    forall u, d | u in tr'.cleared && d in tr'.cleared[u].news
      ensures IsNews(plan, tr', tr'.cleared[u], d)
    {
      assert u in tr.cleared && tr.cleared[u] == tr'.cleared[u];
      assert IsNews(plan, tr, tr.cleared[u], d);
    }
  }

  lemma {:induction false} SoundRemove(plan: seq<Step>, n: nat)
    requires n < |plan| && Sound(plan, n) && plan[n].Remove?
    ensures Sound(plan, n + 1)
  {
    var tr, tr' := Tracked(plan, n), Tracked(plan, n + 1);
    forall u, d | u in tr'.cleared && d in tr'.cleared[u].news
      ensures IsNews(plan, tr', tr'.cleared[u], d)
    {
      assert d in tr.cleared[u].news;
      assert IsNews(plan, tr, tr.cleared[u], d);
    }
  }

  lemma {:induction false} SoundStep(plan: seq<Step>, n: nat)
    requires n < |plan| && Sound(plan, n)
    ensures Sound(plan, n + 1)
  {
    if plan[n].Check? {
      SoundCheck(plan, n);
    } else if plan[n].Write? {
      SoundWrite(plan, n);
    } else {
      SoundRemove(plan, n);
    }
  }

  lemma {:induction false} SoundAfter(plan: seq<Step>, n: nat)
    requires n <= |plan|
    ensures Sound(plan, n)
  {
    if n > 0 {
      SoundAfter(plan, n - 1);
      SoundStep(plan, n - 1);
    }
  }

  /** Nothing weighs anything but the two puts that collide, and those fill the store. */
  function Colliding(length: nat, i: nat, k: nat, maxBytes: nat): (sizes: seq<nat>)
    ensures |sizes| == length
    ensures forall n :: 0 <= n < length ==> sizes[n] == if n == i || n == k then maxBytes else 0
  {
    seq(length, n => if n == i || n == k then maxBytes else 0)
  }

  /** The run goes as tracked: every check passed, every size is its check's. */
  ghost predicate AsTracked(w: World, tr: Track, sizes: seq<nat>) {
    && w.cleared.Keys == tr.cleared.Keys && w.sizes.Keys == tr.stored.Keys
    && (forall u :: u in w.cleared ==>
          tr.cleared[u].at < |sizes| && w.cleared[u] == (tr.cleared[u].id, sizes[tr.cleared[u].at]))
    && (forall e :: e in w.sizes ==> tr.stored[e] < |sizes| && w.sizes[e] == sizes[tr.stored[e]])
  }

  lemma {:induction false} TotalOfNothing(m: map<DatasetId, nat>)
    requires forall e :: e in m ==> m[e] == 0
    ensures Total(m) == 0
    decreases |m.Keys|
  {
    if m.Keys != {} {
      var e :| e in m.Keys;
      TotalWithout(m, e);
      assert (m - {e}).Keys == m.Keys - {e};
      TotalOfNothing(m - {e});
    }
  }

  lemma {:induction false} TotalOfOne(m: map<DatasetId, nat>, d: DatasetId)
    requires forall e :: e in m && e != d ==> m[e] == 0
    ensures Total(m) == if d in m then m[d] else 0
  {
    if d in m {
      TotalWithout(m, d);
      TotalOfNothing(m - {d});
    } else {
      TotalOfNothing(m);
    }
  }

  /** Before the late write the store holds at most one dataset of any size. */
  lemma {:induction false} AtMostOneFull(w: World, tr: Track, sizes: seq<nat>, i: nat, k: nat, maxBytes: nat)
    requires AsTracked(w, tr, sizes) && i !in tr.used
    requires forall n :: 0 <= n < |sizes| ==> sizes[n] == if n == i || n == k then maxBytes else 0
    requires forall e :: e in tr.stored ==> tr.stored[e] in tr.used
    requires forall d, e :: d in tr.stored && e in tr.stored && d != e ==> tr.stored[d] != tr.stored[e]
    ensures Total(w.sizes) <= maxBytes
    ensures k !in tr.used ==> Total(w.sizes) == 0
  {
    if d :| d in tr.stored && tr.stored[d] == k {
      TotalOfOne(w.sizes, d);
    } else {
      TotalOfNothing(w.sizes);
    }
  }

  lemma {:induction false} NextAsTracked(w: World, tr: Track, s: Step, sizes: seq<nat>, n: nat, maxBytes: nat)
    requires AsTracked(w, tr, sizes) && n < |sizes|
    requires s.Check? ==> Total(w.sizes - {s.id}) + sizes[n] <= maxBytes
    ensures AsTracked(Next(w, s, sizes[n], maxBytes), Follow(tr, s, n), sizes)
  {
  }

  lemma {:induction false} CheckPasses(
      w: World, tr: Track, id: DatasetId, sizes: seq<nat>, i: nat, k: nat, maxBytes: nat, n: nat)
    requires AsTracked(w, tr, sizes) && i !in tr.used && n < |sizes| && (n == i || n == k ==> k !in tr.used)
    requires forall m :: 0 <= m < |sizes| ==> sizes[m] == if m == i || m == k then maxBytes else 0
    requires forall e :: e in tr.stored ==> tr.stored[e] in tr.used
    requires forall d, e :: d in tr.stored && e in tr.stored && d != e ==> tr.stored[d] != tr.stored[e]
    ensures Total(w.sizes - {id}) + sizes[n] <= maxBytes
  {
    AtMostOneFull(w, tr, sizes, i, k, maxBytes);
    TotalOfPart(w.sizes - {id}, w.sizes);
  }

  lemma {:induction false} GoesAsTracked(plan: seq<Step>, p: nat, i: nat, k: nat, maxBytes: nat, n: nat)
    requires n <= p <= |plan| && i < p && k < p
    requires i !in Tracked(plan, p).used && k !in Tracked(plan, i).used
    ensures AsTracked(After(plan, Colliding(|plan|, i, k, maxBytes), maxBytes, n), Tracked(plan, n), Colliding(|plan|, i, k, maxBytes))
  {
    if n > 0 {
      var sizes := Colliding(|plan|, i, k, maxBytes);
      var w, tr := After(plan, sizes, maxBytes, n - 1), Tracked(plan, n - 1);
      GoesAsTracked(plan, p, i, k, maxBytes, n - 1);
      if plan[n - 1].Check? {
        SoundAfter(plan, n - 1);
        UsedGrows(plan, n - 1, p);
        CheckPasses(w, tr, plan[n - 1].id, sizes, i, k, maxBytes, n - 1);
      }
      NextAsTracked(w, tr, plan[n - 1], sizes, n - 1, maxBytes);
    }
  }

  lemma {:induction false} StaleWriteOverfills(plan: seq<Step>, p: nat, maxBytes: nat) returns (sizes: seq<nat>)
    requires p < |plan| && Stale(plan, p) && maxBytes > 0
    ensures |sizes| == |plan| && !CapHolds(plan, sizes, maxBytes)
  {
    var tr, t := Tracked(plan, p), plan[p].t;
    var c := tr.cleared[t];
    var d :| d in c.news;
    var i, k := c.at, c.news[d];
    SoundAfter(plan, p);
    assert IsNews(plan, tr, c, d);
    sizes := Colliding(|plan|, i, k, maxBytes);
    GoesAsTracked(plan, p, i, k, maxBytes, p);
    var w := After(plan, sizes, maxBytes, p);
    assert w.cleared[t] == (c.id, maxBytes) && w.sizes[d] == maxBytes;
    TotalAfterWrite(w.sizes, c.id, maxBytes);
    TotalWithout(w.sizes - {c.id}, d);
    assert Total(After(plan, sizes, maxBytes, p + 1).sizes) >= 2 * maxBytes;
  }

  /** Main result: a schedule keeps the store within its cap, whatever the datasets' sizes, if
      and only if no put writes after another dataset, still stored, was written since its own
      check. */
  lemma {:induction false} CapHoldsIff(plan: seq<Step>, maxBytes: nat)
    requires maxBytes > 0
    ensures Careful(plan) <==> forall sizes: seq<nat> :: |sizes| == |plan| ==> CapHolds(plan, sizes, maxBytes)
  {
    if Careful(plan) {
      forall sizes: seq<nat>, n | |sizes| == |plan| && 0 <= n <= |plan|
        ensures Total(After(plan, sizes, maxBytes, n).sizes) <= maxBytes
      {
        InvAfter(plan, sizes, maxBytes, n);
      }
    } else {
      var p :| 0 <= p < |plan| && Stale(plan, p);
      var sizes := StaleWriteOverfills(plan, p, maxBytes);
    }
  }
}
