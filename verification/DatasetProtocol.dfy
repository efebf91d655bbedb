/**
 Threads ingesting into and sealing the same datasets at once. Each call takes its
 dataset's lock, reads a copy, decides, and puts the changed copy back, one atomic
 step at a time; deletes and expiry sweeps take no dataset lock and may fall
 anywhere. Sealing reads twice: once to check, once inside the store's own seal.
 */
module DatasetProtocol {
  import opened Common
  import opened Datasets

  type ThreadId = nat

  datatype Op = Add(id: DatasetId, upload: Upload) | Seal(id: DatasetId, at: int)

  type Answer = Result<Dataset, Error>

  function Decide(d: Dataset, op: Op, c: Config): Answer {
    match op
    case Add(_, u) => Added(d, u, c)
    case Seal(_, at) => SealedBy(d, at)
  }

  /** Refusals that come from the surroundings rather than from the dataset's content. */
  predicate Environmental(a: Answer) {
    a.Failure? && (a.error.Unknown? || a.error.Expired? || a.error.TooLarge? || a.error.StoreFull?)
  }

  /** `before` counts the accepted calls on the dataset when the answer was decided. */
  datatype Pc =
    | Waiting(op: Op)
    | Holding(op: Op)
    | SealChecked(op: Op)
    | Read(op: Op, copy: Dataset)
    | Leaving(op: Op, answer: Answer, before: nat)
    | Returned(op: Op, answer: Answer, before: nat)

  /** `created` and `log` record each dataset's first value and, in the order of their
      puts, the calls accepted on it since. */
  datatype World = World(
    store: map<DatasetId, Dataset>, locks: map<DatasetId, ThreadId>, threads: map<ThreadId, Pc>,
    created: map<DatasetId, Dataset>, log: map<DatasetId, seq<Op>>)

  const START := World(map[], map[], map[], map[], map[])

  function LogOf(w: World, id: DatasetId): seq<Op> { if id in w.log then w.log[id] else [] }

  datatype Step =
    | Create(d: Dataset)
    | Call(t: ThreadId, op: Op)
    | Lock(t: ThreadId)
    | Get(t: ThreadId, now: int)
    | Put(t: ThreadId, refused: Option<Error>)
    | Unlock(t: ThreadId)
    | Remove(ids: set<DatasetId>)   // a delete, or one expiry sweep

  predicate Enabled(w: World, s: Step) {
    match s
    case Create(d) => d.id !in w.created && !d.Sealed() && d.sources == []
    case Call(t, _) => t !in w.threads
    case Lock(t) => t in w.threads && w.threads[t].Waiting? && w.threads[t].op.id !in w.locks
    case Get(t, _) => t in w.threads && (w.threads[t].Holding? || w.threads[t].SealChecked?)
    case Put(t, refused) => t in w.threads && w.threads[t].Read? && (refused.None? || refused.value in {TooLarge, StoreFull})
    case Unlock(t) => t in w.threads && w.threads[t].Leaving?
    case Remove(_) => true
  }

  /** What a thread does with what it read. */
  function AfterRead(op: Op, second: bool, copy: Dataset, before: nat, c: Config): Pc {
    var decided := Decide(copy, op, c);
    if decided.Failure? || copy.Sealed() then Leaving(op, decided, before)
    else if op.Seal? && !second then SealChecked(op)
    else Read(op, copy)
  }

  function AfterGet(w: World, t: ThreadId, now: int, c: Config): World
    requires Enabled(w, Get(t, now))
  {
    var op, second := w.threads[t].op, w.threads[t].SealChecked?;
    var before := |LogOf(w, op.id)|;
    if op.id !in w.store then
      w.(threads := w.threads[t := Leaving(op, Failure(Unknown), before)])
    else if w.store[op.id].Expired(now) then
      w.(store := w.store - {op.id}, threads := w.threads[t := Leaving(op, Failure(Error.Expired), before)])
    else
      w.(threads := w.threads[t := AfterRead(op, second, w.store[op.id], before, c)])
  }

  function AfterPut(w: World, t: ThreadId, refused: Option<Error>, c: Config): World
    requires Enabled(w, Put(t, refused))
  {
    var op, copy := w.threads[t].op, w.threads[t].copy;
    var before, decided := |LogOf(w, op.id)|, Decide(copy, op, c);
    if refused.Some? then w.(threads := w.threads[t := Leaving(op, Failure(refused.value), before)])
    else if decided.Failure? then w.(threads := w.threads[t := Leaving(op, decided, before)])
    else w.(store := w.store[op.id := decided.value],
            threads := w.threads[t := Leaving(op, decided, before)],
            log := w.log[op.id := LogOf(w, op.id) + [op]])
  }

  function Next(w: World, s: Step, c: Config): World
    requires Enabled(w, s)
  {
    match s
    case Create(d) => w.(store := w.store[d.id := d], created := w.created[d.id := d])
    case Call(t, op) => w.(threads := w.threads[t := Waiting(op)])
    case Lock(t) =>
      w.(locks := w.locks[w.threads[t].op.id := t], threads := w.threads[t := Holding(w.threads[t].op)])
    case Get(t, now) => AfterGet(w, t, now, c)
    case Put(t, refused) => AfterPut(w, t, refused, c)
    case Unlock(t) =>
      var pc := w.threads[t];
      w.(locks := w.locks - {pc.op.id}, threads := w.threads[t := Returned(pc.op, pc.answer, pc.before)])
    case Remove(ids) => w.(store := w.store - ids)
  }

  predicate EnabledRun(w: World, steps: seq<Step>, c: Config)
    decreases |steps|
  {
    steps == [] || (Enabled(w, steps[0]) && EnabledRun(Next(w, steps[0], c), steps[1..], c))
  }

  function Run(w: World, steps: seq<Step>, c: Config): World
    requires EnabledRun(w, steps, c)
    decreases |steps|
  {
    if steps == [] then w else Run(Next(w, steps[0], c), steps[1..], c)
  }

  // ---------------------------------------------------------------- one by one

  /** The dataset after running accepted calls one by one. */
  function Replay(d: Dataset, ops: seq<Op>, c: Config): Dataset {
    if ops == [] then d
    else
      var before := Replay(d, ops[..|ops| - 1], c);
      match Decide(before, ops[|ops| - 1], c)
      case Success(after) => after
      case Failure(_) => before
  }

  /** Every call in the log was accepted, on a dataset not yet sealed. */
  predicate Accepted(d: Dataset, ops: seq<Op>, c: Config) {
    ops == [] ||
    (var last := |ops| - 1;
     var before := Replay(d, ops[..last], c);
     Accepted(d, ops[..last], c) && !before.Sealed() && Decide(before, ops[last], c).Success?)
  }

  function Serial(w: World, id: DatasetId, c: Config): Dataset
    requires id in w.created
  {
    Replay(w.created[id], LogOf(w, id), c)
  }

  /** An answer is what the calls accepted before it, run one by one, would give. */
  ghost predicate AnswerOk(w: World, op: Op, answer: Answer, before: nat, c: Config) {
    Environmental(answer) ||
    (&& op.id in w.created && before <= |LogOf(w, op.id)|
     && var d := Replay(w.created[op.id], LogOf(w, op.id)[..before], c);
        && answer == Decide(d, op, c)
        && (answer.Success? && !d.Sealed() ==> before < |LogOf(w, op.id)| && LogOf(w, op.id)[before] == op))
  }

  ghost predicate ThreadOk(w: World, t: ThreadId, c: Config)
    requires t in w.threads
  {
    match w.threads[t]
    case Waiting(_) => true
    case Holding(op) => op.id in w.locks && w.locks[op.id] == t
    case SealChecked(op) => op.id in w.locks && w.locks[op.id] == t
    case Read(op, copy) =>
      && op.id in w.locks && w.locks[op.id] == t
      && op.id in w.created && copy == Serial(w, op.id, c)
      && !copy.Sealed() && Decide(copy, op, c).Success?
    case Leaving(op, answer, before) =>
      op.id in w.locks && w.locks[op.id] == t && AnswerOk(w, op, answer, before, c)
    case Returned(op, answer, before) => AnswerOk(w, op, answer, before, c)
  }

  ghost predicate Inv(w: World, c: Config) {
    && w.log.Keys <= w.created.Keys
    && (forall id :: id in w.created ==> Accepted(w.created[id], LogOf(w, id), c))
    && (forall id :: id in w.store ==> id in w.created && w.store[id] == Serial(w, id, c))
    && (forall t :: t in w.threads ==> ThreadOk(w, t, c))
  }

  // ---------------------------------------------------------------- every step keeps the invariant

  lemma {:induction false} AnswerKept(w: World, w': World, op: Op, answer: Answer, before: nat, c: Config)
    requires AnswerOk(w, op, answer, before, c)
    requires forall id :: id in w.created ==> id in w'.created && w'.created[id] == w.created[id]
    requires forall id :: LogOf(w, id) <= LogOf(w', id)
    ensures AnswerOk(w', op, answer, before, c)
  {
    if !Environmental(answer) {
      assert LogOf(w, op.id)[..before] == LogOf(w', op.id)[..before];
    }
  }

  lemma {:induction false} InvCreate(w: World, d: Dataset, c: Config)
    requires Inv(w, c) && Enabled(w, Create(d))
    ensures Inv(Next(w, Create(d), c), c)
  {
    var w' := Next(w, Create(d), c);
    assert LogOf(w, d.id) == [];
    forall t | t in w'.threads
      ensures ThreadOk(w', t, c)
    {
      assert ThreadOk(w, t, c);
      if w.threads[t].Leaving? || w.threads[t].Returned? {
        AnswerKept(w, w', w.threads[t].op, w.threads[t].answer, w.threads[t].before, c);
      }
    }
  }

  /** A thread is judged by its own program counter, the locks, and the history. */
  lemma {:induction false} ThreadFrame(w: World, w': World, t: ThreadId, c: Config)
    requires t in w.threads && ThreadOk(w, t, c)
    requires t in w'.threads && w'.threads[t] == w.threads[t]
    requires w'.locks == w.locks && w'.created == w.created && w'.log == w.log
    ensures ThreadOk(w', t, c)
  {
  }

  lemma {:induction false} ReadOk(w: World, t: ThreadId, pc: Pc, c: Config)
    requires Inv(w, c) && t in w.threads && (w.threads[t].Holding? || w.threads[t].SealChecked?)
    requires var op := w.threads[t].op;
             && op.id in w.store
             && pc == AfterRead(op, w.threads[t].SealChecked?, w.store[op.id], |LogOf(w, op.id)|, c)
    ensures ThreadOk(w.(threads := w.threads[t := pc]), t, c)
  {
    assert ThreadOk(w, t, c);
    var log := LogOf(w, w.threads[t].op.id);
    assert log[..|log|] == log;
  }

  lemma {:induction false} InvGet(w: World, t: ThreadId, now: int, c: Config)
    requires Inv(w, c) && Enabled(w, Get(t, now))
    ensures Inv(AfterGet(w, t, now, c), c)
  {
    var w' := AfterGet(w, t, now, c);
    var op := w.threads[t].op;
    assert w'.locks == w.locks && w'.created == w.created && w'.log == w.log;
    forall u | u in w'.threads
      ensures ThreadOk(w', u, c)
    {
      assert ThreadOk(w, u, c);
      if u != t {
        ThreadFrame(w, w', u, c);
      } else if op.id in w.store && !w.store[op.id].Expired(now) {
        ReadOk(w, t, w'.threads[t], c);
      }
    }
  }

  /** A put leaves every other thread in order: it holds another dataset's lock, or is done. */
  lemma {:induction false} OthersKept(w: World, t: ThreadId, refused: Option<Error>, c: Config, u: ThreadId)
    requires Inv(w, c) && Enabled(w, Put(t, refused)) && u in w.threads && u != t
    ensures ThreadOk(AfterPut(w, t, refused, c), u, c)
  {
    var w' := AfterPut(w, t, refused, c);
    var op := w.threads[t].op;
    assert ThreadOk(w, t, c) && ThreadOk(w, u, c);
    if w.threads[u].Leaving? || w.threads[u].Returned? {
      AnswerKept(w, w', w.threads[u].op, w.threads[u].answer, w.threads[u].before, c);
    } else if w.threads[u].Read? {
      assert w.threads[u].op.id != op.id;
    }
  }

  /** The put that is accepted is the next call in the dataset's serial history. */
  lemma {:induction false} PutExtendsHistory(w: World, t: ThreadId, refused: Option<Error>, c: Config)
    requires Inv(w, c) && Enabled(w, Put(t, refused))
    ensures var w' := AfterPut(w, t, refused, c);
            && w'.log.Keys <= w'.created.Keys
            && (forall id :: id in w'.created ==> Accepted(w'.created[id], LogOf(w', id), c))
            && (forall id :: id in w'.store ==> id in w'.created && w'.store[id] == Serial(w', id, c))
  {
    var op, log := w.threads[t].op, LogOf(w, w.threads[t].op.id);
    assert ThreadOk(w, t, c);
    assert (log + [op])[..|log|] == log;
  }

  lemma {:induction false} InvPut(w: World, t: ThreadId, refused: Option<Error>, c: Config)
    requires Inv(w, c) && Enabled(w, Put(t, refused))
    ensures Inv(AfterPut(w, t, refused, c), c)
  {
    PutExtendsHistory(w, t, refused, c);
    forall u | u in AfterPut(w, t, refused, c).threads
      ensures ThreadOk(AfterPut(w, t, refused, c), u, c)
    {
      if u == t {
      } else {
        OthersKept(w, t, refused, c, u);
      }
    }
  }

  /** Calling, locking, unlocking and removing touch no history. */
  lemma {:induction false} InvAround(w: World, s: Step, c: Config)
    requires Inv(w, c) && Enabled(w, s) && (s.Call? || s.Lock? || s.Unlock? || s.Remove?)
    ensures Inv(Next(w, s, c), c)
  {
    var w' := Next(w, s, c);
    assert w'.created == w.created && w'.log == w.log;
    forall u | u in w'.threads
      ensures ThreadOk(w', u, c)
    {
      if u in w.threads {
        AroundKept(w, s, c, u);
      }
    }
  }

  lemma {:induction false} AroundKept(w: World, s: Step, c: Config, u: ThreadId)
    requires Inv(w, c) && Enabled(w, s) && (s.Call? || s.Lock? || s.Unlock? || s.Remove?) && u in w.threads
    ensures u in Next(w, s, c).threads && ThreadOk(Next(w, s, c), u, c)
  {
    assert ThreadOk(w, u, c);
    if s.Unlock? && u != s.t {
      assert ThreadOk(w, s.t, c);
    }
  }

  lemma {:induction false} InvStep(w: World, s: Step, c: Config)
    requires Inv(w, c) && Enabled(w, s)
    ensures Inv(Next(w, s, c), c)
  {
    match s
    case Create(d) => InvCreate(w, d, c);
    case Get(t, now) => InvGet(w, t, now, c);
    case Put(t, refused) => InvPut(w, t, refused, c);
    case _ => InvAround(w, s, c);
  }

  lemma {:induction false} InvRun(w: World, steps: seq<Step>, c: Config)
    requires Inv(w, c) && EnabledRun(w, steps, c)
    ensures Inv(Run(w, steps, c), c)
    decreases |steps|
  {
    if steps != [] {
      InvStep(w, steps[0], c);
      InvRun(Next(w, steps[0], c), steps[1..], c);
    }
  }

  // ---------------------------------------------------------------- main results

  /** Main result: in every interleaving, a dataset that is in the store is exactly what
      its accepted calls give when run one by one in lock order, and every call that
      returned got the answer it would get at its place in that order, unless the
      dataset was gone or a cap refused the write. */
  lemma {:induction false} ActsOneByOne(steps: seq<Step>, c: Config)
    requires EnabledRun(START, steps, c)
    ensures var w := Run(START, steps, c);
            && (forall id :: id in w.store ==> id in w.created && w.store[id] == Serial(w, id, c))
            && (forall t :: t in w.threads && w.threads[t].Returned? ==>
                  AnswerOk(w, w.threads[t].op, w.threads[t].answer, w.threads[t].before, c))
  {
    InvRun(START, steps, c);
    var w := Run(START, steps, c);
    forall t | t in w.threads && w.threads[t].Returned?
      ensures AnswerOk(w, w.threads[t].op, w.threads[t].answer, w.threads[t].before, c)
    {
      assert ThreadOk(w, t, c);
    }
  }

  /** The last upload accepted into a slot. */
  function LastUpload(ops: seq<Op>, slot: Slot): Option<Source> {
    if ops == [] then None
    else
      var last := ops[|ops| - 1];
      if last.Add? && last.upload.source.slot == slot then Some(last.upload.source)
      else LastUpload(ops[..|ops| - 1], slot)
  }

  lemma {:induction false} ReplayHoldsLastUpload(d: Dataset, ops: seq<Op>, slot: Slot, c: Config)
    requires Accepted(d, ops, c) && d.sources == []
    ensures SourceAt(Replay(d, ops, c).sources, slot) == LastUpload(ops, slot)
    ensures OnePerSlot(Replay(d, ops, c).sources)
    decreases |ops|
  {
    if ops != [] {
      var init, last := ops[..|ops| - 1], ops[|ops| - 1];
      ReplayHoldsLastUpload(d, init, slot, c);
      if last.Add? {
        ReplacedFillsOneSlot(Replay(d, init, c).sources, last.upload.source, slot);
        ReplacedKeepsOnePerSlot(Replay(d, init, c).sources, last.upload.source);
      }
    }
  }

  /** Every dataset starts unsealed, without sources. */
  predicate Blank(d: Dataset) { d.sources == [] && d.sealedAt.None? }

  predicate Neutral(steps: seq<Step>) { forall i :: 0 <= i < |steps| && steps[i].Create? ==> steps[i].d.currency.None? }

  lemma {:induction false} CreatedBlank(w: World, steps: seq<Step>, c: Config)
    requires EnabledRun(w, steps, c)
    requires forall id :: id in w.created ==> Blank(w.created[id])
    ensures forall id :: id in Run(w, steps, c).created ==> Blank(Run(w, steps, c).created[id])
    decreases |steps|
  {
    if steps != [] {
      var w' := Next(w, steps[0], c);
      assert forall id :: id in w'.created ==> Blank(w'.created[id]);
      CreatedBlank(w', steps[1..], c);
      assert Run(w, steps, c) == Run(w', steps[1..], c);
    }
  }

  lemma {:induction false} CreatedNeutral(w: World, steps: seq<Step>, c: Config)
    requires EnabledRun(w, steps, c) && Neutral(steps)
    requires forall id :: id in w.created ==> w.created[id].currency.None?
    ensures forall id :: id in Run(w, steps, c).created ==> Run(w, steps, c).created[id].currency.None?
    decreases |steps|
  {
    if steps != [] {
      var w' := Next(w, steps[0], c);
      assert forall id :: id in w'.created ==> w'.created[id].currency.None?;
      assert forall i :: 0 <= i < |steps| - 1 ==> steps[1..][i] == steps[i + 1];
      CreatedNeutral(w', steps[1..], c);
      assert Run(w, steps, c) == Run(w', steps[1..], c);
    }
  }

  /** Main result: no accepted source is lost. While a dataset is in the store, each of
      its slots holds the upload accepted into it last, and no slot appears twice. */
  lemma {:induction false} NoAcceptedSourceIsLost(steps: seq<Step>, id: DatasetId, slot: Slot, c: Config)
    requires EnabledRun(START, steps, c) && id in Run(START, steps, c).store
    ensures var w := Run(START, steps, c);
            && SourceAt(w.store[id].sources, slot) == LastUpload(LogOf(w, id), slot)
            && OnePerSlot(w.store[id].sources)
  {
    InvRun(START, steps, c);
    CreatedBlank(START, steps, c);
    var w := Run(START, steps, c);
    ReplayHoldsLastUpload(w.created[id], LogOf(w, id), slot, c);
  }

  /** The currencies that accepted uploads name. */
  predicate Names(ops: seq<Op>, currency: string) {
    exists i :: 0 <= i < |ops| && ops[i].Add? && ops[i].upload.currency == Some(currency)
  }

  lemma {:induction false} NamesLast(ops: seq<Op>, op: Op, currency: string)
    ensures Names(ops + [op], currency) <==> Names(ops, currency) || (op.Add? && op.upload.currency == Some(currency))
  {
    var more := ops + [op];
    assert forall i :: 0 <= i < |ops| ==> more[i] == ops[i];
    assert more[|ops|] == op;
  }

  lemma {:induction false} ReplayKeepsOneCurrency(d: Dataset, ops: seq<Op>, currency: string, c: Config)
    requires Accepted(d, ops, c) && d.currency.None?
    ensures Names(ops, currency) <==> Replay(d, ops, c).currency == Some(currency)
    decreases |ops|
  {
    if ops != [] {
      var init, last := ops[..|ops| - 1], ops[|ops| - 1];
      assert ops == init + [last];
      ReplayKeepsOneCurrency(d, init, currency, c);
      NamesLast(init, last, currency);
      if last.Add? {
        var before := Replay(d, init, c);
        AddedMeans(before, last.upload, c);
        if before.currency.Some? {
          ReplayKeepsOneCurrency(d, init, before.currency.value, c);
        }
      }
    }
  }

  /** Main result: no dataset ever mixes currencies. In every interleaving over datasets created
      without one, a currency is named by some accepted upload of a stored dataset if and only
      if it is the dataset's, so all that name one name the same. */
  lemma {:induction false} OneCurrencyThroughout(steps: seq<Step>, id: DatasetId, currency: string, c: Config)
    requires EnabledRun(START, steps, c) && Neutral(steps) && id in Run(START, steps, c).created
    ensures var w := Run(START, steps, c);
            && (id in w.store ==> (Names(LogOf(w, id), currency) <==> w.store[id].currency == Some(currency)))
            && forall other :: Names(LogOf(w, id), currency) && Names(LogOf(w, id), other) ==> other == currency
  {
    var w := Run(START, steps, c);
    InvRun(START, steps, c);
    CreatedNeutral(START, steps, c);
    forall other
      ensures Names(LogOf(w, id), other) <==> Serial(w, id, c).currency == Some(other)
    {
      ReplayKeepsOneCurrency(w.created[id], LogOf(w, id), other, c);
    }
  }

  lemma {:induction false} ReplayKeepsTheRules(d: Dataset, ops: seq<Op>, c: Config)
    requires Accepted(d, ops, c) && Blank(d)
    ensures var r := Replay(d, ops, c); |r.sources| <= c.maxSources && (r.sealedAt.Some? ==> BringsCost(r.sources))
    decreases |ops|
  {
    if ops != [] {
      var init, last := ops[..|ops| - 1], ops[|ops| - 1];
      ReplayKeepsTheRules(d, init, c);
      if last.Add? {
        AddedMeans(Replay(d, init, c), last.upload, c);
        ReplacedFillsOneSlot(Replay(d, init, c).sources, last.upload.source, last.upload.source.slot);
      }
    }
  }

  /** Main result: in every interleaving a stored dataset has at most the allowed number of sources,
      and a sealed one has a cost source with rows. */
  lemma {:induction false} StoredKeepTheRules(steps: seq<Step>, id: DatasetId, c: Config)
    requires EnabledRun(START, steps, c) && id in Run(START, steps, c).store
    ensures var d := Run(START, steps, c).store[id];
            |d.sources| <= c.maxSources && (d.sealedAt.Some? ==> BringsCost(d.sources))
  {
    var w := Run(START, steps, c);
    InvRun(START, steps, c);
    CreatedBlank(START, steps, c);
    ReplayKeepsTheRules(w.created[id], LogOf(w, id), c);
  }

  lemma {:induction false} SealedStep(w: World, s: Step, id: DatasetId, c: Config)
    requires Inv(w, c) && Enabled(w, s) && id in w.created && Serial(w, id, c).Sealed()
    ensures var w' := Next(w, s, c);
            && id in w'.created && w'.created[id] == w.created[id] && LogOf(w', id) == LogOf(w, id)
            && (id in w'.store ==> id in w.store && w'.store[id] == w.store[id])
  {
    match s
    case Put(t, refused) => SealedPut(w, t, refused, id, c);
    case Get(t, now) =>
    case _ =>
  }

  /** No call on a sealed dataset is about to write back. */
  lemma {:induction false} SealedPut(w: World, t: ThreadId, refused: Option<Error>, id: DatasetId, c: Config)
    requires Inv(w, c) && Enabled(w, Put(t, refused)) && id in w.created && Serial(w, id, c).Sealed()
    ensures var w' := Next(w, Put(t, refused), c);
            && w.threads[t].op.id != id && w'.created == w.created && LogOf(w', id) == LogOf(w, id)
            && (id in w'.store ==> id in w.store && w'.store[id] == w.store[id])
  {
    assert ThreadOk(w, t, c);
  }

  /** Main result: a sealed dataset never changes and, once removed, never comes back. */
  lemma {:induction false} SealedIsFinal(w: World, steps: seq<Step>, id: DatasetId, c: Config)
    requires Inv(w, c) && EnabledRun(w, steps, c)
    requires id in w.created && Serial(w, id, c).Sealed()
    ensures var w' := Run(w, steps, c);
            && id in w'.created && Serial(w', id, c) == Serial(w, id, c)
            && (id in w'.store ==> id in w.store && w'.store[id] == w.store[id])
    decreases |steps|
  {
    if steps != [] {
      InvStep(w, steps[0], c);
      SealedStep(w, steps[0], id, c);
      SealedIsFinal(Next(w, steps[0], c), steps[1..], id, c);
    }
  }

  /** A call on this dataset that has read it and will write it back. */
  predicate WriteBackPending(w: World, id: DatasetId) {
    exists t :: t in w.threads && w.threads[t].Read? && w.threads[t].op.id == id
  }

  lemma {:induction false} RemovedStaysRemoved(w: World, steps: seq<Step>, id: DatasetId, c: Config)
    requires EnabledRun(w, steps, c)
    requires id in w.created && id !in w.store && !WriteBackPending(w, id)
    ensures id !in Run(w, steps, c).store
    decreases |steps|
  {
    if steps != [] {
      var w' := Next(w, steps[0], c);
      assert !WriteBackPending(w', id) by {
        forall t | t in w'.threads && w'.threads[t].Read?
          ensures w'.threads[t].op.id != id
        {
          if t in w.threads && w.threads[t] == w'.threads[t] {
          } else {
            assert steps[0].Get?;
          }
        }
      }
      RemovedStaysRemoved(w', steps[1..], id, c);
    }
  }

  lemma {:induction false} WriteBackRestores(w: World, t: ThreadId, id: DatasetId, c: Config)
    requires Inv(w, c) && t in w.threads && w.threads[t].Read? && w.threads[t].op.id == id
    ensures EnabledRun(w, [Put(t, None)], c) && id in Run(w, [Put(t, None)], c).store
    ensures id in w.created && !Serial(w, id, c).Sealed()
  {
  }

  ghost predicate CanReturn(w: World, id: DatasetId, c: Config) {
    exists steps :: EnabledRun(w, steps, c) && id in Run(w, steps, c).store
  }

  /** Exactly when a delete or an expiry can be undone: a removed dataset can return if
      and only if some call read it before it went and has yet to write it back; that
      dataset is then unsealed. */
  lemma {:induction false} RemovalUndoneIff(w: World, id: DatasetId, c: Config)
    requires Inv(w, c) && id in w.created && id !in w.store
    ensures CanReturn(w, id, c) <==> WriteBackPending(w, id)
    ensures WriteBackPending(w, id) ==> !Serial(w, id, c).Sealed()
  {
    if WriteBackPending(w, id) {
      var t :| t in w.threads && w.threads[t].Read? && w.threads[t].op.id == id;
      WriteBackRestores(w, t, id, c);
    } else {
      forall steps | EnabledRun(w, steps, c)
        ensures id !in Run(w, steps, c).store
      {
        RemovedStaysRemoved(w, steps, id, c);
      }
    }
  }

  lemma {:induction false} OneStepMore(w: World, s: Step, rest: seq<Step>, c: Config)
    requires Enabled(w, s) && EnabledRun(Next(w, s, c), rest, c)
    ensures EnabledRun(w, [s] + rest, c) && Run(w, [s] + rest, c) == Run(Next(w, s, c), rest, c)
  {
    assert ([s] + rest)[1..] == rest;
  }

  /** A dataset is created, a call reads it, and a delete removes it. */
  function ReadThenRemoved(d: Dataset, op: Op, now: int): seq<Step> {
    [Create(d)] + ([Call(0, op)] + ([Lock(0)] + ([Get(0, now)] + [Remove({d.id})])))
  }

  lemma {:induction false} ReadThenRemovedRuns(d: Dataset, op: Op, now: int, c: Config)
    requires !d.Sealed() && d.sources == [] && !d.Expired(now) && op.Add? && op.id == d.id && Decide(d, op, c).Success?
    ensures EnabledRun(START, ReadThenRemoved(d, op, now), c)
    ensures Run(START, ReadThenRemoved(d, op, now), c)
         == World(map[], map[d.id := 0], map[0 := Read(op, d)], map[d.id := d], map[])
  {
    var w1 := World(map[d.id := d], map[], map[], map[d.id := d], map[]);
    var w2 := w1.(threads := map[0 := Waiting(op)]);
    var w3 := w1.(locks := map[d.id := 0], threads := map[0 := Holding(op)]);
    var w4 := w3.(threads := map[0 := Read(op, d)]);
    var w5 := w4.(store := map[]);
    assert Next(START, Create(d), c) == w1 && Next(w1, Call(0, op), c) == w2;
    assert Next(w2, Lock(0), c) == w3 && Next(w3, Get(0, now), c) == w4 && Next(w4, Remove({d.id}), c) == w5;
    assert [Remove({d.id})] + [] == [Remove({d.id})] && EnabledRun(w5, [], c);
    OneStepMore(w4, Remove({d.id}), [], c);
    OneStepMore(w3, Get(0, now), [Remove({d.id})], c);
    OneStepMore(w2, Lock(0), [Get(0, now)] + [Remove({d.id})], c);
    OneStepMore(w1, Call(0, op), [Lock(0)] + ([Get(0, now)] + [Remove({d.id})]), c);
    OneStepMore(START, Create(d), [Call(0, op)] + ([Lock(0)] + ([Get(0, now)] + [Remove({d.id})])), c);
  }

  /** A removal is undone, from the empty store: the deleted dataset is stored again, with the
      late upload in it. */
  lemma {:induction false} RemovalIsUndone(d: Dataset, upload: Upload, now: int, c: Config)
    requires !d.Sealed() && d.sources == [] && !d.Expired(now) && Added(d, upload, c).Success?
    ensures var steps := ReadThenRemoved(d, Add(d.id, upload), now);
            && EnabledRun(START, steps, c)
            && var removed := Run(START, steps, c);
               && removed.store == map[] && Enabled(removed, Put(0, None))
               && Next(removed, Put(0, None), c).store == map[d.id := Added(d, upload, c).value]
  {
    ReadThenRemovedRuns(d, Add(d.id, upload), now, c);
  }
}
