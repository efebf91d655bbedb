/**
 The in-process limiter's concurrency permits: a dictionary of semaphores, the
 recorded maximum and active count of each key, and the sweep that drops idle
 semaphores while tasks may still hold references to them.

 A semaphore is an object with identity, so it lives in an `arena` under an id and
 a task keeps the id it was given. Its waiters are futures in a FIFO deque: a
 release hands its slot to the first pending future. The interpreter the repository
 ships on, Python 3.11, runs `asyncio.wait_for(semaphore.acquire())` in a child task,
 so entering takes several event-loop steps: the caller looks the semaphore up, the
 child takes a slot or queues, a queued child wakes, and the caller counts itself.
 Where `wait_for` runs in the caller's own task (Python 3.12 on) these fuse into
 whole steps, treated at the end.
 */
module Permits {
  import opened Common

  type Key = string
  type Task = nat
  type SemId = nat

  datatype Mark = Waiting | Woken | Cancelled
  datatype Entry = Entry(task: Task, mark: Mark)

  /** `key` is what it was created for. `looking` counts the tasks handed this object whose
      child has yet to run, `taken` those whose child has a slot they have yet to count, and
      `holders` the tasks running under it. */
  datatype Semaphore = Semaphore(key: Key, value: int, deque: seq<Entry>, looking: nat, taken: nat, holders: nat)

  datatype State = State(
    semaphores: map<Key, SemId>, maximums: map<Key, int>, active: map<Key, int>,
    arena: map<SemId, Semaphore>, nextId: SemId)

  const EMPTY := State(map[], map[], map[], map[], 0)

  // ---------------------------------------------------------------- the semaphore

  function CountOf(deque: seq<Entry>, mark: Mark): nat {
    if deque == [] then 0 else (if deque[0].mark == mark then 1 else 0) + CountOf(deque[1..], mark)
  }

  predicate AnyAlive(deque: seq<Entry>) {
    deque != [] && (!deque[0].mark.Cancelled? || AnyAlive(deque[1..]))
  }

  predicate Locked(s: Semaphore) { s.value == 0 || AnyAlive(s.deque) }

  predicate AnyPending(deque: seq<Entry>) {
    deque != [] && (deque[0].mark.Waiting? || AnyPending(deque[1..]))
  }

  function WakeFirst(deque: seq<Entry>): seq<Entry> {
    if deque == [] then []
    else if deque[0].mark.Waiting? then [deque[0].(mark := Woken)] + deque[1..]
    else [deque[0]] + WakeFirst(deque[1..])
  }

  /** Hand one free slot to the first pending future, if there are both. */
  function WakeOne(s: Semaphore): Semaphore {
    if s.value > 0 && AnyPending(s.deque)
    then s.(value := s.value - 1, deque := WakeFirst(s.deque))
    else s
  }

  function MarkOf(deque: seq<Entry>, t: Task): Option<Mark> {
    if deque == [] then None
    else if deque[0].task == t then Some(deque[0].mark)
    else MarkOf(deque[1..], t)
  }

  function Without(deque: seq<Entry>, t: Task): seq<Entry> {
    if deque == [] then []
    else if deque[0].task == t then deque[1..]
    else [deque[0]] + Without(deque[1..], t)
  }

  function WithCancelled(deque: seq<Entry>, t: Task): seq<Entry> {
    if deque == [] then []
    else if deque[0].task == t then [deque[0].(mark := Cancelled)] + deque[1..]
    else [deque[0]] + WithCancelled(deque[1..], t)
  }

  // ---------------------------------------------------------------- steps

  datatype PermitError = MaximumNotPositive | MaximumChanged

  function Refusal(st: State, key: Key, maximum: int): Option<PermitError> {
    if maximum < 1 then Some(MaximumNotPositive)
    else if key in st.semaphores && key in st.maximums && st.maximums[key] != maximum then Some(MaximumChanged)
    else None
  }

  function WithSemaphore(st: State, key: Key, maximum: int): State {
    if key in st.semaphores then st
    else State(st.semaphores[key := st.nextId], st.maximums[key := maximum], st.active[key := 0],
               st.arena[st.nextId := Semaphore(key, maximum, [], 0, 0, 0)], st.nextId + 1)
  }

  function Count(active: map<Key, int>, key: Key, default: int): int {
    if key in active then active[key] else default
  }

  function Bumped(active: map<Key, int>, key: Key): map<Key, int> {
    active[key := Count(active, key, 0) + 1]
  }

  function Lowered(active: map<Key, int>, key: Key): map<Key, int> {
    var less := Count(active, key, 1) - 1;
    active[key := if less < 0 then 0 else less]
  }

  function Patched(st: State, id: SemId, s: Semaphore, active: map<Key, int>): State {
    st.(arena := st.arena[id := s], active := active)
  }

  /** Find or create the key's semaphore and start a child task on it. */
  function AfterLook(st: State, key: Key): State
    requires key in st.semaphores && st.semaphores[key] in st.arena
  {
    var s := st.arena[st.semaphores[key]];
    Patched(st, st.semaphores[key], s.(looking := s.looking + 1), st.active)
  }

  /** The child's first step: take a slot at once, or queue behind those already waiting. */
  function Taken(s: Semaphore, t: Task): Semaphore
    requires s.looking > 0
  {
    if Locked(s) then s.(looking := s.looking - 1, deque := s.deque + [Entry(t, Waiting)])
    else s.(looking := s.looking - 1, value := s.value - 1, taken := s.taken + 1)
  }

  /** The queued child runs again. It keeps the slot it was handed and passes on one more if
      one is free; or it was cancelled, and gives back the slot it was handed, if any. */
  function Resumed(s: Semaphore, t: Task, kept: bool): Semaphore {
    var left := s.(deque := Without(s.deque, t));
    if kept then var s' := WakeOne(left); s'.(taken := s'.taken + 1)
    else if MarkOf(s.deque, t) == Some(Woken) then WakeOne(left.(value := left.value + 1))
    else left
  }

  function Counted(s: Semaphore): Semaphore
    requires s.taken > 0
  {
    s.(taken := s.taken - 1, holders := s.holders + 1)
  }

  function Left(s: Semaphore): Semaphore
    requires s.holders > 0
  {
    WakeOne(s.(value := s.value + 1, holders := s.holders - 1))
  }

  predicate Idle(st: State, key: Key) {
    && Count(st.active, key, 0) == 0
    && key in st.semaphores && st.semaphores[key] in st.arena
    && !Locked(st.arena[st.semaphores[key]])
  }

  function IdleKeys(st: State): set<Key> { set k | k in st.semaphores && Idle(st, k) }

  function Dropped(st: State, gone: set<Key>): State {
    st.(semaphores := st.semaphores - gone, maximums := st.maximums - gone, active := st.active - gone)
  }

  datatype Step =
    | Look(key: Key, maximum: int)
    | GiveUp(id: SemId)                     // the child is cancelled before it first runs
    | Take(id: SemId, t: Task)
    | Cancel(id: SemId, t: Task)            // a timeout or cancellation reaches a pending future
    | Wake(id: SemId, t: Task, kept: bool)
    | Bump(id: SemId)                       // the caller counts itself and enters
    | Release(id: SemId)                    // a holder of this semaphore object leaves
    | Evict

  /** A child resumes only once its future is done: handed a slot, which it keeps or gives
      back, or cancelled. */
  predicate Enabled(st: State, step: Step) {
    match step
    case Look(key, _) => key in st.semaphores ==> st.semaphores[key] in st.arena
    case GiveUp(id) => id in st.arena && st.arena[id].looking > 0
    case Take(id, _) => id in st.arena && st.arena[id].looking > 0
    case Cancel(id, t) => id in st.arena && MarkOf(st.arena[id].deque, t) == Some(Waiting)
    case Wake(id, t, kept) =>
      id in st.arena &&
      MarkOf(st.arena[id].deque, t) in (if kept then {Some(Woken)} else {Some(Woken), Some(Cancelled)})
    case Bump(id) => id in st.arena && st.arena[id].taken > 0
    case Release(id) => id in st.arena && st.arena[id].holders > 0
    case Evict => true
  }

  function Next(st: State, step: Step): State
    requires Enabled(st, step)
  {
    match step
    case Look(key, maximum) =>
      if Refusal(st, key, maximum).Some? then st else AfterLook(WithSemaphore(st, key, maximum), key)
    case GiveUp(id) => var s := st.arena[id]; Patched(st, id, s.(looking := s.looking - 1), st.active)
    case Take(id, t) => Patched(st, id, Taken(st.arena[id], t), st.active)
    case Cancel(id, t) =>
      var s := st.arena[id];
      Patched(st, id, s.(deque := WithCancelled(s.deque, t)), st.active)
    case Wake(id, t, kept) => Patched(st, id, Resumed(st.arena[id], t, kept), st.active)
    case Bump(id) =>
      var s := st.arena[id];
      Patched(st, id, Counted(s), Bumped(st.active, s.key))
    case Release(id) => Patched(st, id, Left(st.arena[id]), Lowered(st.active, st.arena[id].key))
    case Evict => Dropped(st, IdleKeys(st))
  }

  predicate EnabledRun(st: State, steps: seq<Step>)
    decreases |steps|
  {
    steps == [] || (Enabled(st, steps[0]) && EnabledRun(Next(st, steps[0]), steps[1..]))
  }

  function Run(st: State, steps: seq<Step>): State
    requires EnabledRun(st, steps)
    decreases |steps|
  {
    if steps == [] then st else Run(Next(st, steps[0]), steps[1..])
  }

  /** Some key about to be swept has a task between looking its semaphore up and counting itself. */
  predicate Harmful(st: State) { exists key :: key in IdleKeys(st) && Between(st.arena[st.semaphores[key]]) }

  predicate Between(s: Semaphore) { s.looking > 0 || s.taken > 0 }

  /** A run in which no sweep drops a semaphore somebody is between lookup and count on. */
  predicate GentleRun(st: State, steps: seq<Step>)
    decreases |steps|
  {
    steps == [] ||
    (Enabled(st, steps[0]) && (steps[0].Evict? ==> !Harmful(st)) && GentleRun(Next(st, steps[0]), steps[1..]))
  }

  // ---------------------------------------------------------------- the invariant

  /** In the dictionary: free slots, slots handed to a future, slots taken but not counted and
      holders add up to the maximum; and no slot stays free while somebody waits, unless a
      future that was handed one is about to pass it on. */
  ghost predicate LiveOk(s: Semaphore, total: int, count: int) {
    && s.value >= 0 && count == s.holders
    && s.value + CountOf(s.deque, Woken) + s.taken + s.holders == total
    && (s.value > 0 && CountOf(s.deque, Waiting) > 0 ==> CountOf(s.deque, Woken) > 0)
  }

  /** Dropped by a sweep: nobody is on the way in or holds it, and only cancelled futures remain. */
  ghost predicate DroppedOk(s: Semaphore) {
    s.value >= 0 && !Between(s) && s.holders == 0 && CountOf(s.deque, Waiting) == 0 && CountOf(s.deque, Woken) == 0
  }

  predicate Current(st: State, id: SemId)
    requires id in st.arena
  {
    st.arena[id].key in st.semaphores && st.semaphores[st.arena[id].key] == id
  }

  ghost predicate SemOk(st: State, id: SemId)
    requires id in st.arena
  {
    var s := st.arena[id];
    if Current(st, id)
    then s.key in st.maximums && s.key in st.active && LiveOk(s, st.maximums[s.key], st.active[s.key])
    else DroppedOk(s)
  }

  ghost predicate Inv(st: State) {
    && st.maximums.Keys == st.semaphores.Keys == st.active.Keys
    && (forall k :: k in st.semaphores ==>
          st.semaphores[k] in st.arena && st.arena[st.semaphores[k]].key == k && st.maximums[k] >= 1)
    && (forall id :: id in st.arena ==> id < st.nextId && SemOk(st, id))
  }

  // ---------------------------------------------------------------- lemmas on one deque

  lemma {:induction false} CountOfAppend(deque: seq<Entry>, e: Entry, mark: Mark)
    ensures CountOf(deque + [e], mark) == CountOf(deque, mark) + (if e.mark == mark then 1 else 0)
  {
    if deque == [] {
      assert deque + [e] == [e];
    } else {
      assert (deque + [e])[1..] == deque[1..] + [e];
      CountOfAppend(deque[1..], e, mark);
    }
  }

  lemma {:induction false} CountOfWithout(deque: seq<Entry>, t: Task, mark: Mark)
    requires MarkOf(deque, t).Some?
    ensures CountOf(Without(deque, t), mark)
         == CountOf(deque, mark) - (if MarkOf(deque, t).value == mark then 1 else 0)
  {
    if deque[0].task != t {
      CountOfWithout(deque[1..], t, mark);
      assert Without(deque, t)[1..] == Without(deque[1..], t);
    }
  }

  lemma {:induction false} CountOfCancelled(deque: seq<Entry>, t: Task)
    requires MarkOf(deque, t) == Some(Waiting)
    ensures CountOf(WithCancelled(deque, t), Woken) == CountOf(deque, Woken)
    ensures CountOf(WithCancelled(deque, t), Waiting) == CountOf(deque, Waiting) - 1
  {
    var after := WithCancelled(deque, t);
    if deque[0].task == t {
      assert after[1..] == deque[1..];
    } else {
      CountOfCancelled(deque[1..], t);
      assert after[1..] == WithCancelled(deque[1..], t);
    }
  }

  lemma {:induction false} CountOfWoken(deque: seq<Entry>)
    requires AnyPending(deque)
    ensures CountOf(WakeFirst(deque), Woken) == CountOf(deque, Woken) + 1
    ensures CountOf(WakeFirst(deque), Waiting) == CountOf(deque, Waiting) - 1
  {
    var after := WakeFirst(deque);
    if deque[0].mark.Waiting? {
      assert after[1..] == deque[1..];
    } else {
      CountOfWoken(deque[1..]);
      assert after[1..] == WakeFirst(deque[1..]);
    }
  }

  lemma {:induction false} AnyMeansCount(deque: seq<Entry>)
    ensures AnyPending(deque) <==> CountOf(deque, Waiting) > 0
    ensures AnyAlive(deque) <==> CountOf(deque, Waiting) + CountOf(deque, Woken) > 0
  {
    if deque != [] {
      AnyMeansCount(deque[1..]);
    }
  }

  /** Waking moves free slots to futures: their total stays. */
  lemma {:induction false} WakeOneProperties(s: Semaphore)
    requires s.value >= 0
    ensures var s' := WakeOne(s);
            && s'.key == s.key && s'.holders == s.holders && s'.taken == s.taken && s'.looking == s.looking && 0 <= s'.value <= s.value
            && s'.value + CountOf(s'.deque, Woken) == s.value + CountOf(s.deque, Woken)
            && CountOf(s'.deque, Waiting) <= CountOf(s.deque, Waiting)
            && (s'.value == s.value > 0 ==> CountOf(s'.deque, Waiting) == 0)
            && (s'.value < s.value ==> CountOf(s'.deque, Woken) > 0)
  {
    AnyMeansCount(s.deque);
    if s.value > 0 && AnyPending(s.deque) {
      CountOfWoken(s.deque);
    }
  }

  // ---------------------------------------------------------------- first come, first served

  predicate Alive(deque: seq<Entry>) { exists i :: 0 <= i < |deque| && !deque[i].mark.Cancelled? }

  lemma {:induction false} AliveMeans(deque: seq<Entry>)
    ensures AnyAlive(deque) <==> Alive(deque)
  {
    if deque != [] {
      AliveMeans(deque[1..]);
      assert forall i :: 0 < i < |deque| ==> deque[i] == deque[1..][i - 1];
      if i :| 0 <= i < |deque[1..]| && !deque[1..][i].mark.Cancelled? {
        assert deque[i + 1] == deque[1..][i];
      }
    }
  }

  /** A newcomer takes a slot at once only if one is free and no future before it is alive;
      otherwise it goes to the end of the queue. */
  lemma {:induction false} NewcomersQueue(s: Semaphore, t: Task)
    requires s.looking > 0
    ensures if s.value == 0 || Alive(s.deque)
            then Taken(s, t) == s.(looking := s.looking - 1, deque := s.deque + [Entry(t, Waiting)])
            else Taken(s, t) == s.(looking := s.looking - 1, value := s.value - 1, taken := s.taken + 1)
  {
    AliveMeans(s.deque);
  }

  /** A free slot goes to the future that has waited longest, and to no other. */
  lemma {:induction false} LongestWaitingFirst(s: Semaphore, first: nat)
    requires s.value > 0 && first < |s.deque| && s.deque[first].mark.Waiting?
    requires forall i :: 0 <= i < first ==> !s.deque[i].mark.Waiting?
    ensures WakeOne(s) == s.(value := s.value - 1, deque := s.deque[first := s.deque[first].(mark := Woken)])
  {
    FirstIsWoken(s.deque, first);
  }

  lemma {:induction false} FirstIsWoken(deque: seq<Entry>, first: nat)
    requires first < |deque| && deque[first].mark.Waiting?
    requires forall i :: 0 <= i < first ==> !deque[i].mark.Waiting?
    ensures AnyPending(deque) && WakeFirst(deque) == deque[first := deque[first].(mark := Woken)]
  {
    if first > 0 {
      var rest := deque[1..];
      assert rest[first - 1] == deque[first];
      FirstIsWoken(rest, first - 1);
      assert deque[first := deque[first].(mark := Woken)] == [deque[0]] + rest[first - 1 := deque[first].(mark := Woken)];
    }
  }

  /** Leaving hands the slot straight to that future, or frees it when nobody waits. */
  lemma {:induction false} LeavingHandsOver(s: Semaphore, first: nat)
    requires s.holders > 0 && s.value >= 0 && first <= |s.deque|
    requires forall i :: 0 <= i < first ==> !s.deque[i].mark.Waiting?
    requires first < |s.deque| ==> s.deque[first].mark.Waiting?
    ensures Left(s) == if first < |s.deque|
                       then s.(holders := s.holders - 1, deque := s.deque[first := s.deque[first].(mark := Woken)])
                       else s.(holders := s.holders - 1, value := s.value + 1)
  {
    var freed := s.(value := s.value + 1, holders := s.holders - 1);
    if first < |s.deque| {
      LongestWaitingFirst(freed, first);
    } else {
      NobodyPends(s.deque);
    }
  }

  lemma {:induction false} NobodyPends(deque: seq<Entry>)
    requires forall i :: 0 <= i < |deque| ==> !deque[i].mark.Waiting?
    ensures !AnyPending(deque)
  {
    if deque != [] {
      NobodyPends(deque[1..]);
    }
  }

  // ---------------------------------------------------------------- every step keeps the invariant

  /** Replacing one semaphore and its key's count is in order when the new one is. */
  ghost predicate PatchOk(st: State, id: SemId, s: Semaphore, active: map<Key, int>)
    requires Inv(st)
  {
    && id in st.arena && s.key == st.arena[id].key && active.Keys == st.active.Keys
    && (forall k :: k in active && st.semaphores[k] != id ==> active[k] == st.active[k])
    && if Current(st, id) then LiveOk(s, st.maximums[s.key], active[s.key]) else DroppedOk(s)
  }

  lemma {:induction false} InvPatch(st: State, id: SemId, s: Semaphore, active: map<Key, int>)
    requires Inv(st) && PatchOk(st, id, s, active)
    ensures Inv(Patched(st, id, s, active))
  {
    var st' := Patched(st, id, s, active);
    forall i | i in st'.arena
      ensures i < st'.nextId && SemOk(st', i)
    {
      assert i != id ==> SemOk(st, i);
    }
  }

  lemma {:induction false} InvCancel(st: State, id: SemId, t: Task)
    requires Inv(st) && Enabled(st, Cancel(id, t))
    ensures Inv(Next(st, Cancel(id, t)))
  {
    assert SemOk(st, id);
    var s := st.arena[id];
    CountOfCancelled(s.deque, t);
    InvPatch(st, id, s.(deque := WithCancelled(s.deque, t)), st.active);
  }

  lemma {:induction false} InvGiveUp(st: State, id: SemId)
    requires Inv(st) && Enabled(st, GiveUp(id))
    ensures Inv(Next(st, GiveUp(id)))
  {
    assert SemOk(st, id);
    var s := st.arena[id];
    InvPatch(st, id, s.(looking := s.looking - 1), st.active);
  }

  lemma {:induction false} TakenLive(s: Semaphore, t: Task, total: int, count: int)
    requires LiveOk(s, total, count) && s.looking > 0
    ensures Taken(s, t).key == s.key && LiveOk(Taken(s, t), total, count)
  {
    AnyMeansCount(s.deque);
    CountOfAppend(s.deque, Entry(t, Waiting), Waiting);
    CountOfAppend(s.deque, Entry(t, Waiting), Woken);
  }

  lemma {:induction false} InvTake(st: State, id: SemId, t: Task)
    requires Inv(st) && Enabled(st, Take(id, t))
    ensures Inv(Next(st, Take(id, t)))
  {
    assert SemOk(st, id);
    var s := st.arena[id];
    TakenLive(s, t, st.maximums[s.key], st.active[s.key]);
    InvPatch(st, id, Taken(s, t), st.active);
  }

  lemma {:induction false} ResumedInOrder(s: Semaphore, t: Task, kept: bool, total: int, count: int)
    requires MarkOf(s.deque, t) in (if kept then {Some(Woken)} else {Some(Woken), Some(Cancelled)})
    ensures Resumed(s, t, kept).key == s.key
    ensures LiveOk(s, total, count) ==> LiveOk(Resumed(s, t, kept), total, count)
    ensures DroppedOk(s) ==> DroppedOk(Resumed(s, t, kept))
  {
    var left := s.(deque := Without(s.deque, t));
    CountOfWithout(s.deque, t, Woken);
    CountOfWithout(s.deque, t, Waiting);
    CountPositive(s.deque, t);
    if s.value >= 0 {
      WakeOneProperties(left);
      WakeOneProperties(left.(value := left.value + 1));
    }
  }

  lemma {:induction false} CountPositive(deque: seq<Entry>, t: Task)
    requires MarkOf(deque, t).Some?
    ensures CountOf(deque, MarkOf(deque, t).value) > 0
  {
    if deque[0].task != t {
      CountPositive(deque[1..], t);
    }
  }

  lemma {:induction false} InvWake(st: State, id: SemId, t: Task, kept: bool)
    requires Inv(st) && Enabled(st, Wake(id, t, kept))
    ensures Inv(Next(st, Wake(id, t, kept)))
  {
    assert SemOk(st, id);
    var s := st.arena[id];
    if Current(st, id) {
      ResumedInOrder(s, t, kept, st.maximums[s.key], st.active[s.key]);
    } else {
      ResumedInOrder(s, t, kept, 0, 0);
    }
    InvPatch(st, id, Resumed(s, t, kept), st.active);
  }

  lemma {:induction false} CountsChange(active: map<Key, int>, key: Key)
    requires key in active
    ensures Bumped(active, key).Keys == active.Keys && Bumped(active, key)[key] == active[key] + 1
    ensures forall k :: k in active && k != key ==> Bumped(active, key)[k] == active[k]
    ensures Lowered(active, key).Keys == active.Keys
    ensures active[key] >= 1 ==> Lowered(active, key)[key] == active[key] - 1
    ensures forall k :: k in active && k != key ==> Lowered(active, key)[k] == active[k]
  {
  }

  lemma {:induction false} OneKeyEach(st: State, id: SemId)
    requires Inv(st) && id in st.arena && Current(st, id)
    ensures st.arena[id].key in st.active && forall k :: k in st.active && st.semaphores[k] != id ==> k != st.arena[id].key
  {
  }

  lemma {:induction false} BumpIsInOrder(st: State, id: SemId)
    requires Inv(st) && id in st.arena && st.arena[id].taken > 0
    ensures PatchOk(st, id, Counted(st.arena[id]), Bumped(st.active, st.arena[id].key))
  {
    var s := st.arena[id];
    TakenIsCurrent(st, id);
    OneKeyEach(st, id);
    CountedLive(s, st.maximums[s.key], st.active[s.key]);
    CountsChange(st.active, s.key);
  }

  lemma {:induction false} TakenIsCurrent(st: State, id: SemId)
    requires Inv(st) && id in st.arena && (st.arena[id].taken > 0 || st.arena[id].holders > 0)
    ensures Current(st, id)
    ensures var s := st.arena[id];
            s.key in st.maximums && s.key in st.active && LiveOk(s, st.maximums[s.key], st.active[s.key])
  {
    assert SemOk(st, id);
  }

  lemma {:induction false} CountedLive(s: Semaphore, total: int, count: int)
    requires LiveOk(s, total, count) && s.taken > 0
    ensures Counted(s).key == s.key && LiveOk(Counted(s), total, count + 1)
  {
  }

  lemma {:induction false} InvBump(st: State, id: SemId)
    requires Inv(st) && Enabled(st, Bump(id))
    ensures Inv(Next(st, Bump(id)))
  {
    BumpIsInOrder(st, id);
    InvPatch(st, id, Counted(st.arena[id]), Bumped(st.active, st.arena[id].key));
  }

  lemma {:induction false} LeftLive(s: Semaphore, total: int, count: int)
    requires LiveOk(s, total, count) && s.holders > 0
    ensures Left(s).key == s.key && LiveOk(Left(s), total, count - 1)
  {
    WakeOneProperties(s.(value := s.value + 1, holders := s.holders - 1));
  }

  lemma {:induction false} ReleaseIsInOrder(st: State, id: SemId)
    requires Inv(st) && id in st.arena && st.arena[id].holders > 0
    ensures PatchOk(st, id, Left(st.arena[id]), Lowered(st.active, st.arena[id].key))
  {
    var s := st.arena[id];
    TakenIsCurrent(st, id);
    OneKeyEach(st, id);
    LeftLive(s, st.maximums[s.key], st.active[s.key]);
    CountsChange(st.active, s.key);
  }

  lemma {:induction false} InvRelease(st: State, id: SemId)
    requires Inv(st) && Enabled(st, Release(id))
    ensures Inv(Next(st, Release(id)))
  {
    ReleaseIsInOrder(st, id);
    InvPatch(st, id, Left(st.arena[id]), Lowered(st.active, st.arena[id].key));
  }

  lemma {:induction false} InvWithSemaphore(st: State, key: Key, maximum: int)
    requires Inv(st) && maximum >= 1
    ensures Inv(WithSemaphore(st, key, maximum))
  {
    if key !in st.semaphores {
      var st' := WithSemaphore(st, key, maximum);
      forall i | i in st'.arena
        ensures i < st'.nextId && SemOk(st', i)
      {
        assert i != st.nextId ==> SemOk(st, i);
      }
    }
  }

  lemma {:induction false} LookIsInOrder(st: State, id: SemId)
    requires Inv(st) && id in st.arena && Current(st, id)
    ensures PatchOk(st, id, st.arena[id].(looking := st.arena[id].looking + 1), st.active)
  {
    assert SemOk(st, id);
  }

  lemma {:induction false} InvAfterLook(st: State, key: Key)
    requires Inv(st) && key in st.semaphores
    ensures Inv(AfterLook(st, key))
  {
    var id := st.semaphores[key];
    LookIsInOrder(st, id);
    InvPatch(st, id, st.arena[id].(looking := st.arena[id].looking + 1), st.active);
  }

  lemma {:induction false} InvLook(st: State, key: Key, maximum: int)
    requires Inv(st) && Enabled(st, Look(key, maximum))
    ensures Inv(Next(st, Look(key, maximum)))
  {
    if Refusal(st, key, maximum).None? {
      InvWithSemaphore(st, key, maximum);
      InvAfterLook(WithSemaphore(st, key, maximum), key);
    }
  }

  /** Main result: a sweep that is not harmful drops only semaphores with every slot free,
      that nobody holds, waits on, or is on the way into. */
  lemma {:induction false} EvictTouchesNobody(st: State, key: Key)
    requires Inv(st) && !Harmful(st) && key in IdleKeys(st)
    ensures var s := st.arena[st.semaphores[key]];
            && s.holders == 0 && !AnyAlive(s.deque) && !Between(s) && s.value == st.maximums[key]
            && DroppedOk(s)
  {
    assert SemOk(st, st.semaphores[key]);
    AnyMeansCount(st.arena[st.semaphores[key]].deque);
  }

  lemma {:induction false} InvEvict(st: State)
    requires Inv(st) && !Harmful(st)
    ensures Inv(Next(st, Evict))
  {
    var gone, st' := IdleKeys(st), Next(st, Evict);
    forall id | id in st'.arena
      ensures id < st'.nextId && SemOk(st', id)
    {
      assert SemOk(st, id);
      var k := st.arena[id].key;
      if Current(st, id) && k in gone {
        EvictTouchesNobody(st, k);
      }
    }
  }

  lemma {:induction false} InvStep(st: State, step: Step)
    requires Inv(st) && Enabled(st, step) && (step.Evict? ==> !Harmful(st))
    ensures Inv(Next(st, step))
  {
    match step
    case Look(key, maximum) => InvLook(st, key, maximum);
    case GiveUp(id) => InvGiveUp(st, id);
    case Take(id, t) => InvTake(st, id, t);
    case Cancel(id, t) => InvCancel(st, id, t);
    case Wake(id, t, kept) => InvWake(st, id, t, kept);
    case Bump(id) => InvBump(st, id);
    case Release(id) => InvRelease(st, id);
    case Evict => InvEvict(st);
  }

  lemma {:induction false} InvRun(st: State, steps: seq<Step>)
    requires Inv(st) && GentleRun(st, steps)
    ensures EnabledRun(st, steps) && Inv(Run(st, steps))
    decreases |steps|
  {
    if steps != [] {
      InvStep(st, steps[0]);
      InvRun(Next(st, steps[0]), steps[1..]);
    }
  }

  // ---------------------------------------------------------------- what gentle runs promise

  /** Main result, over every run with any number of gentle sweeps and re-creations: every
      semaphore object anybody holds, waits on or is on the way into is its key's current one;
      there, free slots, handed-over slots, slots taken but not counted and holders add up to
      the recorded maximum, and the active count is the number of holders. */
  lemma {:induction false} PermitsSurviveEviction(steps: seq<Step>, id: SemId)
    requires GentleRun(EMPTY, steps)
    ensures EnabledRun(EMPTY, steps)
    ensures var st := Run(EMPTY, steps);
            id in st.arena ==>
              var s := st.arena[id];
              && (s.holders > 0 || AnyAlive(s.deque) || Between(s) ==> Current(st, id))
              && (Current(st, id) ==>
                    && s.key in st.maximums && s.key in st.active
                    && s.value + CountOf(s.deque, Woken) + s.taken + s.holders == st.maximums[s.key]
                    && s.value >= 0 && s.holders <= st.maximums[s.key]
                    && st.active[s.key] == s.holders)
  {
    InvRun(EMPTY, steps);
    var st := Run(EMPTY, steps);
    if id in st.arena {
      assert SemOk(st, id);
      AnyMeansCount(st.arena[id].deque);
    }
  }

  /** Main result: nobody is stranded. While a future waits, a holder of the same semaphore is
      still to release it, or a task is still to count itself or to resume with a slot of it. */
  lemma {:induction false} NoStrandedWaiter(steps: seq<Step>, id: SemId)
    requires GentleRun(EMPTY, steps)
    ensures EnabledRun(EMPTY, steps)
    ensures id in Run(EMPTY, steps).arena ==>
              var s := Run(EMPTY, steps).arena[id];
              AnyPending(s.deque) ==> s.holders > 0 || s.taken > 0 || CountOf(s.deque, Woken) > 0
  {
    InvRun(EMPTY, steps);
    var st := Run(EMPTY, steps);
    if id in st.arena {
      assert SemOk(st, id);
      AnyMeansCount(st.arena[id].deque);
    }
  }

  /** The clamp that keeps the active count from going negative is not needed in gentle runs. */
  lemma {:induction false} ClampNeverFires(steps: seq<Step>, id: SemId)
    requires GentleRun(EMPTY, steps)
    ensures EnabledRun(EMPTY, steps)
    ensures var st := Run(EMPTY, steps);
            Enabled(st, Release(id)) ==>
              var key := st.arena[id].key;
              && key in st.active && st.active[key] >= 1
              && Next(st, Release(id)).active[key] == st.active[key] - 1
  {
    InvRun(EMPTY, steps);
    var st := Run(EMPTY, steps);
    if Enabled(st, Release(id)) {
      assert SemOk(st, id);
    }
  }

  /** The tasks running under a key, whichever of its semaphore objects admitted them. */
  function HoldersOf(st: State, key: Key, n: SemId): nat {
    if n == 0 then 0
    else
      HoldersOf(st, key, n - 1)
      + if n - 1 in st.arena && st.arena[n - 1].key == key then st.arena[n - 1].holders else 0
  }

  /** A key with a recorded maximum has no more tasks running than that. */
  predicate WithinMaximum(st: State, key: Key) {
    key in st.maximums ==> HoldersOf(st, key, st.nextId) <= st.maximums[key]
  }

  lemma {:induction false} HoldersAreCurrent(st: State, key: Key, n: SemId)
    requires Inv(st)
    ensures HoldersOf(st, key, n)
         == if key in st.semaphores && st.semaphores[key] < n then st.arena[st.semaphores[key]].holders else 0
  {
    if n > 0 {
      HoldersAreCurrent(st, key, n - 1);
      assert n - 1 in st.arena ==> SemOk(st, n - 1);
    }
  }

  lemma {:induction false} InvWithinMaximum(st: State, key: Key)
    requires Inv(st)
    ensures WithinMaximum(st, key)
  {
    HoldersAreCurrent(st, key, st.nextId);
    if key in st.semaphores {
      assert SemOk(st, st.semaphores[key]);
    }
  }

  // ---------------------------------------------------------------- what a harmful sweep costs

  /** `n` tasks enter one after the other. */
  function Entries(key: Key, maximum: int, id: SemId, n: nat): seq<Step> {
    if n == 0 then [] else [Look(key, maximum), Take(id, 0), Bump(id)] + Entries(key, maximum, id, n - 1)
  }

  predicate Sweepless(steps: seq<Step>) { forall i :: 0 <= i < |steps| ==> !steps[i].Evict? }

  lemma {:induction false} RunAppend(st: State, a: seq<Step>, b: seq<Step>)
    requires EnabledRun(st, a) && EnabledRun(Run(st, a), b)
    ensures EnabledRun(st, a + b) && Run(st, a + b) == Run(Run(st, a), b)
    decreases |a|
  {
    if a == [] {
      assert a + b == b;
    } else {
      RunAppend(Next(st, a[0]), a[1..], b);
      assert (a + b)[1..] == a[1..] + b;
    }
  }

  predicate Room(st: State, key: Key, maximum: int, id: SemId, n: nat) {
    && key in st.semaphores && st.semaphores[key] == id && id in st.arena
    && key in st.maximums && st.maximums[key] == maximum >= 1
    && st.arena[id].key == key && st.arena[id].deque == [] && st.arena[id].value >= n
  }

  lemma {:induction false} EnterOne(st: State, key: Key, maximum: int, id: SemId)
    requires Room(st, key, maximum, id, 1)
    ensures var steps := [Look(key, maximum), Take(id, 0), Bump(id)];
            && EnabledRun(st, steps)
            && var end := Run(st, steps);
               && id in end.arena && end.arena == st.arena[id := end.arena[id]] && end.nextId == st.nextId
               && end.arena[id].holders == st.arena[id].holders + 1
               && Room(end, key, maximum, id, (st.arena[id].value - 1) as nat)
  {
    var s1 := Next(st, Look(key, maximum));
    assert s1.arena[id] == st.arena[id].(looking := st.arena[id].looking + 1);
    var s2 := Next(s1, Take(id, 0));
    assert s2.arena[id].taken == st.arena[id].taken + 1 && s2.arena[id].value == st.arena[id].value - 1;
    var s3 := Next(s2, Bump(id));
    var steps := [Look(key, maximum), Take(id, 0), Bump(id)];
    assert steps[1..] == [Take(id, 0), Bump(id)] && steps[1..][1..] == [Bump(id)] && steps[1..][1..][1..] == [];
    assert EnabledRun(s3, []) && EnabledRun(s2, [Bump(id)]) && Run(s2, [Bump(id)]) == s3;
    assert EnabledRun(s1, steps[1..]) && Run(s1, steps[1..]) == s3;
  }

  lemma {:induction false} EnterMany(st: State, key: Key, maximum: int, id: SemId, n: nat)
    requires Room(st, key, maximum, id, n)
    ensures EnabledRun(st, Entries(key, maximum, id, n)) && Sweepless(Entries(key, maximum, id, n))
    ensures var end := Run(st, Entries(key, maximum, id, n));
            && id in end.arena && end.arena == st.arena[id := end.arena[id]] && end.nextId == st.nextId
            && end.arena[id].holders == st.arena[id].holders + n && end.arena[id].key == key
            && key in end.maximums && end.maximums[key] == maximum
    decreases n
  {
    if n > 0 {
      var one := [Look(key, maximum), Take(id, 0), Bump(id)];
      EnterOne(st, key, maximum, id);
      EnterMany(Run(st, one), key, maximum, id, n - 1);
      RunAppend(st, one, Entries(key, maximum, id, n - 1));
    }
  }

  /** A task on the way into the dropped semaphore enters it after all. */
  function LateEntry(s: Semaphore, id: SemId): seq<Step> { if s.taken > 0 then [Bump(id)] else [Take(id, 0), Bump(id)] }

  lemma {:induction false} LateEntryWorks(st: State, id: SemId)
    requires id in st.arena && Between(st.arena[id]) && !Locked(st.arena[id])
    ensures var steps := LateEntry(st.arena[id], id);
            && EnabledRun(st, steps) && Sweepless(steps)
            && var end := Run(st, steps);
               && id in end.arena && end.arena == st.arena[id := end.arena[id]] && end.nextId == st.nextId
               && end.arena[id].key == st.arena[id].key && end.arena[id].holders == st.arena[id].holders + 1
               && end.semaphores == st.semaphores && end.maximums == st.maximums
  {
    var s := st.arena[id];
    var s1 := if s.taken > 0 then st else Next(st, Take(id, 0));
    var end := Next(s1, Bump(id));
    assert EnabledRun(end, []) && EnabledRun(s1, [Bump(id)]) && Run(s1, [Bump(id)]) == end;
    assert [Take(id, 0), Bump(id)][1..] == [Bump(id)];
  }

  /** A task looks the dropped key up again and is cancelled at once. */
  lemma {:induction false} Recreated(st: State, key: Key, maximum: int)
    requires key !in st.semaphores && maximum >= 1 && st.nextId !in st.arena
    ensures var steps := [Look(key, maximum), GiveUp(st.nextId)];
            && EnabledRun(st, steps) && Sweepless(steps)
            && var end := Run(st, steps);
               && Room(end, key, maximum, st.nextId, maximum) && end.nextId == st.nextId + 1
               && end.arena == st.arena[st.nextId := Semaphore(key, maximum, [], 0, 0, 0)]
  {
    var n := st.nextId;
    var s1 := Next(st, Look(key, maximum));
    assert s1.arena == st.arena[n := Semaphore(key, maximum, [], 1, 0, 0)];
    var end := Next(s1, GiveUp(n));
    assert [Look(key, maximum), GiveUp(n)][1..] == [GiveUp(n)] && [GiveUp(n)][1..] == [];
    assert EnabledRun(end, []) && EnabledRun(s1, [GiveUp(n)]) && Run(s1, [GiveUp(n)]) == end;
    assert end.arena == st.arena[n := Semaphore(key, maximum, [], 0, 0, 0)];
  }

  /** What may follow a harmful sweep: the late entry, then a full house on a fresh semaphore. */
  function Overfill(st: State, key: Key): seq<Step>
    requires key in st.semaphores && st.semaphores[key] in st.arena && key in st.maximums && st.maximums[key] >= 0
  {
    var id, maximum := st.semaphores[key], st.maximums[key];
    LateEntry(st.arena[id], id) + ([Look(key, maximum), GiveUp(st.nextId)] + Entries(key, maximum, st.nextId, maximum))
  }

  lemma {:induction false} HoldersPatched(a: State, b: State, key: Key, id: SemId, n: SemId)
    requires id in a.arena && id in b.arena && b.arena == a.arena[id := b.arena[id]]
    requires a.arena[id].key == b.arena[id].key == key
    ensures HoldersOf(b, key, n) == HoldersOf(a, key, n) + if id < n then b.arena[id].holders - a.arena[id].holders else 0
  {
    if n > 0 {
      HoldersPatched(a, b, key, id, n - 1);
    }
  }

  /** Objects from `n` on do not matter to a count of those below. */
  lemma {:induction false} HoldersBelow(a: State, b: State, key: Key, n: SemId)
    requires forall id :: id < n ==> (id in a.arena <==> id in b.arena) && (id in a.arena ==> a.arena[id] == b.arena[id])
    ensures HoldersOf(a, key, n) == HoldersOf(b, key, n)
  {
    if n > 0 {
      HoldersBelow(a, b, key, n - 1);
    }
  }

  /** Nobody runs under a key that is about to be swept. */
  lemma {:induction false} IdleHasNoHolders(st: State, key: Key)
    requires Inv(st) && key in IdleKeys(st)
    ensures HoldersOf(st, key, st.nextId) == 0 && st.semaphores[key] < st.nextId && key in st.maximums && st.maximums[key] >= 1
    ensures st.arena[st.semaphores[key]].key == key && st.nextId !in st.arena
  {
    HoldersAreCurrent(st, key, st.nextId);
    assert SemOk(st, st.semaphores[key]);
  }

  /** A late entry, and then as many as the maximum on a new object. */
  lemma {:induction false} HoldersAfterAll(swept: State, entered: State, end: State, key: Key, id: SemId, maximum: nat)
    requires HoldersOf(swept, key, swept.nextId) == 0 && id < swept.nextId == entered.nextId && end.nextId == swept.nextId + 1
    requires id in swept.arena && id in entered.arena && entered.arena == swept.arena[id := entered.arena[id]]
    requires swept.arena[id].key == key == entered.arena[id].key && entered.arena[id].holders == swept.arena[id].holders + 1
    requires swept.nextId in end.arena && end.arena == entered.arena[swept.nextId := end.arena[swept.nextId]]
    requires end.arena[swept.nextId].key == key && end.arena[swept.nextId].holders == maximum
    ensures HoldersOf(end, key, end.nextId) == maximum + 1
  {
    HoldersPatched(swept, entered, key, id, swept.nextId);
    HoldersBelow(end, entered, key, swept.nextId);
  }

  /** From a table without the key, with one task still on the way into a dropped object of it:
      that task enters, and then as many as the maximum. */
  lemma {:induction false} LateThenFull(swept: State, key: Key, id: SemId, maximum: nat)
    requires id in swept.arena && Between(swept.arena[id]) && !Locked(swept.arena[id]) && swept.arena[id].key == key
    requires key !in swept.semaphores && maximum >= 1 && id < swept.nextId && swept.nextId !in swept.arena
    requires HoldersOf(swept, key, swept.nextId) == 0
    ensures var steps := LateEntry(swept.arena[id], id)
                         + ([Look(key, maximum), GiveUp(swept.nextId)] + Entries(key, maximum, swept.nextId, maximum));
            && EnabledRun(swept, steps) && Sweepless(steps)
            && var end := Run(swept, steps);
               && key in end.maximums && end.maximums[key] == maximum
               && HoldersOf(end, key, end.nextId) == maximum + 1
  {
    var n := swept.nextId;
    var late, look, fill := LateEntry(swept.arena[id], id), [Look(key, maximum), GiveUp(n)], Entries(key, maximum, n, maximum);
    LateEntryWorks(swept, id);
    var entered := Run(swept, late);
    Recreated(entered, key, maximum);
    var anew := Run(entered, look);
    EnterMany(anew, key, maximum, n, maximum);
    var end := Run(anew, fill);
    RunAppend(entered, look, fill);
    RunAppend(swept, late, look + fill);
    HoldersAfterAll(swept, entered, end, key, id, maximum);
  }

  /** After any harmful sweep there is a way on, without another sweep, to one task more
      running under the key than the maximum recorded for it. */
  lemma {:induction false} HarmfulSweepOverfills(st: State, key: Key)
    requires Inv(st) && key in IdleKeys(st) && Between(st.arena[st.semaphores[key]])
    ensures var swept, steps := Next(st, Evict), Overfill(st, key);
            && EnabledRun(swept, steps) && Sweepless(steps) && !WithinMaximum(Run(swept, steps), key)
            && var end := Run(swept, steps);
               && key in end.maximums && end.maximums[key] == st.maximums[key]
               && HoldersOf(end, key, end.nextId) == st.maximums[key] + 1
  {
    IdleHasNoHolders(st, key);
    HoldersBelow(Next(st, Evict), st, key, st.nextId);
    LateThenFull(Next(st, Evict), key, st.semaphores[key], st.maximums[key]);
  }

  /** However the run goes on before the next sweep, no key exceeds its maximum. */
  ghost predicate StaysWithin(st: State) {
    forall steps, key :: EnabledRun(st, steps) && Sweepless(steps) ==> WithinMaximum(Run(st, steps), key)
  }

  lemma {:induction false} SweeplessIsGentle(st: State, steps: seq<Step>)
    requires EnabledRun(st, steps) && Sweepless(steps)
    ensures GentleRun(st, steps)
    decreases |steps|
  {
    if steps != [] {
      assert !steps[0].Evict?;
      SweeplessIsGentle(Next(st, steps[0]), steps[1..]);
    }
  }

  lemma {:induction false} InvStaysWithin(st: State)
    requires Inv(st)
    ensures StaysWithin(st)
  {
    forall steps, key | EnabledRun(st, steps) && Sweepless(steps)
      ensures WithinMaximum(Run(st, steps), key)
    {
      SweeplessIsGentle(st, steps);
      InvRun(st, steps);
      InvWithinMaximum(Run(st, steps), key);
    }
  }

  /** Exactly when a sweep is safe: no key can exceed its maximum afterwards if and only if the
      sweep drops no semaphore a task is between lookup and count on. */
  lemma {:induction false} SweepIsSafeIff(st: State)
    requires Inv(st)
    ensures StaysWithin(Next(st, Evict)) <==> !Harmful(st)
  {
    if Harmful(st) {
      var key :| key in IdleKeys(st) && Between(st.arena[st.semaphores[key]]);
      HarmfulSweepOverfills(st, key);
    } else {
      InvEvict(st);
      InvStaysWithin(Next(st, Evict));
    }
  }

  ghost predicate SafeThroughout(st: State, steps: seq<Step>)
    requires EnabledRun(st, steps)
    decreases |steps|
  {
    StaysWithin(st) && (steps == [] || SafeThroughout(Next(st, steps[0]), steps[1..]))
  }

  lemma {:induction false} SafeFromIff(st: State, steps: seq<Step>)
    requires Inv(st) && EnabledRun(st, steps)
    ensures SafeThroughout(st, steps) <==> GentleRun(st, steps)
    decreases |steps|
  {
    InvStaysWithin(st);
    if steps != [] {
      if steps[0].Evict? && Harmful(st) {
        SweepIsSafeIff(st);
        assert !StaysWithin(Next(st, steps[0]));
      } else {
        InvStep(st, steps[0]);
        SafeFromIff(Next(st, steps[0]), steps[1..]);
      }
    }
  }

  /** Main result, for every run: at no point of it can holders come to exceed a maximum before
      the next sweep, if and only if none of its sweeps was harmful. */
  lemma {:induction false} RunIsSafeIffGentle(steps: seq<Step>)
    requires EnabledRun(EMPTY, steps)
    ensures SafeThroughout(EMPTY, steps) <==> GentleRun(EMPTY, steps)
  {
    SafeFromIff(EMPTY, steps);
  }

  lemma {:induction false} OneStepMore(st: State, step: Step, rest: seq<Step>)
    requires Enabled(st, step) && EnabledRun(Next(st, step), rest)
    ensures EnabledRun(st, [step] + rest) && Run(st, [step] + rest) == Run(Next(st, step), rest)
  {
    assert ([step] + rest)[1..] == rest;
  }

  /** A first lookup, a sweep before its child has run, and the child's entry all the same. */
  function Overtaken(key: Key, maximum: int): seq<Step> {
    [Look(key, maximum)] + ([Evict] + ([Take(0, 0)] + ([Bump(0)] + [Look(key, maximum)])))
  }

  lemma {:induction false} OvertakenRuns(key: Key, maximum: int)
    requires maximum >= 1
    ensures EnabledRun(EMPTY, Overtaken(key, maximum))
    ensures Run(EMPTY, Overtaken(key, maximum))
         == State(map[key := 1], map[key := maximum], map[key := 0],
                  map[0 := Semaphore(key, maximum - 1, [], 0, 0, 1), 1 := Semaphore(key, maximum, [], 1, 0, 0)], 2)
  {
    var s1 := State(map[key := 0], map[key := maximum], map[key := 0], map[0 := Semaphore(key, maximum, [], 1, 0, 0)], 1);
    var s2 := State(map[], map[], map[], s1.arena, 1);
    var s3 := s2.(arena := map[0 := Semaphore(key, maximum - 1, [], 0, 1, 0)]);
    var s4 := s2.(arena := map[0 := Semaphore(key, maximum - 1, [], 0, 0, 1)], active := map[key := 1]);
    var s5 := State(map[key := 1], map[key := maximum], map[key := 0],
                    map[0 := Semaphore(key, maximum - 1, [], 0, 0, 1), 1 := Semaphore(key, maximum, [], 1, 0, 0)], 2);
    assert Next(EMPTY, Look(key, maximum)) == s1;
    assert IdleKeys(s1) == {key};
    assert Next(s1, Evict) == s2;
    assert Next(s2, Take(0, 0)) == s3;
    assert Next(s3, Bump(0)) == s4;
    assert Next(s4, Look(key, maximum)) == s5;
    assert [Look(key, maximum)][1..] == [] && EnabledRun(s4, [Look(key, maximum)]) && Run(s4, [Look(key, maximum)]) == s5;
    OneStepMore(s3, Bump(0), [Look(key, maximum)]);
    OneStepMore(s2, Take(0, 0), [Bump(0)] + [Look(key, maximum)]);
    OneStepMore(s1, Evict, [Take(0, 0)] + ([Bump(0)] + [Look(key, maximum)]));
    OneStepMore(EMPTY, Look(key, maximum), [Evict] + ([Take(0, 0)] + ([Bump(0)] + [Look(key, maximum)])));
  }

  /** From the empty table: the sweep falls between a lookup and its child's first step, the
      late task runs uncounted, so the clamp is needed when it leaves; and with as many more
      tasks as the maximum, one too many run. */
  lemma {:induction false} SweepLosesAHolder(key: Key, maximum: int)
    requires maximum >= 1
    ensures EnabledRun(EMPTY, Overtaken(key, maximum))
    ensures var end := Run(EMPTY, Overtaken(key, maximum));
            && HoldersOf(end, key, end.nextId) == 1 && end.active == map[key := 0]
            && Enabled(end, Release(0)) && Next(end, Release(0)).active == map[key := 0]
            && Next(end, Release(0)).active[key] != end.active[key] - 1
    ensures var end, more := Run(EMPTY, Overtaken(key, maximum)), Entries(key, maximum, 1, maximum);
            && EnabledRun(end, more)
            && HoldersOf(Run(end, more), key, Run(end, more).nextId) == maximum + 1
            && key in Run(end, more).maximums && Run(end, more).maximums[key] == maximum
  {
    OvertakenRuns(key, maximum);
    var end := Run(EMPTY, Overtaken(key, maximum));
    assert HoldersOf(end, key, 1) == 1 && HoldersOf(end, key, 2) == 1;
    EnterMany(end, key, maximum, 1, maximum);
    var full := Run(end, Entries(key, maximum, 1, maximum));
    assert full.arena[0] == end.arena[0];
    assert HoldersOf(full, key, 1) == 1 && HoldersOf(full, key, 2) == maximum + 1;
  }

  // ---------------------------------------------------------------- whole steps

  /** Steps where `wait_for` runs in the caller's own task: looking up, taking or queueing and
      counting are one, and so are waking with a slot and counting. */
  datatype Whole = Arrive(key: Key, maximum: int, t: Task) | Part(step: Step) | Resume(id: SemId, t: Task)

  function Parts(st: State, w: Whole): seq<Step> {
    match w
    case Arrive(key, maximum, t) =>
      if Refusal(st, key, maximum).Some? then [Look(key, maximum)]
      else
        var id := if key in st.semaphores then st.semaphores[key] else st.nextId;
        [Look(key, maximum), Take(id, t)] + (if id in st.arena && Locked(st.arena[id]) then [] else [Bump(id)])
    case Part(step) => [step]
    case Resume(id, t) => [Wake(id, t, true), Bump(id)]
  }

  /** The steps that stay as they are: cancelling, waking without a slot, leaving, sweeping. */
  predicate EnabledWhole(st: State, w: Whole) {
    match w
    case Arrive(key, _, _) => Enabled(st, Look(key, 1))
    case Part(step) => Enabled(st, step) && (step.Cancel? || (step.Wake? && !step.kept) || step.Release? || step.Evict?)
    case Resume(id, t) => Enabled(st, Wake(id, t, true))
  }

  /** Between whole steps nobody is on the way in. */
  predicate Quiet(st: State) { forall id :: id in st.arena ==> !Between(st.arena[id]) }

  lemma {:induction false} QuietIsGentle(st: State)
    requires Quiet(st)
    ensures !Harmful(st)
  {
  }

  lemma {:induction false} ArriveIsGentle(st: State, key: Key, maximum: int, t: Task)
    requires Quiet(st) && Inv(st)
    ensures var steps := Parts(st, Arrive(key, maximum, t));
            GentleRun(st, steps) && EnabledRun(st, steps) && Quiet(Run(st, steps))
  {
    var steps := Parts(st, Arrive(key, maximum, t));
    var s1 := Next(st, Look(key, maximum));
    if Refusal(st, key, maximum).Some? {
      assert steps[1..] == [];
    } else {
      var id := if key in st.semaphores then st.semaphores[key] else st.nextId;
      assert s1.arena[id].looking == 1 && s1.arena == WithSemaphore(st, key, maximum).arena[id := s1.arena[id]];
      var s2 := Next(s1, Take(id, t));
      var tail := if id in st.arena && Locked(st.arena[id]) then [] else [Bump(id)];
      assert s2.arena == s1.arena[id := s2.arena[id]];
      assert GentleRun(s2, tail) && EnabledRun(s2, tail) && Quiet(Run(s2, tail)) by {
        if tail == [] {
          assert Quiet(s2);
        } else {
          assert s2.arena[id].taken == 1 && s2.arena[id].looking == 0;
          var s3 := Next(s2, Bump(id));
          assert tail[1..] == [] && EnabledRun(s3, []) && GentleRun(s3, []);
          assert s3.arena == s2.arena[id := s3.arena[id]] && Quiet(s3);
          assert Run(s2, tail) == s3;
        }
      }
      assert steps == [Look(key, maximum)] + ([Take(id, t)] + tail);
      OneGentleMore(s1, Take(id, t), tail);
      OneGentleMore(st, Look(key, maximum), [Take(id, t)] + tail);
    }
  }

  lemma {:induction false} OneGentleMore(st: State, step: Step, rest: seq<Step>)
    requires Enabled(st, step) && !step.Evict? && GentleRun(Next(st, step), rest) && EnabledRun(Next(st, step), rest)
    ensures GentleRun(st, [step] + rest) && EnabledRun(st, [step] + rest)
    ensures Run(st, [step] + rest) == Run(Next(st, step), rest)
  {
    assert ([step] + rest)[1..] == rest;
  }

  lemma {:induction false} WholeIsGentle(st: State, w: Whole)
    requires Quiet(st) && Inv(st) && EnabledWhole(st, w)
    ensures GentleRun(st, Parts(st, w)) && EnabledRun(st, Parts(st, w)) && Quiet(Run(st, Parts(st, w)))
  {
    QuietIsGentle(st);
    match w
    case Arrive(key, maximum, t) => ArriveIsGentle(st, key, maximum, t);
    case Part(step) =>
      assert [step][1..] == [];
      assert GentleRun(Next(st, step), []);
    case Resume(id, t) =>
      var s1 := Next(st, Wake(id, t, true));
      assert s1.arena[id].taken == 1;
      var s2 := Next(s1, Bump(id));
      assert Parts(st, w)[1..] == [Bump(id)] && [Bump(id)][1..] == [];
      assert GentleRun(s2, []) && Quiet(s2);
      assert GentleRun(s1, [Bump(id)]) && Run(s1, [Bump(id)]) == s2;
  }

  predicate EnabledWholes(st: State, ws: seq<Whole>)
    decreases |ws|
  {
    ws == [] ||
    (EnabledWhole(st, ws[0]) && EnabledRun(st, Parts(st, ws[0])) && EnabledWholes(Run(st, Parts(st, ws[0])), ws[1..]))
  }

  function AllParts(st: State, ws: seq<Whole>): seq<Step>
    requires EnabledWholes(st, ws)
    decreases |ws|
  {
    if ws == [] then [] else Parts(st, ws[0]) + AllParts(Run(st, Parts(st, ws[0])), ws[1..])
  }

  lemma {:induction false} GentleAppend(st: State, a: seq<Step>, b: seq<Step>)
    requires GentleRun(st, a) && EnabledRun(st, a) && GentleRun(Run(st, a), b)
    ensures GentleRun(st, a + b)
    decreases |a|
  {
    if a == [] {
      assert a + b == b;
    } else {
      GentleAppend(Next(st, a[0]), a[1..], b);
      assert (a + b)[1..] == a[1..] + b;
    }
  }

  lemma {:induction false} WholesFromAreGentle(st: State, ws: seq<Whole>)
    requires Quiet(st) && Inv(st) && EnabledWholes(st, ws)
    ensures GentleRun(st, AllParts(st, ws))
    decreases |ws|
  {
    if ws != [] {
      var first := Parts(st, ws[0]);
      WholeIsGentle(st, ws[0]);
      InvRun(st, first);
      WholesFromAreGentle(Run(st, first), ws[1..]);
      GentleAppend(st, first, AllParts(Run(st, first), ws[1..]));
    }
  }

  /** Corollary: every run of whole steps is gentle, so there no sweep is ever harmful and all
      of the above holds of it without condition. */
  lemma {:induction false} WholeStepsAreGentle(ws: seq<Whole>)
    requires EnabledWholes(EMPTY, ws)
    ensures GentleRun(EMPTY, AllParts(EMPTY, ws))
  {
    WholesFromAreGentle(EMPTY, ws);
  }

  // ---------------------------------------------------------------- the dictionaries, updated in place

  class PermitTable {
    var semaphores: map<Key, SemId>
    var maximums: map<Key, int>
    var active: map<Key, int>
    var arena: map<SemId, Semaphore>
    var nextId: SemId

    ghost function Contents(): State
      reads this
    {
      State(semaphores, maximums, active, arena, nextId)
    }

    constructor ()
      ensures Contents() == EMPTY
    {
      semaphores, maximums, active, arena, nextId := map[], map[], map[], map[], 0;
    }

    /** Find or create the key's semaphore, or refuse, and start the child that will acquire it. */
    method SemaphoreFor(key: Key, maximum: int) returns (r: Result<SemId, PermitError>)
      requires Enabled(Contents(), Look(key, maximum))
      modifies this
      ensures Contents() == Next(old(Contents()), Look(key, maximum))
      ensures r.Failure? <==> Refusal(old(Contents()), key, maximum).Some?
      ensures r.Failure? ==> Some(r.error) == Refusal(old(Contents()), key, maximum) && Contents() == old(Contents())
      ensures r == Failure(MaximumNotPositive) <==> maximum < 1
      ensures r == Failure(MaximumChanged) <==>
                maximum >= 1 && key in old(semaphores) && key in old(maximums) && old(maximums)[key] != maximum
      ensures r.Success? && key in old(semaphores) ==> semaphores == old(semaphores) && maximums == old(maximums)
      ensures r.Success? && key !in old(semaphores) ==> maximums == old(maximums)[key := maximum] && active == old(active)[key := 0]
      ensures r.Success? ==> key in semaphores && semaphores[key] == r.value
    {
      if maximum < 1 {
        return Failure(MaximumNotPositive);
      }
      if key in semaphores {
        if key in maximums && maximums[key] != maximum {
          return Failure(MaximumChanged);
        }
      } else {
        arena := arena[nextId := Semaphore(key, maximum, [], 0, 0, 0)];
        semaphores := semaphores[key := nextId];
        maximums := maximums[key := maximum];
        active := active[key := 0];
        nextId := nextId + 1;
      }
      var id := semaphores[key];
      arena := arena[id := arena[id].(looking := arena[id].looking + 1)];
      return Success(id);
    }

    /** `Semaphore.acquire` up to its first suspension, in the child task. */
    method Acquire(id: SemId, t: Task) returns (took: bool)
      requires Enabled(Contents(), Take(id, t))
      modifies this`arena
      ensures Contents() == Next(old(Contents()), Take(id, t))
      ensures took <==> !Locked(old(arena)[id])
    {
      var s := arena[id];
      s := s.(looking := s.looking - 1);
      took := !(s.value == 0 || AnyAlive(s.deque));
      if took {
        s := s.(value := s.value - 1, taken := s.taken + 1);
      } else {
        s := s.(deque := s.deque + [Entry(t, Waiting)]);
      }
      arena := arena[id := s];
    }

    /** The rest of `Semaphore.acquire`, once the child's future is done. */
    method Resume(id: SemId, t: Task, kept: bool)
      requires Enabled(Contents(), Wake(id, t, kept))
      modifies this`arena
      ensures Contents() == Next(old(Contents()), Wake(id, t, kept))
    {
      var s := arena[id];
      var woken := MarkOf(s.deque, t) == Some(Woken);
      s := s.(deque := Without(s.deque, t));
      if !kept && woken {
        s := s.(value := s.value + 1);
      }
      if woken && s.value > 0 && AnyPending(s.deque) {
        s := s.(value := s.value - 1, deque := WakeFirst(s.deque));
      }
      if kept {
        s := s.(taken := s.taken + 1);
      }
      arena := arena[id := s];
    }

    /** The caller counts itself and enters. */
    method Enter(id: SemId)
      requires Enabled(Contents(), Bump(id))
      modifies this`arena, this`active
      ensures Contents() == Next(old(Contents()), Bump(id))
    {
      var s := arena[id];
      var before := if s.key in active then active[s.key] else 0;
      active := active[s.key := before + 1];
      arena := arena[id := s.(taken := s.taken - 1, holders := s.holders + 1)];
    }

    method Leave(id: SemId)
      requires Enabled(Contents(), Release(id))
      modifies this`arena, this`active
      ensures Contents() == Next(old(Contents()), Release(id))
    {
      var s := arena[id];
      var less := (if s.key in active then active[s.key] else 1) - 1;
      active := active[s.key := if less < 0 then 0 else less];
      s := s.(value := s.value + 1, holders := s.holders - 1);
      if s.value > 0 && AnyPending(s.deque) {
        s := s.(value := s.value - 1, deque := WakeFirst(s.deque));
      }
      arena := arena[id := s];
    }

    method EvictInactive()
      requires forall k :: k in semaphores ==> semaphores[k] in arena
      modifies this
      ensures Contents() == Next(old(Contents()), Evict)
    {
      var left := semaphores.Keys;
      ghost var was := Contents();
      assert Dropped(was, {}) == was && IdleOutside(was, left) == {};
      while left != {}
        invariant left <= semaphores.Keys && was.semaphores.Keys == old(semaphores.Keys)
        invariant Contents() == Dropped(was, IdleOutside(was, left))
      {
        var key :| key in left;
        var count := if key in active then active[key] else 0;
        OneMoreSwept(was, left, key);
        if count == 0 && !Locked(arena[semaphores[key]]) {
          semaphores := semaphores - {key};
          maximums := maximums - {key};
          active := active - {key};
        }
        left := left - {key};
      }
      assert IdleOutside(was, {}) == IdleKeys(was);
    }
  }

  /** The idle keys a sweep has already come past. */
  function IdleOutside(st: State, left: set<Key>): set<Key> {
    set k | k in st.semaphores && k !in left && Idle(st, k)
  }

  lemma {:induction false} OneMoreSwept(st: State, left: set<Key>, key: Key)
    requires key in left && key in st.semaphores && st.semaphores[key] in st.arena
    ensures IdleOutside(st, left - {key}) == IdleOutside(st, left) + (if Idle(st, key) then {key} else {})
    ensures var now := Dropped(st, IdleOutside(st, left));
            && key in now.semaphores && now.semaphores[key] == st.semaphores[key]
            && Count(now.active, key, 0) == Count(st.active, key, 0)
            && (if Idle(st, key)
                then Dropped(st, IdleOutside(st, left - {key}))
                     == now.(semaphores := now.semaphores - {key}, maximums := now.maximums - {key}, active := now.active - {key})
                else Dropped(st, IdleOutside(st, left - {key})) == now)
  {
    var before := IdleOutside(st, left);
    assert key !in before;
    assert IdleOutside(st, left - {key}) == before + (if Idle(st, key) then {key} else {});
    MinusTwice(st.semaphores, before, key);
    MinusTwice(st.maximums, before, key);
    MinusTwice(st.active, before, key);
    assert before + {} == before;
  }

  lemma {:induction false} MinusTwice<T>(m: map<Key, T>, gone: set<Key>, key: Key)
    ensures m - (gone + {key}) == m - gone - {key}
  {
  }
}
