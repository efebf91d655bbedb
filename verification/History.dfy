/**
 The write-behind copy of the job log: every notification snapshots the job's state
 and queues one background write, each write waits for the one before it, and a
 flush waits for the write queued last when it was called.

 A write is two statements, each committed on its own: an upsert of the state and
 an insert-or-ignore of the event.
 */
module History {
  import opened Common
  import Jobs

  type JobId = string
  type Event = Jobs.Event
  type Progress = Jobs.Progress

  datatype Notice = Notice(id: JobId, state: Progress, event: Option<Event>)

  /** The two tables: one state row per job, one event row per job and sequence. */
  datatype Tables = Tables(states: map<JobId, Progress>, events: map<(JobId, nat), Event>)

  const EMPTY := Tables(map[], map[])

  function Save(d: Tables, id: JobId, state: Progress): Tables {
    d.(states := d.states[id := state])
  }

  function SaveEvent(d: Tables, id: JobId, e: Event): Tables {
    if (id, e.sequence) in d.events then d else d.(events := d.events[(id, e.sequence) := e])
  }

  function Written(d: Tables, n: Notice): Tables {
    var saved := Save(d, n.id, n.state);
    if n.event.Some? then SaveEvent(saved, n.id, n.event.value) else saved
  }

  /** What the tables hold once the first `k` notices are written in order. */
  function Effect(log: seq<Notice>, k: nat): Tables
    requires k <= |log|
  {
    if k == 0 then EMPTY else Written(Effect(log, k - 1), log[k - 1])
  }

  // ---------------------------------------------------------------- the tables, updated in place

  /** `keys` lists a job's stored sequence numbers in ascending order. */
  ghost predicate InOrder(d: Tables, id: JobId, keys: seq<nat>) {
    && (forall i, j :: 0 <= i < j < |keys| ==> keys[i] < keys[j])
    && (forall s: nat {:trigger s in keys} :: s in keys <==> (id, s) in d.events)
  }

  /** The job's stored events, all of them, by ascending sequence number. */
  ghost predicate Listed(d: Tables, id: JobId, stored: seq<Event>) {
    exists keys :: InOrder(d, id, keys) && ReadInto(d, id, keys, stored)
  }

  ghost predicate ReadInto(d: Tables, id: JobId, keys: seq<nat>, stored: seq<Event>) {
    |stored| == |keys| && forall i :: 0 <= i < |keys| ==> (id, keys[i]) in d.events && stored[i] == d.events[(id, keys[i])]
  }

  lemma {:induction false} LeastExists(s: set<nat>, y: nat)
    requires y in s
    ensures exists m :: m in s && forall x :: x in s ==> m <= x
    decreases y
  {
    if x :| x in s && x < y {
      LeastExists(s, x);
    }
  }

  method Least(s: set<nat>) returns (m: nat)
    requires s != {}
    ensures m in s && forall x :: x in s ==> m <= x
  {
    var y :| y in s;
    LeastExists(s, y);
    m :| m in s && forall x :: x in s ==> m <= x;
  }

  method Ascending(s: set<nat>) returns (keys: seq<nat>)
    ensures forall i, j :: 0 <= i < j < |keys| ==> keys[i] < keys[j]
    ensures forall x :: x in keys <==> x in s
  {
    keys := [];
    var left := s;
    while left != {}
      invariant forall x :: x in s <==> x in keys || x in left
      invariant forall i, j :: 0 <= i < j < |keys| ==> keys[i] < keys[j]
      invariant forall i, y :: 0 <= i < |keys| && y in left ==> keys[i] < y
    {
      var m := Least(left);
      keys, left := keys + [m], left - {m};
    }
  }

  class InvestigationHistory {
    var states: map<JobId, Progress>
    var events: map<(JobId, nat), Event>

    ghost function Contents(): Tables
      reads this
    {
      Tables(states, events)
    }

    constructor ()
      ensures Contents() == EMPTY
    {
      states, events := map[], map[];
    }

    /** Upsert: the later state replaces the earlier one. */
    method SaveState(id: JobId, state: Progress)
      modifies this
      ensures Contents() == Save(old(Contents()), id, state)
    {
      states := states[id := state];
    }

    /** Insert or ignore: a stored sequence number keeps its first event. */
    method InsertEvent(id: JobId, e: Event)
      modifies this
      ensures Contents() == SaveEvent(old(Contents()), id, e)
    {
      if (id, e.sequence) !in events {
        events := events[(id, e.sequence) := e];
      }
    }

    /** One background write, run to the end. */
    method Write(n: Notice)
      modifies this
      ensures Contents() == Written(old(Contents()), n)
    {
      SaveState(n.id, n.state);
      if n.event.Some? {
        InsertEvent(n.id, n.event.value);
      }
    }

    /** The stored events of one job, by ascending sequence number. */
    method Events(id: JobId) returns (out: seq<Event>)
      ensures Listed(Contents(), id, out)
    {
      var keys := Ascending(set k | k in events && k.0 == id :: k.1);
      assert forall i :: 0 <= i < |keys| ==> keys[i] in keys;
      assert InOrder(Contents(), id, keys);
      out := seq(|keys|, i requires 0 <= i < |keys| && (id, keys[i]) in events reads this => events[(id, keys[i])]);
      assert ReadInto(Contents(), id, keys, out);
    }

    /** A job that is no longer in memory, rebuilt from its rows. */
    method Restore(id: JobId) returns (job: Option<Jobs.Job>)
      ensures job.Some? <==> id in states
      ensures job.Some? ==>
                && Listed(Contents(), id, job.value.events)
                && job.value == Jobs.Restored(states[id], job.value.events)
    {
      var stored := Events(id);
      job := if id in states then Some(Jobs.Restored(states[id], stored)) else None;
    }
  }

  // ---------------------------------------------------------------- background writes

  datatype Phase = Pending | Saved | Done

  /** `log` is every notice in order; task k writes notice k and awaits task k - 1.
      A flush remembers the tail task it awaits as the number of tasks before its end. */
  datatype World = World(log: seq<Notice>, tasks: seq<Phase>, tables: Tables, flushes: map<nat, nat>)

  const START := World([], [], EMPTY, map[])

  datatype Step =
    | Notify(n: Notice)
    | WriteState(k: nat)
    | WriteEvent(k: nat)
    | FlushCall(f: nat)
    | FlushReturn(f: nat)

  predicate Enabled(w: World, s: Step)
    requires |w.tasks| == |w.log|
  {
    match s
    case Notify(_) => true
    case WriteState(k) => k < |w.tasks| && w.tasks[k].Pending? && (k > 0 ==> w.tasks[k - 1].Done?)
    case WriteEvent(k) => k < |w.tasks| && w.tasks[k].Saved?
    case FlushCall(f) => f !in w.flushes
    case FlushReturn(f) =>
      f in w.flushes && w.flushes[f] <= |w.tasks| && (w.flushes[f] > 0 ==> w.tasks[w.flushes[f] - 1].Done?)
  }

  function Next(w: World, s: Step): (w': World)
    requires |w.tasks| == |w.log| && Enabled(w, s)
    ensures |w'.tasks| == |w'.log|
  {
    match s
    case Notify(n) => w.(log := w.log + [n], tasks := w.tasks + [Pending])
    case WriteState(k) =>
      var n := w.log[k];
      w.(tables := Save(w.tables, n.id, n.state), tasks := w.tasks[k := if n.event.Some? then Saved else Done])
    case WriteEvent(k) =>
      var n := w.log[k];
      w.(tables := if n.event.Some? then SaveEvent(w.tables, n.id, n.event.value) else w.tables,
         tasks := w.tasks[k := Done])
    case FlushCall(f) => w.(flushes := w.flushes[f := |w.tasks|])
    case FlushReturn(f) => w.(flushes := w.flushes - {f})
  }

  predicate EnabledRun(w: World, steps: seq<Step>)
    requires |w.tasks| == |w.log|
    decreases |steps|
  {
    steps == [] || (Enabled(w, steps[0]) && EnabledRun(Next(w, steps[0]), steps[1..]))
  }

  function Run(w: World, steps: seq<Step>): (r: World)
    requires |w.tasks| == |w.log| && EnabledRun(w, steps)
    ensures |r.tasks| == |r.log|
    decreases |steps|
  {
    if steps == [] then w else Run(Next(w, steps[0]), steps[1..])
  }

  /** The first `done` writes are complete, at most the next one is half done, and the
      tables hold exactly that much. */
  ghost predicate UpTo(w: World, done: nat) {
    && |w.tasks| == |w.log| && done <= |w.log|
    && (forall i :: 0 <= i < done ==> w.tasks[i].Done?)
    && (forall i :: done < i < |w.tasks| ==> w.tasks[i].Pending?)
    && (done < |w.tasks| ==> !w.tasks[done].Done?)
    && if done < |w.tasks| && w.tasks[done].Saved?
       then w.log[done].event.Some? && w.tables == Save(Effect(w.log, done), w.log[done].id, w.log[done].state)
       else w.tables == Effect(w.log, done)
  }

  lemma {:induction false} EffectOfExtended(log: seq<Notice>, more: seq<Notice>, k: nat)
    requires k <= |log|
    ensures Effect(log + more, k) == Effect(log, k)
  {
    if k > 0 {
      EffectOfExtended(log, more, k - 1);
    }
  }

  function DoneCount(w: World, s: Step, done: nat): nat
    requires |w.tasks| == |w.log| && Enabled(w, s)
  {
    match s
    case WriteState(k) => if w.log[k].event.Some? then done else done + 1
    case WriteEvent(k) => done + 1
    case _ => done
  }

  lemma {:induction false} UpToStep(w: World, s: Step, done: nat)
    requires UpTo(w, done) && Enabled(w, s)
    ensures UpTo(Next(w, s), DoneCount(w, s, done))
  {
    match s
    case Notify(n) =>
      EffectOfExtended(w.log, [n], done);
    case WriteState(k) =>
      assert k == done;
    case WriteEvent(k) =>
      assert k == done;
    case FlushCall(_) =>
    case FlushReturn(_) =>
  }

  lemma {:induction false} UpToRun(w: World, steps: seq<Step>, done: nat) returns (end: nat)
    requires UpTo(w, done) && EnabledRun(w, steps)
    ensures end >= done && UpTo(Run(w, steps), end)
    decreases |steps|
  {
    end := done;
    if steps != [] {
      UpToStep(w, steps[0], done);
      end := UpToRun(Next(w, steps[0]), steps[1..], DoneCount(w, steps[0], done));
    }
  }

  /** The stored copy is a prefix of the notices, or a prefix plus the state half of
      the next write, whose event is then still missing. */
  ghost predicate PrefixOrTorn(log: seq<Notice>, tables: Tables, done: nat) {
    && done <= |log|
    && (tables == Effect(log, done)
        || (done < |log| && log[done].event.Some? && tables == Save(Effect(log, done), log[done].id, log[done].state)))
  }

  /** Main result: at every point of every interleaving of notices, background writes
      and flushes the stored copy is a prefix of the notices in order, up to the gap
      between the two statements of the write in progress; with no write in progress
      it is exactly a prefix. */
  lemma {:induction false} DurableIsAPrefix(steps: seq<Step>) returns (done: nat)
    requires EnabledRun(START, steps)
    ensures var w := Run(START, steps);
            && PrefixOrTorn(w.log, w.tables, done)
            && (Saved !in w.tasks ==> w.tables == Effect(w.log, done))
  {
    done := UpToRun(START, steps, 0);
  }

  /** Main result: when a flush returns, every notice that preceded the flush is stored:
      the copy is a prefix at least that long. */
  lemma {:induction false} FlushIsABarrier(before: seq<Step>, f: nat, after: seq<Step>) returns (done: nat)
    requires EnabledRun(START, before)
    requires Enabled(Run(START, before), FlushCall(f))
    requires EnabledRun(Next(Run(START, before), FlushCall(f)), after)
    requires forall s :: s in after ==> s != FlushReturn(f) && s != FlushCall(f)
    requires Enabled(Run(Next(Run(START, before), FlushCall(f)), after), FlushReturn(f))
    ensures var w := Run(Next(Run(START, before), FlushCall(f)), after);
            done >= |Run(START, before).log| && PrefixOrTorn(w.log, w.tables, done)
  {
    var w0 := Run(START, before);
    var d0 := UpToRun(START, before, 0);
    var w1 := Next(w0, FlushCall(f));
    UpToStep(w0, FlushCall(f), d0);
    done := UpToRun(w1, after, d0);
    TargetKept(w1, after, f);
    assert w0.log == [] || Run(w1, after).tasks[|w0.log| - 1].Done?;
  }

  lemma {:induction false} TargetKept(w: World, steps: seq<Step>, f: nat)
    requires |w.tasks| == |w.log| && EnabledRun(w, steps) && f in w.flushes
    requires forall s :: s in steps ==> s != FlushReturn(f) && s != FlushCall(f)
    ensures f in Run(w, steps).flushes && Run(w, steps).flushes[f] == w.flushes[f]
    ensures |Run(w, steps).log| >= |w.log|
    decreases |steps|
  {
    if steps != [] {
      assert steps[0] in steps && forall s :: s in steps[1..] ==> s in steps;
      TargetKept(Next(w, steps[0]), steps[1..], f);
    }
  }

  // ---------------------------------------------------------------- what a job leaves behind

  /** The events the first `k` notices carry for one job, in order. */
  function EmittedBy(log: seq<Notice>, id: JobId, k: nat): seq<Event>
    requires k <= |log|
  {
    if k == 0 then []
    else
      var n := log[k - 1];
      EmittedBy(log, id, k - 1) + (if n.id == id && n.event.Some? then [n.event.value] else [])
  }

  /** The state the last of the first `k` notices for one job carries. */
  function LatestState(log: seq<Notice>, id: JobId, k: nat): Option<Progress>
    requires k <= |log|
  {
    if k == 0 then None
    else if log[k - 1].id == id then Some(log[k - 1].state)
    else LatestState(log, id, k - 1)
  }

  lemma {:induction false} StateOfAJob(log: seq<Notice>, id: JobId, k: nat)
    requires k <= |log|
    ensures var d := Effect(log, k);
            if id in d.states then LatestState(log, id, k) == Some(d.states[id]) else LatestState(log, id, k) == None
  {
    if k > 0 {
      StateOfAJob(log, id, k - 1);
    }
  }

  lemma {:induction false} LatestIsOneOf(log: seq<Notice>, id: JobId, k: nat)
    requires k <= |log| && LatestState(log, id, k).Some?
    ensures exists i :: 0 <= i < k && log[i].id == id && log[i].state == LatestState(log, id, k).value
  {
    if log[k - 1].id != id {
      LatestIsOneOf(log, id, k - 1);
    } else {
      assert log[k - 1].state == LatestState(log, id, k).value;
    }
  }

  lemma {:induction false} EventsStay(log: seq<Notice>, j: nat, k: nat)
    requires j <= k <= |log|
    ensures forall key :: key in Effect(log, j).events ==> key in Effect(log, k).events
    ensures j > 0 && log[j - 1].event.Some? ==> (log[j - 1].id, log[j - 1].event.value.sequence) in Effect(log, k).events
  {
    if j < k {
      EventsStay(log, j, k - 1);
    }
  }

  /** The gap is real. Whenever a write is half done and its event new, the tables hold its
      state without its event: they match no longer prefix, and not this one either unless the
      state was stored already; and none at all when the job never notified that state before. */
  lemma {:induction false} TornWriteIsNoPrefix(w: World, done: nat)
    requires UpTo(w, done) && done < |w.tasks| && w.tasks[done].Saved?
    requires (w.log[done].id, w.log[done].event.value.sequence) !in Effect(w.log, done).events
    ensures var n := w.log[done];
            && n.id in w.tables.states && w.tables.states[n.id] == n.state
            && (n.id, n.event.value.sequence) !in w.tables.events
            && (forall k :: done < k <= |w.log| ==> w.tables != Effect(w.log, k))
            && (w.tables == Effect(w.log, done) <==> LatestState(w.log, n.id, done) == Some(n.state))
            && ((forall i :: 0 <= i < done && w.log[i].id == n.id ==> w.log[i].state != n.state) ==>
                  forall k :: 0 <= k <= |w.log| ==> w.tables != Effect(w.log, k))
  {
    var n := w.log[done];
    StateOfAJob(w.log, n.id, done);
    forall k | done < k <= |w.log|
      ensures w.tables != Effect(w.log, k)
    {
      EventsStay(w.log, done + 1, k);
    }
    if forall i :: 0 <= i < done && w.log[i].id == n.id ==> w.log[i].state != n.state {
      forall k | 0 <= k <= done
        ensures w.tables != Effect(w.log, k)
      {
        StateOfAJob(w.log, n.id, k);
        if LatestState(w.log, n.id, k).Some? {
          LatestIsOneOf(w.log, n.id, k);
        }
      }
    }
  }

  /** A job's stored rows are exactly these events, each under its own number from 1 on. */
  ghost predicate RowsAre(rows: map<(JobId, nat), Event>, id: JobId, own: seq<Event>) {
    && (forall s: nat :: (id, s) in rows ==> 1 <= s <= |own| && rows[(id, s)] == own[s - 1])
    && forall s: nat :: 1 <= s <= |own| ==> (id, s) in rows
  }

  lemma {:induction false} OneMoreRow(rows: map<(JobId, nat), Event>, id: JobId, own: seq<Event>, e: Event)
    requires RowsAre(rows, id, own) && e.sequence == |own| + 1
    ensures RowsAre(rows[(id, e.sequence) := e], id, own + [e]) && (id, e.sequence) !in rows
  {
  }

  lemma {:induction false} AnothersRow(rows: map<(JobId, nat), Event>, id: JobId, own: seq<Event>, other: JobId, e: Event)
    requires RowsAre(rows, id, own) && other != id
    ensures RowsAre(rows[(other, e.sequence) := e], id, own)
  {
  }

  lemma {:induction false} TablesOfAJob(log: seq<Notice>, id: JobId, k: nat)
    requires k <= |log| && Jobs.Contiguous(EmittedBy(log, id, k))
    ensures RowsAre(Effect(log, k).events, id, EmittedBy(log, id, k))
  {
    if k > 0 {
      var own, before := EmittedBy(log, id, k), EmittedBy(log, id, k - 1);
      var n, rows := log[k - 1], Effect(log, k - 1).events;
      assert before <= own;
      assert Jobs.Contiguous(before) by {
        assert forall i :: 0 <= i < |before| ==> before[i] == own[i];
      }
      TablesOfAJob(log, id, k - 1);
      if n.event.Some? && n.id == id {
        assert own[|before|] == n.event.value;
        OneMoreRow(rows, id, before, n.event.value);
      } else if n.event.Some? {
        AnothersRow(rows, id, before, n.id, n.event.value);
      }
    }
  }

  lemma {:induction false} AscendingFill(keys: seq<nat>, n: nat)
    requires forall i, j :: 0 <= i < j < |keys| ==> keys[i] < keys[j]
    requires forall s: nat :: s in keys <==> 1 <= s <= n
    ensures |keys| == n && forall i :: 0 <= i < n ==> keys[i] == i + 1
  {
    assert keys == [] || keys[0] in keys;
    if n > 0 {
      assert n in keys;
      var last := |keys| - 1;
      assert keys[last] in keys;
      var k :| 0 <= k <= last && keys[k] == n;
      assert k == last;
      var less := keys[..last];
      forall s: nat
        ensures s in less <==> 1 <= s <= n - 1
      {
        if s in less {
          var i :| 0 <= i < last && less[i] == s;
          assert keys[i] in keys && keys[i] < keys[last];
        }
        if 1 <= s <= n - 1 {
          assert s in keys;
          var i :| 0 <= i <= last && keys[i] == s;
          assert less[i] == s;
        }
      }
      AscendingFill(less, n - 1);
    }
  }

  /** Main result: once a job's notices are all stored, reading its rows in sequence
      order yields its latest state and exactly the events it emitted, and the job
      restored from them streams exactly those. */
  lemma {:induction false} RestoredJobStreamsItsLog(log: seq<Notice>, id: JobId, k: nat, stored: seq<Event>)
    requires k <= |log| && Jobs.Contiguous(EmittedBy(log, id, k)) && LatestState(log, id, k).Some?
    requires Listed(Effect(log, k), id, stored)
    ensures var d, own := Effect(log, k), EmittedBy(log, id, k);
            && id in d.states && d.states[id] == LatestState(log, id, k).value
            && stored == own
            && var j := Jobs.Restored(d.states[id], stored);
               j.sequence == |own| && j.events == own && j.events + Jobs.BeforeStop(j.queue) == own
  {
    TablesOfAJob(log, id, k);
    StateOfAJob(log, id, k);
    ListedIsAll(Effect(log, k), id, stored, EmittedBy(log, id, k));
    HighestOfContiguous(stored);
  }

  lemma {:induction false} ListedIsAll(d: Tables, id: JobId, stored: seq<Event>, own: seq<Event>)
    requires Listed(d, id, stored)
    requires RowsAre(d.events, id, own)
    ensures stored == own
  {
    var keys :| InOrder(d, id, keys) && ReadInto(d, id, keys, stored);
    KeysFill(d, id, keys, own);
    ReadAll(d, id, keys, stored, own);
  }

  lemma {:induction false} ReadAll(d: Tables, id: JobId, keys: seq<nat>, stored: seq<Event>, own: seq<Event>)
    requires ReadInto(d, id, keys, stored) && |keys| == |own| && forall i :: 0 <= i < |own| ==> keys[i] == i + 1
    requires RowsAre(d.events, id, own)
    ensures stored == own
  {
    forall i | 0 <= i < |own|
      ensures stored[i] == own[i]
    {
      assert stored[i] == d.events[(id, keys[i])];
    }
  }

  lemma {:induction false} KeysFill(d: Tables, id: JobId, keys: seq<nat>, own: seq<Event>)
    requires InOrder(d, id, keys) && RowsAre(d.events, id, own)
    ensures |keys| == |own| && forall i :: 0 <= i < |own| ==> keys[i] == i + 1
  {
    AscendingFill(keys, |own|);
  }

  lemma {:induction false} HighestFrom(events: seq<Event>, n: nat)
    requires forall i :: 0 <= i < |events| ==> events[i].sequence == n + i + 1
    ensures Jobs.HighestSequence(events) == if events == [] then 0 else n + |events|
    decreases |events|
  {
    if events != [] {
      HighestFrom(events[1..], n + 1);
    }
  }

  lemma {:induction false} HighestOfContiguous(events: seq<Event>)
    requires Jobs.Contiguous(events)
    ensures Jobs.HighestSequence(events) == |events|
  {
    HighestFrom(events, 0);
  }

  /** Why ids must be unique: a second job under one id restarts its sequence at 1, and
      the insert-or-ignore keeps the first job's event beside the second job's state. */
  lemma {:induction false} ReusedIdKeepsFirstEvents(id: JobId, first: Notice, second: Notice)
    requires first.id == second.id == id && first.event.Some? && second.event.Some?
    requires first.event.value.sequence == second.event.value.sequence == 1 && first.event != second.event
    ensures Effect([first, second], 2).states[id] == second.state
    ensures Effect([first, second], 2).events == map[(id, 1) := first.event.value]
  {
    var log := [first, second];
    assert Effect(log, 1) == Written(EMPTY, first);
    assert Effect(log, 2) == Written(Effect(log, 1), second);
    assert Effect(log, 2).events == map[(id, 1) := first.event.value];
  }
}
