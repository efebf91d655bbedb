/**
 Running jobs and their durable copy together: every job posts a notice when it is created,
 emits, starts running, learns its providers' statuses or finishes, and the notices are written behind it.
 */
module WriteBehind {
  import opened Common
  import Jobs
  import opened History

  /** The job objects by id, and the history they post to. */
  datatype World = Live(jobs: map<JobId, Jobs.Job>, history: History.World)

  const START := Live(map[], History.START)

  datatype Step =
    | Create(id: JobId)
    | Emit(id: JobId, stage: string, message: string)
    | MarkRunning(id: JobId)
    | SetProviderStatuses(id: JobId, statuses: seq<Jobs.ProviderStatus>)
    | Finish(id: JobId, error: Option<string>)
    | Background(step: History.Step)   // a write's statement, or a flush called or returning

  ghost predicate Wellformed(w: World) { |w.history.tasks| == |w.history.log| }

  /** Ids are unique, and nobody emits after a job is over. */
  predicate Enabled(w: World, s: Step)
    requires Wellformed(w)
  {
    match s
    case Create(id) => id !in w.jobs
    case Emit(id, _, _) => id in w.jobs && !w.jobs[id].state.status.Over()
    case MarkRunning(id) => id in w.jobs && !w.jobs[id].state.status.Over()
    case SetProviderStatuses(id, _) => id in w.jobs && !w.jobs[id].state.status.Over()
    case Finish(id, _) => id in w.jobs && !w.jobs[id].state.status.Over()
    case Background(step) => !step.Notify? && History.Enabled(w.history, step)
  }

  /** The job changes, and its new state is posted with the event it logged, if any. */
  function Posted(w: World, id: JobId, job: Jobs.Job, event: Option<Event>): (w': World)
    requires Wellformed(w)
    ensures Wellformed(w')
  {
    Live(w.jobs[id := job], History.Next(w.history, Notify(Notice(id, job.state, event))))
  }

  function Next(w: World, s: Step): (w': World)
    requires Wellformed(w) && Enabled(w, s)
    ensures Wellformed(w')
  {
    match s
    case Create(id) => Posted(w, id, Jobs.NewJob(), None)
    case Emit(id, stage, message) =>
      var job := Jobs.Emitted(w.jobs[id], stage, message);
      Posted(w, id, job, Some(job.events[|job.events| - 1]))
    case MarkRunning(id) => Posted(w, id, Jobs.MarkedRunning(w.jobs[id]), None)
    case SetProviderStatuses(id, statuses) => Posted(w, id, Jobs.WithStatuses(w.jobs[id], statuses), None)
    case Finish(id, error) => Posted(w, id, Jobs.Finished(w.jobs[id], error), None)
    case Background(step) => w.(history := History.Next(w.history, step))
  }

  predicate EnabledRun(w: World, steps: seq<Step>)
    requires Wellformed(w)
    decreases |steps|
  {
    steps == [] || (Enabled(w, steps[0]) && EnabledRun(Next(w, steps[0]), steps[1..]))
  }

  function Run(w: World, steps: seq<Step>): (r: World)
    requires Wellformed(w) && EnabledRun(w, steps)
    ensures Wellformed(r)
    decreases |steps|
  {
    if steps == [] then w else Run(Next(w, steps[0]), steps[1..])
  }

  // ---------------------------------------------------------------- the notices are the jobs'

  /** A job's notices carry exactly its log, and the last of them its state. */
  ghost predicate Mirrors(log: seq<Notice>, id: JobId, job: Jobs.Job) {
    && EmittedBy(log, id, |log|) == job.events
    && LatestState(log, id, |log|) == Some(job.state)
    && Jobs.Contiguous(job.events) && job.sequence == |job.events|
  }

  ghost predicate Inv(w: World, done: nat) {
    && UpTo(w.history, done)
    && (forall id :: id in w.jobs ==> Mirrors(w.history.log, id, w.jobs[id]))
    && (forall i :: 0 <= i < |w.history.log| ==> w.history.log[i].id in w.jobs)
    && (forall f :: f in w.history.flushes ==> w.history.flushes[f] <= |w.history.log|)
  }

  lemma {:induction false} NoticesOf(log: seq<Notice>, more: seq<Notice>, id: JobId, k: nat)
    requires k <= |log|
    ensures EmittedBy(log + more, id, k) == EmittedBy(log, id, k)
    ensures LatestState(log + more, id, k) == LatestState(log, id, k)
  {
    if k > 0 {
      NoticesOf(log, more, id, k - 1);
    }
  }

  lemma {:induction false} OneMoreNotice(log: seq<Notice>, n: Notice, id: JobId)
    ensures EmittedBy(log + [n], id, |log| + 1)
         == EmittedBy(log, id, |log|) + (if n.id == id && n.event.Some? then [n.event.value] else [])
    ensures LatestState(log + [n], id, |log| + 1) == if n.id == id then Some(n.state) else LatestState(log, id, |log|)
  {
    NoticesOf(log, [n], id, |log|);
  }

  lemma {:induction false} NothingYet(log: seq<Notice>, id: JobId, k: nat)
    requires k <= |log| && forall i :: 0 <= i < k ==> log[i].id != id
    ensures EmittedBy(log, id, k) == [] && LatestState(log, id, k) == None
  {
    if k > 0 {
      NothingYet(log, id, k - 1);
    }
  }

  predicate Extends(w: World, id: JobId, job: Jobs.Job, event: Option<Event>) {
    && Jobs.Contiguous(job.events) && job.sequence == |job.events|
    && job.events == (if id in w.jobs then w.jobs[id].events else []) + (if event.Some? then [event.value] else [])
  }

  lemma {:induction false} MirrorsPosted(w: World, done: nat, id: JobId, job: Jobs.Job, event: Option<Event>, other: JobId)
    requires Inv(w, done) && Extends(w, id, job, event) && (other == id || other in w.jobs)
    ensures Mirrors(w.history.log + [Notice(id, job.state, event)], other, if other == id then job else w.jobs[other])
  {
    var log := w.history.log;
    OneMoreNotice(log, Notice(id, job.state, event), other);
    if other in w.jobs {
      assert Mirrors(log, other, w.jobs[other]);
    } else {
      NothingYet(log, other, |log|);
    }
  }

  lemma {:induction false} InvPosted(w: World, done: nat, id: JobId, job: Jobs.Job, event: Option<Event>)
    requires Inv(w, done) && Extends(w, id, job, event)
    ensures Inv(Posted(w, id, job, event), done)
  {
    var w' := Posted(w, id, job, event);
    UpToStep(w.history, Notify(Notice(id, job.state, event)), done);
    forall i | i in w'.jobs
      ensures Mirrors(w'.history.log, i, w'.jobs[i])
    {
      MirrorsPosted(w, done, id, job, event, i);
    }
  }

  lemma {:induction false} InvStep(w: World, s: Step, done: nat) returns (end: nat)
    requires Inv(w, done) && Enabled(w, s)
    ensures end >= done && Inv(Next(w, s), end)
  {
    end := done;
    match s
    case Create(id) => InvPosted(w, done, id, Jobs.NewJob(), None);
    case Emit(id, stage, message) =>
      assert Mirrors(w.history.log, id, w.jobs[id]);
      var job := Jobs.Emitted(w.jobs[id], stage, message);
      InvPosted(w, done, id, job, Some(job.events[|job.events| - 1]));
    case MarkRunning(id) =>
      assert Mirrors(w.history.log, id, w.jobs[id]);
      InvPosted(w, done, id, Jobs.MarkedRunning(w.jobs[id]), None);
    case SetProviderStatuses(id, statuses) =>
      assert Mirrors(w.history.log, id, w.jobs[id]);
      InvPosted(w, done, id, Jobs.WithStatuses(w.jobs[id], statuses), None);
    case Finish(id, error) =>
      assert Mirrors(w.history.log, id, w.jobs[id]);
      InvPosted(w, done, id, Jobs.Finished(w.jobs[id], error), None);
    case Background(step) =>
      UpToStep(w.history, step, done);
      end := DoneCount(w.history, step, done);
  }

  lemma {:induction false} InvRun(w: World, steps: seq<Step>, done: nat) returns (end: nat)
    requires Inv(w, done) && EnabledRun(w, steps)
    ensures end >= done && Inv(Run(w, steps), end)
    decreases |steps|
  {
    end := done;
    if steps != [] {
      end := InvStep(w, steps[0], done);
      end := InvRun(Next(w, steps[0]), steps[1..], end);
    }
  }

  // ---------------------------------------------------------------- what storage gives back

  lemma {:induction false} EmittedGrows(log: seq<Notice>, id: JobId, j: nat, k: nat)
    requires j <= k <= |log|
    ensures EmittedBy(log, id, j) <= EmittedBy(log, id, k)
    ensures (forall i :: j <= i < k ==> log[i].id != id) ==>
              EmittedBy(log, id, j) == EmittedBy(log, id, k) && LatestState(log, id, j) == LatestState(log, id, k)
  {
    if j < k {
      EmittedGrows(log, id, j, k - 1);
    }
  }

  /** Whatever is being written, the events are those of the writes that are complete. */
  lemma {:induction false} StoredEvents(w: World, done: nat, id: JobId, stored: seq<Event>)
    requires Inv(w, done) && id in w.jobs && Listed(w.history.tables, id, stored)
    ensures stored == EmittedBy(w.history.log, id, done) <= w.jobs[id].events
  {
    var log := w.history.log;
    assert Mirrors(log, id, w.jobs[id]);
    EmittedGrows(log, id, done, |log|);
    var own := EmittedBy(log, id, done);
    assert forall i :: 0 <= i < |own| ==> own[i] == w.jobs[id].events[i];
    TablesOfAJob(log, id, done);
    assert w.history.tables.events == Effect(log, done).events;
    ListedIsAll(w.history.tables, id, stored, own);
  }

  /** Main result: at every point of every run of jobs, writes and flushes, what storage lists
      of a job's events is an in-order prefix of the live job's log. */
  lemma {:induction false} StorageTrailsTheJob(steps: seq<Step>, id: JobId, stored: seq<Event>)
    requires EnabledRun(START, steps)
    ensures var w := Run(START, steps);
            id in w.jobs && Listed(w.history.tables, id, stored) ==> stored <= w.jobs[id].events
  {
    var w := Run(START, steps);
    var done := InvRun(START, steps, 0);
    if id in w.jobs && Listed(w.history.tables, id, stored) {
      StoredEvents(w, done, id, stored);
    }
  }

  /** Nothing has been posted for the job since the flush was called. */
  predicate QuietSince(w: World, f: nat, id: JobId)
    requires f in w.history.flushes
  {
    forall i :: w.history.flushes[f] <= i < |w.history.log| ==> w.history.log[i].id != id
  }

  lemma {:induction false} FlushedState(w: World, done: nat, f: nat, id: JobId)
    requires Inv(w, done) && id in w.jobs && f in w.history.flushes
    requires History.Enabled(w.history, FlushReturn(f)) && QuietSince(w, f, id)
    ensures id in w.history.tables.states && w.history.tables.states[id] == w.jobs[id].state
    ensures EmittedBy(w.history.log, id, done) == w.jobs[id].events
  {
    var log := w.history.log;
    assert Mirrors(log, id, w.jobs[id]);
    assert done >= w.history.flushes[f];
    EmittedGrows(log, id, done, |log|);
    StateOfAJob(log, id, done);
  }

  /** Main result: when a flush returns, a job that has posted nothing since it was called reads
      back exactly: its row holds the live job's state, its rows are the live job's log, and
      the job restored from them streams that log and nothing else. */
  lemma {:induction false} FlushedJobReadsBack(steps: seq<Step>, f: nat, id: JobId, stored: seq<Event>)
    requires EnabledRun(START, steps)
    ensures var w := Run(START, steps);
            id in w.jobs && f in w.history.flushes && History.Enabled(w.history, FlushReturn(f)) && QuietSince(w, f, id)
            && Listed(w.history.tables, id, stored) ==>
              && id in w.history.tables.states && w.history.tables.states[id] == w.jobs[id].state
              && stored == w.jobs[id].events
              && var j := Jobs.Restored(w.history.tables.states[id], stored);
                 && j.state == w.jobs[id].state && j.sequence == w.jobs[id].sequence
                 && j.events + Jobs.BeforeStop(j.queue) == w.jobs[id].events
  {
    var w := Run(START, steps);
    var done := InvRun(START, steps, 0);
    if id in w.jobs && f in w.history.flushes && History.Enabled(w.history, FlushReturn(f)) && QuietSince(w, f, id)
       && Listed(w.history.tables, id, stored) {
      StoredEvents(w, done, id, stored);
      FlushedState(w, done, f, id);
      assert Mirrors(w.history.log, id, w.jobs[id]);
      HighestOfContiguous(stored);
    }
  }
}
