/**
 An investigation job's event log and the queue behind its live stream: emitting,
 finishing, restoring from storage, and one subscriber at a time replaying the log
 and then draining the queue while the job keeps running.
 */
module Jobs {
  import opened Common

  datatype Status = Queued | Running | Completed | Failed {
    predicate Over() { Completed? || Failed? }
  }

  datatype Event = Event(sequence: nat, stage: string, message: string)

  datatype ProviderStatus = ProviderStatus(provider: string, status: string, message: string, findings: nat)

  datatype Progress = Progress(
    status: Status, stage: string, message: string, error: Option<string>, providers: seq<ProviderStatus>)

  /** The job's fields; `None` in the queue tells the subscriber to stop. */
  datatype Job = Job(state: Progress, events: seq<Event>, sequence: nat, queue: seq<Option<Event>>)

  function NewJob(): Job { Job(Progress(Queued, "", "", None, []), [], 0, []) }

  function Emitted(j: Job, stage: string, message: string): Job {
    var e := Event(j.sequence + 1, stage, message);
    Job(j.state.(stage := stage, message := message), j.events + [e], j.sequence + 1, j.queue + [Some(e)])
  }

  function Finished(j: Job, error: Option<string>): Job {
    j.(state := j.state.(status := if error.Some? && error.value != "" then Failed else Completed, error := error),
       queue := j.queue + [None])
  }

  function MarkedRunning(j: Job): Job { j.(state := j.state.(status := Running)) }

  function WithStatuses(j: Job, statuses: seq<ProviderStatus>): Job { j.(state := j.state.(providers := statuses)) }

  function HighestSequence(events: seq<Event>): nat {
    if events == [] then 0
    else
      var rest := HighestSequence(events[1..]);
      if events[0].sequence > rest then events[0].sequence else rest
  }

  function Restored(state: Progress, events: seq<Event>): Job {
    Job(state, events, HighestSequence(events), [None])
  }

  /** Sequence numbers run 1, 2, 3, ... in log order. */
  predicate Contiguous(events: seq<Event>) {
    forall i :: 0 <= i < |events| ==> events[i].sequence == i + 1
  }

  // ---------------------------------------------------------------- the job object

  class InvestigationJob {
    var state: Progress
    var events: seq<Event>
    var sequence: nat
    var queue: seq<Option<Event>>

    ghost function Contents(): Job
      reads this
    {
      Job(state, events, sequence, queue)
    }

    constructor ()
      ensures Contents() == NewJob()
    {
      state, events, sequence, queue := Progress(Queued, "", "", None, []), [], 0, [];
    }

    constructor FromStorage(saved: Progress, stored: seq<Event>)
      ensures Contents() == Restored(saved, stored)
    {
      state, events, queue := saved, stored, [None];
      new;
      var highest := 0;
      for i := |stored| downto 0
        invariant state == saved && events == stored && queue == [None]
        invariant highest == HighestSequence(stored[i..])
      {
        if stored[i].sequence > highest {
          highest := stored[i].sequence;
        }
      }
      sequence := highest;
      assert stored[0..] == stored;
    }

    method Emit(stage: string, message: string) returns (e: Event)
      modifies this
      ensures Contents() == Emitted(old(Contents()), stage, message)
      ensures events == old(events) + [e]
    {
      sequence := sequence + 1;
      e := Event(sequence, stage, message);
      events := events + [e];
      state := state.(stage := stage, message := message);
      queue := queue + [Some(e)];
    }

    method Finish(error: Option<string>)
      modifies this
      ensures Contents() == Finished(old(Contents()), error)
    {
      state := state.(status := if error.Some? && error.value != "" then Failed else Completed, error := error);
      queue := queue + [None];
    }

    method MarkRunning()
      modifies this
      ensures Contents() == MarkedRunning(old(Contents()))
    {
      state := state.(status := Running);
    }

    method SetProviderStatuses(statuses: seq<ProviderStatus>)
      modifies this
      ensures Contents() == WithStatuses(old(Contents()), statuses)
    {
      state := state.(providers := statuses);
    }

    /** The stream of a job no producer touches meanwhile, such as a restored one. */
    method StreamQuiet() returns (out: seq<Event>)
      requires state.status.Over() || None in queue
      modifies this`queue
      ensures state.status.Over() ==> out == events && queue == old(queue)
      ensures !state.status.Over() ==> out == events + BeforeStop(old(queue))
    {
      out := [];
      for i := 0 to |events|
        invariant out == events[..i]
      {
        out := out + [events[i]];
      }
      if state.status.Over() {
        return;
      }
      while true
        invariant None in queue
        invariant out + BeforeStop(queue) == events + BeforeStop(old(queue))
        decreases |queue|
      {
        var item := queue[0];
        queue := queue[1..];
        if item.None? {
          return;
        }
        out := out + [item.value];
      }
    }
  }

  /** The queued events in front of the first stop marker. */
  function BeforeStop(queue: seq<Option<Event>>): seq<Event> {
    if queue == [] || queue[0].None? then [] else [queue[0].value] + BeforeStop(queue[1..])
  }

  // ---------------------------------------------------------------- the stream beside a running job

  datatype Phase =
    | Away
    | Replaying(snapshot: seq<Event>, next: nat)
    | Draining
    | Closed(drained: bool, shown: nat)

  /** `view` is the console's list, kept free of repeated sequence numbers. `taken`
      counts events ever taken off the queue, by this subscriber or an earlier one. */
  datatype World = World(job: Job, phase: Phase, view: seq<Event>, taken: nat, stopTaken: bool)

  datatype Step =
    | Emit(stage: string, message: string)
    | Finish(error: Option<string>)
    | MarkRunning
    | SetProviderStatuses(statuses: seq<ProviderStatus>)
    | Subscribe      // the previous subscriber, if any, is gone
    | ReplayNext
    | EndReplay
    | Pull
    | Abandon

  const START := World(NewJob(), Away, [], 0, false)

  /** The console keeps an event unless one with its sequence number is already there. */
  function Shown(view: seq<Event>, e: Event): seq<Event> {
    if exists i :: 0 <= i < |view| && view[i].sequence == e.sequence then view else view + [e]
  }

  predicate Enabled(w: World, s: Step) {
    match s
    case Emit(_, _) => !w.job.state.status.Over()
    case Finish(_) => !w.job.state.status.Over()
    case MarkRunning => !w.job.state.status.Over()
    case SetProviderStatuses(_) => !w.job.state.status.Over()
    case Subscribe => w.phase.Away? || w.phase.Closed?
    case ReplayNext => w.phase.Replaying? && w.phase.next < |w.phase.snapshot|
    case EndReplay => w.phase.Replaying? && w.phase.next == |w.phase.snapshot|
    case Pull => w.phase.Draining? && w.job.queue != []
    case Abandon => w.phase.Replaying? || w.phase.Draining?
  }

  function Next(w: World, s: Step): World
    requires Enabled(w, s)
  {
    match s
    case Emit(stage, message) => w.(job := Emitted(w.job, stage, message))
    case Finish(error) => w.(job := Finished(w.job, error))
    case MarkRunning => w.(job := MarkedRunning(w.job))
    case SetProviderStatuses(statuses) => w.(job := WithStatuses(w.job, statuses))
    case Subscribe => w.(phase := Replaying(w.job.events, 0), view := [])
    case ReplayNext =>
      w.(phase := w.phase.(next := w.phase.next + 1), view := Shown(w.view, w.phase.snapshot[w.phase.next]))
    case EndReplay =>
      w.(phase := if w.job.state.status.Over() then Closed(false, |w.phase.snapshot|) else Draining)
    case Pull =>
      var item, rest := w.job.queue[0], w.job.(queue := w.job.queue[1..]);
      if item.None? then w.(job := rest, phase := Closed(true, |w.job.events|), stopTaken := true)
      else w.(job := rest, view := Shown(w.view, item.value), taken := w.taken + 1)
    case Abandon => w.(phase := Away)
  }

  predicate EnabledRun(w: World, steps: seq<Step>)
    decreases |steps|
  {
    steps == [] || (Enabled(w, steps[0]) && EnabledRun(Next(w, steps[0]), steps[1..]))
  }

  function Run(w: World, steps: seq<Step>): World
    requires EnabledRun(w, steps)
    decreases |steps|
  {
    if steps == [] then w else Run(Next(w, steps[0]), steps[1..])
  }

  function Wrapped(events: seq<Event>): seq<Option<Event>> {
    seq(|events|, i requires 0 <= i < |events| => Some(events[i]))
  }

  ghost predicate Inv(w: World) {
    var log := w.job.events;
    && Contiguous(log) && w.job.sequence == |log|
    && w.taken <= |log| && (w.stopTaken ==> w.job.state.status.Over())
    && w.job.queue == Wrapped(log[w.taken..]) + (if w.job.state.status.Over() && !w.stopTaken then [None] else [])
    && w.view <= log
    && match w.phase
       case Away => true
       case Replaying(snapshot, next) =>
         snapshot <= log && w.taken <= |snapshot| && next <= |snapshot| && |w.view| == next
       case Draining => w.taken <= |w.view| && !w.stopTaken
       case Closed(drained, shown) =>
         w.job.state.status.Over() && |w.view| == shown && (drained ==> w.view == log)
  }

  /** The console list gains the event that continues it and ignores one it has. */
  lemma {:induction false} ShownPrefix(log: seq<Event>, view: seq<Event>, i: nat)
    requires Contiguous(log) && view <= log && i < |log| && i <= |view|
    ensures Shown(view, log[i]) == if i < |view| then view else log[..i + 1]
  {
  }

  lemma {:induction false} InvEmit(w: World, stage: string, message: string)
    requires Inv(w) && Enabled(w, Emit(stage, message))
    ensures Inv(Next(w, Emit(stage, message)))
  {
  }

  lemma {:induction false} InvPull(w: World)
    requires Inv(w) && Enabled(w, Pull)
    ensures Inv(Next(w, Pull))
  {
  }

  lemma {:induction false} InvStep(w: World, s: Step)
    requires Inv(w) && Enabled(w, s)
    ensures Inv(Next(w, s))
  {
    match s
    case Emit(stage, message) => InvEmit(w, stage, message);
    case Pull => InvPull(w);
    case ReplayNext => ShownPrefix(w.job.events, w.view, w.phase.next);
    case _ =>
  }

  lemma {:induction false} InvRun(w: World, steps: seq<Step>)
    requires Inv(w) && EnabledRun(w, steps)
    ensures Inv(Run(w, steps))
    decreases |steps|
  {
    if steps != [] {
      InvStep(w, steps[0]);
      InvRun(Next(w, steps[0]), steps[1..]);
    }
  }

  /** The events logged since the last subscription, `n` being those before these steps. */
  function LoggedSince(steps: seq<Step>, n: nat): nat {
    if steps == [] then n
    else LoggedSince(steps[1..], if steps[0].Subscribe? then 0 else if steps[0].Emit? then n + 1 else n)
  }

  /** What a replay, or a stream closed straight after one, is short of. */
  predicate ShortBy(w: World, n: nat) {
    match w.phase
    case Replaying(snapshot, _) => |w.job.events| == |snapshot| + n
    case Closed(drained, shown) => !drained ==> |w.job.events| == shown + n
    case _ => true
  }

  lemma {:induction false} ShortByRun(w: World, steps: seq<Step>, n: nat)
    requires Inv(w) && EnabledRun(w, steps) && ShortBy(w, n)
    ensures ShortBy(Run(w, steps), LoggedSince(steps, n))
    decreases |steps|
  {
    if steps != [] {
      var s := steps[0];
      InvStep(w, s);
      ShortByRun(Next(w, s), steps[1..], if s.Subscribe? then 0 else if s.Emit? then n + 1 else n);
    }
  }

  lemma {:induction false} InvStart()
    ensures Inv(START)
  {
    assert START.job.events[0..] == [] && Wrapped([]) == [];
  }

  /** Main result: in every interleaving, the log is numbered 1, 2, 3, ... and what a
      subscriber's console shows is always an in-order prefix of it. A stream that was still
      open when replay ended closes having shown the whole log; one that closed without
      draining the queue shows the whole log if and only if nothing was logged since it
      subscribed, and is otherwise short by exactly what was. */
  lemma {:induction false} StreamAgreesWithLog(steps: seq<Step>)
    requires EnabledRun(START, steps)
    ensures var w := Run(START, steps);
            && Contiguous(w.job.events)
            && w.view <= w.job.events
            && (w.phase.Closed? && w.phase.drained ==> w.view == w.job.events)
            && (w.phase.Closed? && !w.phase.drained ==>
                  && (w.view == w.job.events <==> LoggedSince(steps, 0) == 0)
                  && |w.job.events| == |w.view| + LoggedSince(steps, 0))
  {
    InvStart();
    InvRun(START, steps);
    ShortByRun(START, steps, 0);
  }

  /** The job logs a first event, a subscriber replays it, a second one is logged and the job
      ends, and replay ends: the stream closes, and nobody is told of the second. */
  function LosingRun(): seq<Step> {
    [Emit("first", ""), Subscribe, ReplayNext, Emit("late", ""), Finish(None), EndReplay]
  }

  lemma {:induction false} OneStepMore(w: World, s: Step, rest: seq<Step>)
    requires Enabled(w, s) && EnabledRun(Next(w, s), rest)
    ensures EnabledRun(w, [s] + rest) && Run(w, [s] + rest) == Run(Next(w, s), rest)
  {
    assert ([s] + rest)[1..] == rest;
  }

  lemma {:induction false} ThreeStepsMore(w: World, a: Step, b: Step, c: Step, rest: seq<Step>)
    requires Enabled(w, a) && Enabled(Next(w, a), b) && Enabled(Next(Next(w, a), b), c)
    requires EnabledRun(Next(Next(Next(w, a), b), c), rest)
    ensures EnabledRun(w, [a, b, c] + rest) && Run(w, [a, b, c] + rest) == Run(Next(Next(Next(w, a), b), c), rest)
  {
    OneStepMore(Next(Next(w, a), b), c, rest);
    OneStepMore(Next(w, a), b, [c] + rest);
    OneStepMore(w, a, [b] + ([c] + rest));
    assert [a, b, c] + rest == [a] + ([b] + ([c] + rest));
  }

  lemma {:induction false} LosingStart() returns (w: World)
    ensures Enabled(START, Emit("first", "")) && Enabled(Next(START, Emit("first", "")), Subscribe)
    ensures Enabled(Next(Next(START, Emit("first", "")), Subscribe), ReplayNext)
    ensures w == Next(Next(Next(START, Emit("first", "")), Subscribe), ReplayNext)
    ensures w.phase == Replaying(w.job.events, |w.job.events|) && w.view == w.job.events && |w.view| == 1
    ensures !w.job.state.status.Over()
  {
    w := Next(Next(Next(START, Emit("first", "")), Subscribe), ReplayNext);
    assert w.view == [Event(1, "first", "")] && w.job.events == w.view;
  }

  /** A replay that has shown all it started from, while the job logs one more event and ends. */
  lemma {:induction false} LosingEnd(w: World)
    requires w.phase == Replaying(w.job.events, |w.job.events|) && w.view == w.job.events && !w.job.state.status.Over()
    ensures var end := [Emit("late", ""), Finish(None), EndReplay];
            && EnabledRun(w, end)
            && Run(w, end).phase == Closed(false, |w.view|) && Run(w, end).view == w.view
            && |Run(w, end).job.events| == |w.view| + 1
  {
    var w1 := Next(w, Emit("late", ""));
    var w2 := Next(w1, Finish(None));
    assert EnabledRun(Next(w2, EndReplay), []);
    ThreeStepsMore(w, Emit("late", ""), Finish(None), EndReplay, []);
    assert [Emit("late", ""), Finish(None), EndReplay] + [] == [Emit("late", ""), Finish(None), EndReplay];
  }

  lemma {:induction false} EndingDuringReplayLosesTheTail()
    ensures EnabledRun(START, LosingRun())
    ensures var end := Run(START, LosingRun());
            end.phase == Closed(false, 1) && |end.view| == 1 && |end.job.events| == 2
  {
    var end := [Emit("late", ""), Finish(None), EndReplay];
    var w := LosingStart();
    LosingEnd(w);
    ThreeStepsMore(START, Emit("first", ""), Subscribe, ReplayNext, end);
    assert LosingRun() == [Emit("first", ""), Subscribe, ReplayNext] + end;
  }

  // ---------------------------------------------------------------- what the state tells

  lemma {:induction false} OverStays(w: World, steps: seq<Step>)
    requires EnabledRun(w, steps) && w.job.state.status.Over()
    ensures Run(w, steps).job.state == w.job.state
    decreases |steps|
  {
    if steps != [] {
      OverStays(Next(w, steps[0]), steps[1..]);
    }
  }

  /** How a job ended stays told: it failed exactly when an error was given. */
  lemma {:induction false} EndIsTold(w: World, steps: seq<Step>, i: nat)
    requires EnabledRun(w, steps) && i < |steps| && steps[i].Finish?
    ensures var state, error := Run(w, steps).job.state, steps[i].error;
            && state.status == (if error.Some? && error.value != "" then Failed else Completed) && state.error == error
    decreases |steps|
  {
    if i == 0 {
      OverStays(Next(w, steps[0]), steps[1..]);
    } else {
      EndIsTold(Next(w, steps[0]), steps[1..], i - 1);
    }
  }

  /** A job that has not ended runs exactly when it was set running. */
  lemma {:induction false} RunningIsTold(w: World, steps: seq<Step>)
    requires EnabledRun(w, steps) && !w.job.state.status.Over() && forall i :: 0 <= i < |steps| ==> !steps[i].Finish?
    ensures var state := Run(w, steps).job.state;
            && state.error == w.job.state.error && !state.status.Over()
            && (state.status.Running? <==> w.job.state.status.Running? || MarkRunning in steps)
    decreases |steps|
  {
    if steps != [] {
      assert steps == [steps[0]] + steps[1..];
      RunningIsTold(Next(w, steps[0]), steps[1..]);
    }
  }

  /** The stage and message shown are those of the event emitted last, the provider statuses
      those set last. */
  lemma {:induction false} LatestIsTold(w: World, steps: seq<Step>, i: nat)
    requires EnabledRun(w, steps) && i < |steps|
    ensures steps[i].Emit? && (forall j :: i < j < |steps| ==> !steps[j].Emit?) ==>
              Run(w, steps).job.state.stage == steps[i].stage && Run(w, steps).job.state.message == steps[i].message
    ensures steps[i].SetProviderStatuses? && (forall j :: i < j < |steps| ==> !steps[j].SetProviderStatuses?) ==>
              Run(w, steps).job.state.providers == steps[i].statuses
    decreases |steps|
  {
    var rest := steps[1..];
    assert forall j :: 0 < j < |steps| ==> steps[j] == rest[j - 1];
    if i == 0 {
      NothingLater(Next(w, steps[0]), rest);
    } else {
      LatestIsTold(Next(w, steps[0]), rest, i - 1);
    }
  }

  lemma {:induction false} NothingLater(w: World, steps: seq<Step>)
    requires EnabledRun(w, steps)
    ensures (forall j :: 0 <= j < |steps| ==> !steps[j].Emit?) ==>
              Run(w, steps).job.state.stage == w.job.state.stage && Run(w, steps).job.state.message == w.job.state.message
    ensures (forall j :: 0 <= j < |steps| ==> !steps[j].SetProviderStatuses?) ==>
              Run(w, steps).job.state.providers == w.job.state.providers
    decreases |steps|
  {
    if steps != [] {
      assert forall j :: 0 < j < |steps| ==> steps[j] == steps[1..][j - 1];
      NothingLater(Next(w, steps[0]), steps[1..]);
    }
  }

  /** Main result: over every run of a new job, its state tells its story: queued, running once set
      so, ended as it was ended, with the latest event's stage and message. */
  lemma {:induction false} StateTellsTheStory(steps: seq<Step>, i: nat)
    requires EnabledRun(START, steps) && i < |steps|
    ensures var state := Run(START, steps).job.state;
            && (steps[i].Finish? ==>
                  && state.error == steps[i].error
                  && state.status == if steps[i].error.Some? && steps[i].error.value != "" then Failed else Completed)
            && ((forall j :: 0 <= j < |steps| ==> !steps[j].Finish?) ==>
                  state.error.None? && state.status == if MarkRunning in steps then Running else Queued)
            && (steps[i].Emit? && (forall j :: i < j < |steps| ==> !steps[j].Emit?) ==>
                  state.stage == steps[i].stage && state.message == steps[i].message)
            && (steps[i].SetProviderStatuses? && (forall j :: i < j < |steps| ==> !steps[j].SetProviderStatuses?) ==>
                  state.providers == steps[i].statuses)
  {
    if steps[i].Finish? {
      EndIsTold(START, steps, i);
    }
    if forall j :: 0 <= j < |steps| ==> !steps[j].Finish? {
      RunningIsTold(START, steps);
    }
    LatestIsTold(START, steps, i);
  }
}
