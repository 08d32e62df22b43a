/** The worker processes of the whole system keep the bounds of the pipeline. */
module Processes {
  import opened Entities
  import opened TaskTable
  import opened Protocol
  import opened Lease
  import Pipeline

  ghost predicate AllBounded(s: World) {
    forall w :: w in s.workers ==> Pipeline.Bounded(s.workers[w])
  }

  lemma PipeWritten(s: World, w: WorkerId, inner: PipeStep)
    requires AllBounded(s) && w in s.workers && Pipeline.Enabled(s.workers[w], inner)
    ensures forall v :: v in s.workers ==>
              Pipeline.Bounded(s.workers[w := Pipeline.Apply(s.workers[w], inner)][v])
  {
    Pipeline.StepBounded(s.workers[w], inner);
  }

  lemma WorkersUntouched(c: Config, s: World, step: Step)
    requires Enabled(c, s, step) && !MovesTasks(step) && !step.ClaimUpdate?
    ensures Apply(c, s, step).workers == s.workers
  {
  }

  lemma ClaimBounded(c: Config, s: World, k: nat, delivered: bool)
    requires AllBounded(s) && Enabled(c, s, ClaimUpdate(k, delivered))
    ensures AllBounded(ClaimEffect(s, k, delivered))
  {
  }

  lemma RecordBounded(c: Config, s: World, w: WorkerId, k: nat)
    requires AllBounded(s) && Enabled(c, s, RecordBegin(w, k))
    ensures AllBounded(RecordBeginEffect(s, w, k))
  {
  }

  lemma LocalBounded(c: Config, s: World, w: WorkerId, inner: PipeStep)
    requires AllBounded(s) && LocalEnabled(c, s, w, inner)
    ensures AllBounded(LocalEffect(s, w, inner))
  {
    PipeWritten(s, w, inner);
  }

  lemma StepAllBounded(c: Config, s: World, step: Step)
    requires AllBounded(s) && Enabled(c, s, step)
    ensures AllBounded(Apply(c, s, step))
  {
    hide Pipeline.Bounded, Pipeline.Apply, IsUncompleted, IsOldest, LocalEffect, RecordBeginEffect, ClaimEffect;
    if !MovesTasks(step) && !step.ClaimUpdate? {
      WorkersUntouched(c, s, step);
    } else {
      match step
      case Boot(w, max, retrySum, types, backlog) => Pipeline.BootedBounded(max, retrySum, types, backlog);
      case Local(w, inner) => LocalBounded(c, s, w, inner);
      case ClaimBegin(w, k) => PipeWritten(s, w, Pipeline.CallClaim(k));
      case ClaimUpdate(k, delivered) => ClaimBounded(c, s, k, delivered);
      case RecordBegin(w, k) => RecordBounded(c, s, w, k);
      case Crash(w) =>
      case RecordFail(k) =>
    }
  }

  lemma {:induction false} RunAllBounded(c: Config, s: World, steps: seq<Step>)
    requires AllBounded(s) && IsRun(c, s, steps)
    ensures AllBounded(After(c, s, steps))
    decreases |steps|
  {
    hide AllBounded, Enabled, Apply;
    if steps != [] {
      StepAllBounded(c, s, steps[0]);
      RunAllBounded(c, Apply(c, s, steps[0]), steps[1..]);
    }
  }

  /** Over every run of the whole system no worker has more tasks in flight and in hand than it was
      started with room for, its send finds room, and what its consumer takes from the result channel
      is a finished computation. */
  lemma EveryWorkerIsBounded(c: Config, now: int, steps: seq<Step>, w: WorkerId)
    requires IsRun(c, Start(now), steps) && w in After(c, Start(now), steps).workers
    ensures var p := After(c, Start(now), steps).workers[w];
            && Pipeline.InFlight(p) + (if p.fetcher.Hand? then 1 else 0) <= p.max
            && (p.fetcher.Hand? ==> Pipeline.Enabled(p, Pipeline.Send))
            && (p.results != [] ==> p.results[0].Waiting?)
  {
    RunAllBounded(c, Start(now), steps);
    Pipeline.BoundOverRuns(After(c, Start(now), steps).workers[w], []);
  }

  // ---------------------------------------------------------------- as it was started

  lemma StepKeepsSettings(c: Config, s: World, step: Step, w: WorkerId)
    requires Enabled(c, s, step) && w in s.workers && step != Crash(w)
    ensures w in Apply(c, s, step).workers
    ensures var p, p' := s.workers[w], Apply(c, s, step).workers[w];
            p'.max == p.max && p'.retrySum == p.retrySum && p'.types == p.types
  {
    hide IsUncompleted, IsOldest;
    if !MovesTasks(step) && !step.ClaimUpdate? {
      WorkersUntouched(c, s, step);
    }
  }

  ghost predicate NeverCrashes(steps: seq<Step>, w: WorkerId) {
    forall i :: 0 <= i < |steps| ==> steps[i] != Crash(w)
  }

  lemma {:induction false} RunKeepsSettings(c: Config, s: World, steps: seq<Step>, w: WorkerId)
    requires IsRun(c, s, steps) && w in s.workers && NeverCrashes(steps, w)
    ensures w in After(c, s, steps).workers
    ensures var p, p' := s.workers[w], After(c, s, steps).workers[w];
            p'.max == p.max && p'.retrySum == p.retrySum && p'.types == p.types
    decreases |steps|
  {
    hide Enabled, Apply;
    if steps != [] {
      StepKeepsSettings(c, s, steps[0], w);
      assert NeverCrashes(steps[1..], w);
      RunKeepsSettings(c, Apply(c, s, steps[0]), steps[1..], w);
    }
  }

  /** A worker boots with exactly its running rows as backlog, each once and the oldest first, with what it
      was told to allow, and with nothing in flight. */
  lemma BootStarts(c: Config, s: World, w: WorkerId, max: nat, retrySum: nat, types: Option<seq<TaskType>>, backlog: seq<Task>)
    requires Enabled(c, s, Boot(w, max, retrySum, types, backlog))
    ensures forall i :: 0 <= i < |backlog| ==>
              && backlog[i].id in s.rows && backlog[i] == s.rows[backlog[i].id]
              && backlog[i].state == Running && backlog[i].workerId == w
    ensures forall t :: t in s.rows && s.rows[t].state == Running && s.rows[t].workerId == w
              ==> exists i :: 0 <= i < |backlog| && backlog[i].id == t
    ensures forall i, j :: 0 <= i < j < |backlog| ==> backlog[i].id != backlog[j].id && backlog[i].createAt <= backlog[j].createAt
    ensures var s' := Apply(c, s, Boot(w, max, retrySum, types, backlog));
            && w in s'.workers
            && var p := s'.workers[w];
            && p.max == max && p.retrySum == retrySum && p.types == types && p.backlog == backlog
            && p.fetcher.Head? && p.chan == [] && p.count == 0 && p.consumer.Idle? && p.jobs == [] && p.results == []
  {
    forall t | t in s.rows && s.rows[t].state == Running && s.rows[t].workerId == w
      ensures exists i :: 0 <= i < |backlog| && backlog[i].id == t
    {
      assert RunningBy(s.rows, t, w);
    }
  }

  /** A worker that does not run can boot with any settings, on its running rows; one that runs can crash at
      any time, with whatever it holds. */
  lemma WorkersComeAndGo(c: Config, s: World, w: WorkerId, max: nat, retrySum: nat, types: Option<seq<TaskType>>, backlog: seq<Task>)
    requires 1 <= max < 0x1_0000_0000_0000_0000 && retrySum < 0xFFFF_FFFF
    requires forall i :: 0 <= i < |backlog| ==>
               && backlog[i].id in s.rows && backlog[i] == s.rows[backlog[i].id]
               && backlog[i].state == Running && backlog[i].workerId == w
    requires forall t :: t in s.rows && s.rows[t].state == Running && s.rows[t].workerId == w
               ==> exists i :: 0 <= i < |backlog| && backlog[i].id == t
    requires forall i, j :: 0 <= i < j < |backlog| ==> backlog[i].id != backlog[j].id && backlog[i].createAt <= backlog[j].createAt
    ensures if w in s.workers then Enabled(c, s, Crash(w)) && Apply(c, s, Crash(w)).workers == s.workers - {w}
            else Enabled(c, s, Boot(w, max, retrySum, types, backlog))
  {
  }

  /** As it was started: over every run of the whole system, from the boot of a worker on and as long as it
      does not crash, what it has in flight and in hand is never more than the number of tasks it was
      started with room for; it calls for a task only with fewer in flight and no backlog left, and for
      the types it was started with; and it gives a task up exactly when the read numbered one more than
      the retry sum it was started with fails. */
  lemma WorksAsStarted(c: Config, now: int, before: seq<Step>, w: WorkerId, max: nat, retrySum: nat,
                       types: Option<seq<TaskType>>, backlog: seq<Task>, steps: seq<Step>)
    requires IsRun(c, Start(now), before)
    requires Enabled(c, After(c, Start(now), before), Boot(w, max, retrySum, types, backlog))
    requires IsRun(c, Apply(c, After(c, Start(now), before), Boot(w, max, retrySum, types, backlog)), steps)
    requires NeverCrashes(steps, w)
    ensures var s := After(c, Apply(c, After(c, Start(now), before), Boot(w, max, retrySum, types, backlog)), steps);
            && w in s.workers
            && var p := s.workers[w];
               var inFlight := |p.chan| + |p.jobs| + |p.results| + if p.consumer.Idle? then 0 else 1;
            && inFlight + (if p.fetcher.Hand? then 1 else 0) <= max
            && (forall k :: Enabled(c, s, ClaimBegin(w, k)) ==>
                  inFlight < max && p.backlog == []
                  && Apply(c, s, ClaimBegin(w, k)).claims == s.claims[k := ClaimCall(w, types, SelectTodo)])
            && (p.consumer.Preparing? ==>
                  && 1 <= p.consumer.attempt <= retrySum + 1
                  && Enabled(c, s, Local(w, Pipeline.GetErr))
                  && Apply(c, s, Local(w, Pipeline.GetErr)).workers[w].consumer
                     == if p.consumer.attempt == retrySum + 1 then Pipeline.Idle
                        else Pipeline.Preparing(p.consumer.task, p.consumer.attempt + 1))
  {
    var s0 := After(c, Start(now), before);
    var boot := Boot(w, max, retrySum, types, backlog);
    var s1 := Apply(c, s0, boot);
    var s := After(c, s1, steps);
    RunAllBounded(c, Start(now), before);
    StepAllBounded(c, s0, boot);
    BootStarts(c, s0, w, max, retrySum, types, backlog);
    RunAllBounded(c, s1, steps);
    RunKeepsSettings(c, s1, steps, w);
    assert Pipeline.Bounded(s.workers[w]);
    hide After, IsRun, AllBounded, IsUncompleted, IsOldest, Enabled, Apply, Pipeline.Bounded;
    StartedBounds(c, s, w);
    if s.workers[w].consumer.Preparing? {
      StartedReads(c, s, w);
    }
  }

  lemma StartedBounds(c: Config, s: World, w: WorkerId)
    requires w in s.workers && Pipeline.Bounded(s.workers[w])
    ensures var p := s.workers[w];
            var inFlight := |p.chan| + |p.jobs| + |p.results| + if p.consumer.Idle? then 0 else 1;
            && inFlight + (if p.fetcher.Hand? then 1 else 0) <= p.max
            && (forall k :: Enabled(c, s, ClaimBegin(w, k)) ==>
                  inFlight < p.max && p.backlog == []
                  && Apply(c, s, ClaimBegin(w, k)).claims == s.claims[k := ClaimCall(w, p.types, SelectTodo)])
  {
    hide Pipeline.Apply;
  }

  lemma StartedReads(c: Config, s: World, w: WorkerId)
    requires w in s.workers && Pipeline.Bounded(s.workers[w]) && s.workers[w].consumer.Preparing?
    ensures var p := s.workers[w];
            && 1 <= p.consumer.attempt <= p.retrySum + 1
            && Enabled(c, s, Local(w, Pipeline.GetErr))
            && Apply(c, s, Local(w, Pipeline.GetErr)).workers[w].consumer
               == if p.consumer.attempt == p.retrySum + 1 then Pipeline.Idle
                  else Pipeline.Preparing(p.consumer.task, p.consumer.attempt + 1)
  {
  }
}
