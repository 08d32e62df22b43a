/** One worker process: the fetcher loop and the consumer loop, the channels between them, the
    spawned computations and the shared counter, as a transition system. */
module Pipeline {
  import opened Entities

  /** The counter is a 64-bit word that wraps around. */
  const WORD: int := 0x1_0000_0000_0000_0000

  /** The retry counter is a 32-bit word; the loop needs one value above the retry sum. */
  const RETRY_LIMIT: int := 0xFFFF_FFFF

  function Incremented(count: int): int { (count + 1) % WORD }

  function Decremented(count: int): int { (count + WORD - 1) % WORD }

  /** Where the fetcher loop stands. `Sent` is between the send and the increment of the counter. */
  datatype Fetcher = Head | Choosing | Claiming(call: nat) | Hand(task: Task) | Sent

  /** Where the consumer loop stands. `attempt` numbers the resource read about to be made;
      `Awaiting` is the wait for the answer of a record call. */
  datatype Consumer = Idle | Preparing(task: Task, attempt: nat) | Awaiting(tid: Id)

  /** A spawned computation, still computing or blocked on the result channel. */
  datatype Job = Computing(task: Task, input: Bytes) | Waiting(task: Task, outcome: Outcome)

  datatype Pipe = Pipe(
    max: nat, retrySum: nat, types: Option<seq<TaskType>>,
    backlog: seq<Task>, fetcher: Fetcher, chan: seq<Task>, count: int,
    consumer: Consumer, jobs: seq<Job>, results: seq<Job>)

  function Booted(max: nat, retrySum: nat, types: Option<seq<TaskType>>, backlog: seq<Task>): Pipe {
    Pipe(max, retrySum, types, backlog, Head, [], 0, Idle, [], [])
  }

  datatype PipeStep =
    | Load
    | Pop
    | CallClaim(call: nat)
    | ClaimOk(task: Task)
    | ClaimErr
    | Send
    | Increment
    | Receive
    | GetOk(input: Bytes)
    | GetErr
    | Compute(index: nat, outcome: Outcome)
    | Deliver(index: nat)
    | TakeResult
    | RecordDone

  predicate Enabled(p: Pipe, step: PipeStep) {
    match step
    case Load => p.fetcher.Head?
    case Pop => p.fetcher.Choosing? && p.backlog != []
    case CallClaim(_) => p.fetcher.Choosing? && p.backlog == []
    case ClaimOk(_) => p.fetcher.Claiming?
    case ClaimErr => p.fetcher.Claiming?
    case Send => p.fetcher.Hand? && |p.chan| < p.max
    case Increment => p.fetcher.Sent?
    case Receive => p.consumer.Idle? && p.chan != []
    case GetOk(_) => p.consumer.Preparing?
    case GetErr => p.consumer.Preparing?
    case Compute(i, _) => i < |p.jobs| && p.jobs[i].Computing?
    case Deliver(i) => i < |p.jobs| && p.jobs[i].Waiting? && |p.results| < 1
    case TakeResult => p.consumer.Idle? && p.results != []
    case RecordDone => p.consumer.Awaiting?
  }

  /** The consumer gives a task up when the failed read was the last one allowed. */
  predicate GivesUp(p: Pipe, step: PipeStep) {
    step.GetErr? && p.consumer.Preparing? && p.consumer.attempt > p.retrySum
  }

  function Apply(p: Pipe, step: PipeStep): Pipe
    requires Enabled(p, step)
  {
    match step
    case Load => if p.count >= p.max then p else p.(fetcher := Choosing)
    case Pop => p.(fetcher := Hand(p.backlog[|p.backlog| - 1]), backlog := p.backlog[..|p.backlog| - 1])
    case CallClaim(k) => p.(fetcher := Claiming(k))
    case ClaimOk(task) => p.(fetcher := Hand(task))
    case ClaimErr => p.(fetcher := Head)
    case Send => p.(fetcher := Sent, chan := p.chan + [p.fetcher.task])
    case Increment => p.(fetcher := Head, count := Incremented(p.count))
    case Receive => p.(consumer := Preparing(p.chan[0], 1), chan := p.chan[1..])
    case GetOk(input) => p.(consumer := Idle, jobs := p.jobs + [Computing(p.consumer.task, input)])
    case GetErr =>
      if GivesUp(p, step) then p.(consumer := Idle, count := Decremented(p.count))
      else p.(consumer := Preparing(p.consumer.task, p.consumer.attempt + 1))
    case Compute(i, outcome) => p.(jobs := p.jobs[i := Waiting(p.jobs[i].task, outcome)])
    case Deliver(i) => p.(results := p.results + [p.jobs[i]], jobs := p.jobs[..i] + p.jobs[i + 1..])
    case TakeResult => p.(consumer := Awaiting(p.results[0].task.id), results := p.results[1..])
    case RecordDone => p.(consumer := Idle, count := Decremented(p.count))
  }

  /** Every task handed to the consumer side and not yet accounted for. */
  function InFlight(p: Pipe): nat {
    |p.chan| + |p.jobs| + |p.results| + if p.consumer.Idle? then 0 else 1
  }

  // ---------------------------------------------------------------- the concurrency bound

  ghost predicate Bounded(p: Pipe) {
    && 1 <= p.max < WORD
    && p.retrySum < RETRY_LIMIT
    && |p.results| <= 1
    && (forall i :: 0 <= i < |p.results| ==> p.results[i].Waiting?)
    && (p.consumer.Preparing? ==> 1 <= p.consumer.attempt <= p.retrySum + 1)
    && (p.fetcher.Claiming? ==> p.backlog == [])
    && p.count == (if p.fetcher.Sent? then Decremented(InFlight(p)) else InFlight(p))
    && InFlight(p) <= p.max
    && (p.fetcher.Choosing? || p.fetcher.Claiming? || p.fetcher.Hand? ==> InFlight(p) < p.max)
  }

  lemma BootedBounded(max: nat, retrySum: nat, types: Option<seq<TaskType>>, backlog: seq<Task>)
    requires 1 <= max < WORD && retrySum < RETRY_LIMIT
    ensures Bounded(Booted(max, retrySum, types, backlog))
  {
  }

  lemma FetcherStepBounded(p: Pipe, step: PipeStep)
    requires Bounded(p) && Enabled(p, step)
    requires step.Load? || step.Pop? || step.CallClaim? || step.ClaimOk? || step.ClaimErr? || step.Send? || step.Increment?
    ensures Bounded(Apply(p, step))
  {
    assert 0 <= InFlight(p) < WORD;
  }

  lemma JobStepBounded(p: Pipe, step: PipeStep)
    requires Bounded(p) && Enabled(p, step)
    requires step.GetOk? || step.Compute? || step.Deliver?
    ensures Bounded(Apply(p, step))
  {
  }

  lemma StepBounded(p: Pipe, step: PipeStep)
    requires Bounded(p) && Enabled(p, step)
    ensures Bounded(Apply(p, step))
  {
    match step
    case Receive => assert InFlight(Apply(p, step)) == InFlight(p);
    case GetErr => assert 0 < InFlight(p) < WORD;
    case TakeResult => assert InFlight(Apply(p, step)) == InFlight(p);
    case RecordDone => assert 0 < InFlight(p) < WORD;
    case GetOk(_) => JobStepBounded(p, step);
    case Compute(_, _) => JobStepBounded(p, step);
    case Deliver(_) => JobStepBounded(p, step);
    case _ => FetcherStepBounded(p, step);
  }

  /** What the loop head reads is exact, although the counter itself may have wrapped in between:
      the fetcher goes on to take a task if and only if fewer than `max` are in flight. */
  lemma LoadIsExact(p: Pipe)
    requires Bounded(p) && Enabled(p, Load)
    ensures p.count == InFlight(p)
    ensures Apply(p, Load).fetcher.Choosing? <==> InFlight(p) < p.max
  {
  }

  /** A send never waits for a slot. */
  lemma SendNeverBlocks(p: Pipe)
    requires Bounded(p) && p.fetcher.Hand?
    ensures Enabled(p, Send) && InFlight(p) + 1 <= p.max
  {
  }

  // ---------------------------------------------------------------- runs

  /** The state after a schedule, or nothing when the schedule asks for a step that is not enabled. */
  function Run(p: Pipe, steps: seq<PipeStep>): Option<Pipe>
    decreases |steps|
  {
    if steps == [] then Some(p)
    else if Enabled(p, steps[0]) then Run(Apply(p, steps[0]), steps[1..])
    else None
  }

  lemma RunOne(p: Pipe, step: PipeStep, rest: seq<PipeStep>)
    requires Enabled(p, step)
    ensures Run(p, [step] + rest) == Run(Apply(p, step), rest)
  {
  }

  lemma RunSingle(p: Pipe, step: PipeStep)
    requires Enabled(p, step)
    ensures Run(p, [step]) == Some(Apply(p, step))
  {
  }

  /** Over every schedule, at every moment: never more than `max` tasks in flight or in hand, the
      channel has room whenever the fetcher sends, and the counter is off by the one increment that
      is still to come, modulo the word. */
  lemma {:induction false} BoundOverRuns(p: Pipe, steps: seq<PipeStep>)
    requires Bounded(p) && Run(p, steps).Some?
    ensures Bounded(Run(p, steps).value)
    ensures var q := Run(p, steps).value;
            && InFlight(q) + (if q.fetcher.Hand? then 1 else 0) <= q.max
            && (q.fetcher.Hand? ==> |q.chan| < q.max)
            && (q.count + if q.fetcher.Sent? then 1 else 0) % WORD == InFlight(q)
    ensures Run(p, steps).value.max == p.max && Run(p, steps).value.retrySum == p.retrySum
    decreases |steps|
  {
    if steps != [] {
      StepBounded(p, steps[0]);
      BoundOverRuns(Apply(p, steps[0]), steps[1..]);
    }
  }

  // ---------------------------------------------------------------- conservation

  /** How many of the tasks have the id `t`. */
  function TaskCount(ts: seq<Task>, t: Id): nat {
    if ts == [] then 0 else One(ts[0].id, t) + TaskCount(ts[1..], t)
  }

  function JobCount(js: seq<Job>, t: Id): nat {
    if js == [] then 0 else One(js[0].task.id, t) + JobCount(js[1..], t)
  }

  function One(id: Id, t: Id): nat {
    if id == t then 1 else 0
  }

  lemma {:induction false} TaskCountConcat(a: seq<Task>, b: seq<Task>, t: Id)
    ensures TaskCount(a + b, t) == TaskCount(a, t) + TaskCount(b, t)
  {
    if a == [] {
      assert a + b == b;
    } else {
      assert (a + b)[1..] == a[1..] + b;
      TaskCountConcat(a[1..], b, t);
    }
  }

  lemma {:induction false} JobCountConcat(a: seq<Job>, b: seq<Job>, t: Id)
    ensures JobCount(a + b, t) == JobCount(a, t) + JobCount(b, t)
  {
    if a == [] {
      assert a + b == b;
    } else {
      assert (a + b)[1..] == a[1..] + b;
      JobCountConcat(a[1..], b, t);
    }
  }

  lemma JobCountAt(js: seq<Job>, i: nat, t: Id)
    requires i < |js|
    ensures JobCount(js, t) == JobCount(js[..i] + js[i + 1..], t) + One(js[i].task.id, t)
  {
    assert js == (js[..i] + [js[i]]) + js[i + 1..];
    JobCountConcat(js[..i] + [js[i]], js[i + 1..], t);
    JobCountConcat(js[..i], [js[i]], t);
    JobCountConcat(js[..i], js[i + 1..], t);
  }

  /** How many copies of the task `t` the process holds. A task whose record call has been made is
      no longer held: the call is. */
  function Held(p: Pipe, t: Id): nat {
    TaskCount(p.backlog, t) + (if p.fetcher.Hand? then One(p.fetcher.task.id, t) else 0) + TaskCount(p.chan, t)
    + (if p.consumer.Preparing? then One(p.consumer.task.id, t) else 0)
    + JobCount(p.jobs, t) + JobCount(p.results, t)
  }

  /** How many copies of `t` are waiting for the answer of their record call. */
  function Awaited(p: Pipe, t: Id): nat {
    if p.consumer.Awaiting? then One(p.consumer.tid, t) else 0
  }

  /** What a step brings into the process. */
  function Gained(step: PipeStep, t: Id): nat {
    if step.ClaimOk? then One(step.task.id, t) else 0
  }

  /** What a step gives up for want of its resource. */
  function Dropped(p: Pipe, step: PipeStep, t: Id): nat {
    if GivesUp(p, step) then One(p.consumer.task.id, t) else 0
  }

  /** What a step makes the record call for. */
  function Submitted(p: Pipe, step: PipeStep, t: Id): nat
    requires Enabled(p, step)
  {
    if step.TakeResult? then One(p.results[0].task.id, t) else 0
  }

  /** What a step sees the end of the record call of. */
  function Recorded(p: Pipe, step: PipeStep, t: Id): nat {
    if step.RecordDone? then Awaited(p, t) else 0
  }

  lemma JobCountUpdate(js: seq<Job>, i: nat, j: Job, t: Id)
    requires i < |js| && j.task.id == js[i].task.id
    ensures JobCount(js[i := j], t) == JobCount(js, t)
  {
    JobCountAt(js, i, t);
    JobCountAt(js[i := j], i, t);
    assert js[i := j][..i] + js[i := j][i + 1..] == js[..i] + js[i + 1..];
  }

  lemma FetcherConserves(p: Pipe, step: PipeStep, t: Id)
    requires Enabled(p, step) && (step.Pop? || step.Send?)
    ensures Held(p, t) == Held(Apply(p, step), t)
  {
    if step.Pop? {
      var last := |p.backlog| - 1;
      assert p.backlog == p.backlog[..last] + [p.backlog[last]];
      TaskCountConcat(p.backlog[..last], [p.backlog[last]], t);
    } else {
      TaskCountConcat(p.chan, [p.fetcher.task], t);
    }
  }

  lemma JobsConserve(p: Pipe, step: PipeStep, t: Id)
    requires Enabled(p, step) && (step.GetOk? || step.Compute? || step.Deliver?)
    ensures Held(p, t) == Held(Apply(p, step), t)
  {
    match step
    case GetOk(input) => JobCountConcat(p.jobs, [Computing(p.consumer.task, input)], t);
    case Compute(i, outcome) => JobCountUpdate(p.jobs, i, Waiting(p.jobs[i].task, outcome), t);
    case Deliver(i) =>
      JobCountAt(p.jobs, i, t);
      JobCountConcat(p.results, [p.jobs[i]], t);
  }

  /** What one step does to the tasks the process holds. */
  lemma StepConserves(p: Pipe, step: PipeStep, t: Id)
    requires Enabled(p, step)
    ensures Held(p, t) + Gained(step, t) == Held(Apply(p, step), t) + Dropped(p, step, t) + Submitted(p, step, t)
    ensures Awaited(p, t) + Submitted(p, step, t) == Awaited(Apply(p, step), t) + Recorded(p, step, t)
  {
    if step.Pop? || step.Send? {
      FetcherConserves(p, step, t);
    } else if step.GetOk? || step.Compute? || step.Deliver? {
      JobsConserve(p, step, t);
    }
  }

  /** How many copies of one task a whole schedule brought in, saw recorded and gave up. */
  datatype Ledger = Ledger(gained: nat, recorded: nat, dropped: nat)

  function Account(p: Pipe, steps: seq<PipeStep>, t: Id): Ledger
    requires Run(p, steps).Some?
    decreases |steps|
  {
    if steps == [] then Ledger(0, 0, 0)
    else
      var rest := Account(Apply(p, steps[0]), steps[1..], t);
      Ledger(Gained(steps[0], t) + rest.gained, Recorded(p, steps[0], t) + rest.recorded,
             Dropped(p, steps[0], t) + rest.dropped)
  }

  /** Over every schedule no task is duplicated and none vanishes: the copies the process started
      with and obtained are those it holds or waits for now, saw recorded or gave up. */
  lemma {:induction false} Conservation(p: Pipe, steps: seq<PipeStep>, t: Id)
    requires Run(p, steps).Some?
    ensures var q := Run(p, steps).value;
            var ledger := Account(p, steps, t);
            Held(p, t) + Awaited(p, t) + ledger.gained
            == Held(q, t) + Awaited(q, t) + ledger.recorded + ledger.dropped
    decreases |steps|
  {
    if steps != [] {
      StepConserves(p, steps[0], t);
      Conservation(Apply(p, steps[0]), steps[1..], t);
    }
  }

  // ---------------------------------------------------------------- the backlog comes first

  function Pops(steps: seq<PipeStep>): nat {
    if steps == [] then 0 else (if steps[0].Pop? then 1 else 0) + Pops(steps[1..])
  }

  /** The backlog is dispatched from its end, one pop at a time, and nothing is ever added to it. */
  lemma {:induction false} BacklogOverRuns(p: Pipe, steps: seq<PipeStep>)
    requires Run(p, steps).Some?
    ensures Pops(steps) <= |p.backlog|
    ensures Run(p, steps).value.backlog == p.backlog[..|p.backlog| - Pops(steps)]
    decreases |steps|
  {
    if steps != [] {
      BacklogOverRuns(Apply(p, steps[0]), steps[1..]);
    }
  }

  /** A new task is asked for only after every task of the backlog has been taken. */
  lemma BacklogBeforeClaims(p: Pipe, steps: seq<PipeStep>, call: nat)
    requires Run(p, steps).Some? && Enabled(Run(p, steps).value, CallClaim(call))
    ensures Pops(steps) == |p.backlog|
  {
    BacklogOverRuns(p, steps);
  }

  // ---------------------------------------------------------------- the order of tasks

  /** What a step puts into the task channel. */
  function SentBy(p: Pipe, step: PipeStep): seq<Task>
    requires Enabled(p, step)
  {
    if step.Send? then [p.fetcher.task] else []
  }

  /** What a step begins to prepare. */
  function ReceivedBy(p: Pipe, step: PipeStep): seq<Task>
    requires Enabled(p, step)
  {
    if step.Receive? && Apply(p, step).consumer.Preparing? then [Apply(p, step).consumer.task] else []
  }

  function SentTasks(p: Pipe, steps: seq<PipeStep>): seq<Task>
    requires Run(p, steps).Some?
    decreases |steps|
  {
    if steps == [] then [] else SentBy(p, steps[0]) + SentTasks(Apply(p, steps[0]), steps[1..])
  }

  function ReceivedTasks(p: Pipe, steps: seq<PipeStep>): seq<Task>
    requires Run(p, steps).Some?
    decreases |steps|
  {
    if steps == [] then [] else ReceivedBy(p, steps[0]) + ReceivedTasks(Apply(p, steps[0]), steps[1..])
  }

  lemma StepIsFifo(p: Pipe, step: PipeStep)
    requires Enabled(p, step)
    ensures p.chan + SentBy(p, step) == ReceivedBy(p, step) + Apply(p, step).chan
  {
  }

  /** Over every schedule tasks come out of the channel in the order in which they were sent, whatever the
      results and the reads in between. */
  lemma {:induction false} ChannelIsFifo(p: Pipe, steps: seq<PipeStep>)
    requires Run(p, steps).Some?
    ensures p.chan + SentTasks(p, steps) == ReceivedTasks(p, steps) + Run(p, steps).value.chan
    decreases |steps|
  {
    hide Enabled, Apply, SentBy, ReceivedBy;
    if steps == [] {
      assert p.chan + [] == [] + p.chan;
    } else {
      var next := Apply(p, steps[0]);
      StepIsFifo(p, steps[0]);
      ChannelIsFifo(next, steps[1..]);
      var sent, received := SentTasks(next, steps[1..]), ReceivedTasks(next, steps[1..]);
      calc {
        p.chan + (SentBy(p, steps[0]) + sent);
        (p.chan + SentBy(p, steps[0])) + sent;
        ReceivedBy(p, steps[0]) + (next.chan + sent);
        (ReceivedBy(p, steps[0]) + received) + Run(p, steps).value.chan;
      }
    }
  }

  function FailedReads(n: nat): seq<PipeStep> {
    seq(n, _ => GetErr)
  }

  /** A received task has `retrySum` + 1 reads before it is given up: after fewer failures it is still
      being prepared, and after that many it is not, and no longer counts. */
  lemma {:induction false} ReadsAllowed(p: Pipe, n: nat)
    requires Enabled(p, Receive) && n <= p.retrySum + 1
    ensures var failed := Run(Apply(p, Receive), FailedReads(n));
            && failed.Some?
            && (n <= p.retrySum ==> failed.value.consumer == Preparing(p.chan[0], n + 1) && failed.value.count == p.count)
            && (n == p.retrySum + 1 ==> failed.value.consumer == Idle && failed.value.count == Decremented(p.count))
  {
    var q := Apply(p, Receive);
    if n <= p.retrySum {
      ReadsFail(q, 1, n);
    } else {
      ReadsFail(q, 1, p.retrySum);
      var last := q.(consumer := Preparing(p.chan[0], p.retrySum + 1));
      RunSingle(last, GetErr);
      RunConcat(q, FailedReads(p.retrySum), [GetErr]);
      assert FailedReads(p.retrySum) + [GetErr] == FailedReads(n);
    }
  }

  lemma {:induction false} ReadsFail(p: Pipe, attempt: nat, n: nat)
    requires p.consumer.Preparing? && p.consumer.attempt == attempt && attempt + n <= p.retrySum + 1
    ensures Run(p, FailedReads(n)) == Some(p.(consumer := Preparing(p.consumer.task, attempt + n)))
    decreases n
  {
    if n == 0 {
      assert p.(consumer := Preparing(p.consumer.task, attempt)) == p;
    } else {
      assert FailedReads(n) == [GetErr] + FailedReads(n - 1);
      RunOne(p, GetErr, FailedReads(n - 1));
      ReadsFail(Apply(p, GetErr), attempt + 1, n - 1);
    }
  }

  lemma {:induction false} RunConcat(p: Pipe, a: seq<PipeStep>, b: seq<PipeStep>)
    requires Run(p, a).Some?
    ensures Run(p, a + b) == Run(Run(p, a).value, b)
    decreases |a|
  {
    if a == [] {
      assert a + b == b;
    } else {
      assert (a + b)[0] == a[0] && (a + b)[1..] == a[1..] + b;
      RunConcat(Apply(p, a[0]), a[1..], b);
    }
  }

  // ---------------------------------------------------------------- draining

  function JobRank(js: seq<Job>): nat {
    if js == [] then 0 else Weight(js[0]) + JobRank(js[1..])
  }

  function Weight(j: Job): nat {
    if j.Computing? then 4 else 3
  }

  lemma {:induction false} JobRankConcat(a: seq<Job>, b: seq<Job>)
    ensures JobRank(a + b) == JobRank(a) + JobRank(b)
  {
    if a == [] {
      assert a + b == b;
    } else {
      assert (a + b)[1..] == a[1..] + b;
      JobRankConcat(a[1..], b);
    }
  }

  lemma JobRankAt(js: seq<Job>, i: nat)
    requires i < |js|
    ensures JobRank(js) == JobRank(js[..i] + js[i + 1..]) + Weight(js[i])
  {
    var before, after := js[..i], js[i + 1..];
    assert js == before + js[i..];
    assert js[i..][1..] == after;
    hide Weight;
    JobRankConcat(before, js[i..]);
    JobRankConcat(before, after);
  }

  /** How far the consumer's task still is from being accounted for. */
  function ConsumerRank(p: Pipe): int {
    match p.consumer
    case Idle => 0
    case Preparing(_, attempt) => 6 + p.retrySum - attempt
    case Awaiting(_) => 1
  }

  function FetcherRank(p: Pipe): int {
    match p.fetcher
    case Head => if p.backlog == [] then 0 else 1
    case Hand(_) => 9 + p.retrySum
    case Sent => 2
    case _ => 0
  }

  /** The work left: where every task stands and how many reads it has left. */
  function Rank(p: Pipe): int {
    |p.backlog| * (10 + p.retrySum) + FetcherRank(p) + |p.chan| * (6 + p.retrySum)
    + ConsumerRank(p) + JobRank(p.jobs) + 2 * |p.results|
  }

  /** The steps that move a task on. The others are the fetcher's polling: a look at the counter that
      leads to no dispatch, and the claim calls. */
  predicate IsProgress(p: Pipe, step: PipeStep) {
    match step
    case Load => p.backlog != [] && p.count < p.max
    case CallClaim(_) => false
    case ClaimOk(_) => false
    case ClaimErr => false
    case _ => true
  }

  /** Nothing is left to dispatch, in hand, in flight or still to be counted. */
  predicate Drained(p: Pipe) {
    p.backlog == [] && InFlight(p) == 0 && !p.fetcher.Hand? && !p.fetcher.Sent?
  }

  lemma RankOfDrained(p: Pipe)
    requires Bounded(p)
    ensures Rank(p) >= 0
    ensures Rank(p) == 0 <==> Drained(p)
  {
  }

  lemma ProgressDecreasesRank(p: Pipe, step: PipeStep)
    requires Bounded(p) && Enabled(p, step) && IsProgress(p, step)
    ensures Rank(Apply(p, step)) < Rank(p)
  {
    match step
    case Pop => assert |p.backlog| * (10 + p.retrySum) == (|p.backlog| - 1) * (10 + p.retrySum) + (10 + p.retrySum);
    case Send => assert (|p.chan| + 1) * (6 + p.retrySum) == |p.chan| * (6 + p.retrySum) + (6 + p.retrySum);
    case Receive => assert |p.chan| * (6 + p.retrySum) == (|p.chan| - 1) * (6 + p.retrySum) + (6 + p.retrySum);
    case GetOk(input) => JobRankConcat(p.jobs, [Computing(p.consumer.task, input)]);
    case Compute(i, outcome) =>
      var js := p.jobs[i := Waiting(p.jobs[i].task, outcome)];
      JobRankAt(p.jobs, i);
      JobRankAt(js, i);
      assert js[..i] + js[i + 1..] == p.jobs[..i] + p.jobs[i + 1..];
    case Deliver(i) => JobRankAt(p.jobs, i);
    case _ =>
  }

  lemma PollingKeepsRank(p: Pipe, step: PipeStep)
    requires Bounded(p) && Enabled(p, step) && !IsProgress(p, step) && !step.ClaimOk?
    ensures Rank(Apply(p, step)) == Rank(p)
  {
  }

  function ProgressCount(p: Pipe, steps: seq<PipeStep>): nat
    requires Run(p, steps).Some?
    decreases |steps|
  {
    if steps == [] then 0
    else (if IsProgress(p, steps[0]) then 1 else 0) + ProgressCount(Apply(p, steps[0]), steps[1..])
  }

  ghost predicate NoNewClaims(steps: seq<PipeStep>) {
    forall i :: 0 <= i < |steps| ==> !steps[i].ClaimOk?
  }

  /** While no new task is obtained, every schedule makes at most `Rank(p)` steps that move a task. */
  lemma {:induction false} DrainIsBounded(p: Pipe, steps: seq<PipeStep>)
    requires Bounded(p) && Run(p, steps).Some? && NoNewClaims(steps)
    ensures ProgressCount(p, steps) + Rank(Run(p, steps).value) <= Rank(p)
    ensures ProgressCount(p, steps) <= Rank(p)
    decreases |steps|
  {
    RankOfDrained(p);
    if steps != [] {
      StepBounded(p, steps[0]);
      if IsProgress(p, steps[0]) {
        ProgressDecreasesRank(p, steps[0]);
      } else {
        PollingKeepsRank(p, steps[0]);
      }
      assert NoNewClaims(steps[1..]);
      DrainIsBounded(Apply(p, steps[0]), steps[1..]);
    }
  }

  /** One step that moves a task on, whatever the loops are in the middle of. A resource read and
      a computation are let fail here; the other outcomes are enabled whenever these are. */
  function NextProgress(p: Pipe): (step: PipeStep)
    requires Bounded(p) && !Drained(p)
    ensures Enabled(p, step) && IsProgress(p, step)
  {
    if p.consumer.Awaiting? then RecordDone
    else if p.consumer.Preparing? then GetErr
    else if p.results != [] then TakeResult
    else if p.chan != [] then Receive
    else if p.jobs != [] then
      if p.jobs[0].Computing? then Compute(0, Failure("")) else Deliver(0)
    else if p.fetcher.Hand? then Send
    else if p.fetcher.Sent? then Increment
    else if p.fetcher.Choosing? then Pop
    else Load
  }

  /** No deadlock: as long as anything is left, some step that moves a task is enabled, even with the
      one slot of the result channel taken. */
  lemma NoDeadlock(p: Pipe)
    requires Bounded(p)
    ensures Drained(p) <==> !exists step :: Enabled(p, step) && IsProgress(p, step)
  {
    if !Drained(p) {
      var step := NextProgress(p);
      assert Enabled(p, step) && IsProgress(p, step);
    }
  }

  /** A process that obtains nothing new can always be driven empty, in at most `Rank(p)` steps. */
  lemma {:induction false} CanDrain(p: Pipe) returns (steps: seq<PipeStep>)
    requires Bounded(p)
    ensures |steps| <= Rank(p) && NoNewClaims(steps)
    ensures Run(p, steps).Some? && Drained(Run(p, steps).value)
    decreases Rank(p)
  {
    RankOfDrained(p);
    if Drained(p) {
      steps := [];
    } else {
      var first := NextProgress(p);
      ProgressDecreasesRank(p, first);
      StepBounded(p, first);
      RankOfDrained(Apply(p, first));
      var rest := CanDrain(Apply(p, first));
      steps := [first] + rest;
      assert steps[1..] == rest;
    }
  }

  /** The counter does wrap: a task given up between its send and the increment leaves it at the top
      of the word. */
  lemma CounterUnderflows(t: Task)
    ensures exists steps :: Run(Booted(1, 0, None, [t]), steps).Some?
                            && Run(Booted(1, 0, None, [t]), steps).value.count == WORD - 1
  {
    var p0 := Booted(1, 0, None, [t]);
    var p1 := Apply(p0, Load);
    var p2 := Apply(p1, Pop);
    var p3 := Apply(p2, Send);
    var p4 := Apply(p3, Receive);
    RunSingle(p4, GetErr);
    RunOne(p3, Receive, [GetErr]);
    RunOne(p2, Send, [Receive] + [GetErr]);
    RunOne(p1, Pop, [Send] + ([Receive] + [GetErr]));
    RunOne(p0, Load, [Pop] + ([Send] + ([Receive] + [GetErr])));
  }
}
