/** The worker object: the fields its two loops share, and the stretches of code between two points
    where the other loop, a spawned computation or the network may come in. */
module Worker {
  import opened Entities
  import opened Pipeline

  // ---------------------------------------------------------------- the retry loop

  /** The steps the retry loop makes when the reads of the resource answer in this order and `left`
      more reads are allowed after the next one. */
  function Attempts(replies: seq<Option<Bytes>>, left: nat): seq<PipeStep>
    requires |replies| > left
    decreases left
  {
    if replies[0].Some? then [GetOk(replies[0].value)]
    else if left == 0 then [GetErr]
    else [GetErr] + Attempts(replies[1..], left - 1)
  }

  /** The first successful answer among those the loop looks at. */
  function FirstRead(replies: seq<Option<Bytes>>, left: nat): (r: Option<Bytes>)
    requires |replies| > left
    ensures r.Some? <==> exists i :: 0 <= i <= left && replies[i].Some?
    ensures forall i :: 0 <= i <= left && replies[i].Some? && (forall j :: 0 <= j < i ==> replies[j].None?) ==> r == replies[i]
    decreases left
  {
    if replies[0].Some? || left == 0 then replies[0]
    else
      var r := FirstRead(replies[1..], left - 1);
      assert r.Some? ==> exists i :: 1 <= i <= left && replies[i].Some? by {
        if r.Some? {
          var j :| 0 <= j <= left - 1 && replies[1..][j].Some?;
          assert replies[j + 1].Some?;
        }
      }
      assert forall i :: 1 <= i <= left ==> replies[i] == replies[1..][i - 1];
      r
  }

  /** Where the loop stops: at the first answer that is there, or at the last one it looks at. */
  lemma {:induction false} StopsAt(replies: seq<Option<Bytes>>, left: nat, i: nat)
    requires |replies| > left && i <= left && (replies[i].Some? || i == left)
    requires forall j :: 0 <= j < i ==> replies[j].None?
    ensures FirstRead(replies, left) == replies[i]
    decreases i
  {
    if i > 0 {
      assert replies[0].None?;
      StopsAt(replies[1..], left - 1, i - 1);
    }
  }

  /** The retry loop looks at one answer more than the retry sum: it goes on with the first one that
      is there, and gives the task up, and its place in the count, only when none is. */
  lemma {:induction false} AttemptsOutcome(p: Pipe, replies: seq<Option<Bytes>>, left: nat)
    requires p.consumer.Preparing? && p.consumer.attempt + left == p.retrySum + 1 && |replies| > left
    ensures var q := Run(p, Attempts(replies, left));
            var read := FirstRead(replies, left);
            q == Some(if read.Some? then p.(consumer := Idle, jobs := p.jobs + [Computing(p.consumer.task, read.value)])
                      else p.(consumer := Idle, count := Decremented(p.count)))
    decreases left
  {
    if replies[0].Some? {
      RunSingle(p, GetOk(replies[0].value));
    } else if left == 0 {
      RunSingle(p, GetErr);
    } else {
      RunOne(p, GetErr, Attempts(replies[1..], left - 1));
      AttemptsOutcome(Apply(p, GetErr), replies[1..], left - 1);
    }
  }

  lemma DecrementWraps(count: int)
    requires 0 <= count < WORD
    ensures Decremented(count) == (count + WORD - 1) % WORD == if count == 0 then WORD - 1 else count - 1
  {
  }

  // ---------------------------------------------------------------- the object

  class LocalWorker {
    const workerId: WorkerId
    const maxTask: nat
    const retrySum: nat
    const allowTypes: Option<seq<TaskType>>

    var backlog: seq<Task>
    var fetcher: Fetcher
    var chan: seq<Task>
    var count: int
    var consumer: Consumer
    var jobs: seq<Job>
    var results: seq<Job>

    ghost function View(): Pipe
      reads this
    {
      Pipe(maxTask, retrySum, allowTypes, backlog, fetcher, chan, count, consumer, jobs, results)
    }

    ghost predicate Valid()
      reads this
    {
      Bounded(View())
    }

    /** A process starts with the uncompleted tasks of its worker and an empty pipeline. */
    constructor (workerId: WorkerId, maxTask: nat, retrySum: nat, allowTypes: Option<seq<TaskType>>, uncompleted: seq<Task>)
      requires 1 <= maxTask < WORD && retrySum < RETRY_LIMIT
      ensures Valid() && this.workerId == workerId
      ensures this.maxTask == maxTask && this.retrySum == retrySum && this.allowTypes == allowTypes
      ensures backlog == uncompleted && fetcher == Head && chan == [] && count == 0
      ensures consumer == Idle && jobs == [] && results == []
    {
      this.workerId := workerId;
      this.maxTask := maxTask;
      this.retrySum := retrySum;
      this.allowTypes := allowTypes;
      backlog := uncompleted;
      fetcher := Head;
      chan := [];
      count := 0;
      consumer := Idle;
      jobs := [];
      results := [];
    }

    /** The loop head: go on only if fewer than `maxTask` tasks are in flight. */
    method LoadCount()
      requires Valid() && fetcher.Head?
      modifies this`fetcher
      ensures Valid() && View() == Apply(old(View()), Load)
      ensures fetcher == if |chan| + |jobs| + |results| + (if consumer.Idle? then 0 else 1) < maxTask then Choosing else Head
    {
      if count >= maxTask {
        return;
      }
      fetcher := Choosing;
    }

    /** The next task: the last one of the backlog while there is one; else the server is called. */
    method SelectTask(call: nat)
      requires Valid() && fetcher.Choosing?
      modifies this`fetcher, this`backlog
      ensures Valid()
      ensures View() == Apply(old(View()), if old(backlog) != [] then Pop else CallClaim(call))
      ensures old(backlog) != [] ==> fetcher.Hand? && old(backlog) == backlog + [fetcher.task]
      ensures old(backlog) == [] ==> fetcher == Claiming(call) && backlog == []
    {
      if backlog != [] {
        StepBounded(View(), Pop);
        fetcher, backlog := Hand(backlog[|backlog| - 1]), backlog[..|backlog| - 1];
      } else {
        StepBounded(View(), CallClaim(call));
        fetcher := Claiming(call);
      }
    }

    /** The answer of the claim call: a task, or an error that sends the loop back to its head. */
    method ClaimAnswered(answer: Option<Task>)
      requires Valid() && fetcher.Claiming?
      modifies this`fetcher
      ensures Valid() && View() == Apply(old(View()), if answer.Some? then ClaimOk(answer.value) else ClaimErr)
      ensures fetcher == if answer.Some? then Hand(answer.value) else Head
    {
      fetcher := if answer.Some? then Hand(answer.value) else Head;
    }

    /** The send. There is always room in the channel. */
    method SendTask()
      requires Valid() && fetcher.Hand?
      modifies this`fetcher, this`chan
      ensures Valid() && Enabled(old(View()), Send) && View() == Apply(old(View()), Send)
      ensures chan == old(chan) + [old(fetcher).task] && fetcher == Sent && |chan| <= maxTask
    {
      SendNeverBlocks(View());
      StepBounded(View(), Send);
      chan := chan + [fetcher.task];
      fetcher := Sent;
    }

    /** The increment of the counter, after the send. */
    method CountTask()
      requires Valid() && fetcher.Sent?
      modifies this`fetcher, this`count
      ensures Valid() && View() == Apply(old(View()), Increment)
      ensures fetcher == Head && count == |chan| + |jobs| + |results| + if consumer.Idle? then 0 else 1
    {
      StepBounded(View(), Increment);
      count := (count + 1) % WORD;
      fetcher := Head;
    }

    /** The task that was sent first, and its first read. */
    method ReceiveTask()
      requires Valid() && consumer.Idle? && chan != []
      modifies this`consumer, this`chan
      ensures Valid() && View() == Apply(old(View()), Receive)
      ensures consumer.Preparing? && consumer.attempt == 1 && old(chan) == [consumer.task] + chan
    {
      StepBounded(View(), Receive);
      consumer := Preparing(chan[0], 1);
      chan := chan[1..];
    }

    /** The retry loop over the reads of the resource, whose answers are given in their order. */
    method PrepareTask(replies: seq<Option<Bytes>>)
      requires Valid() && consumer.Preparing? && consumer.attempt == 1 && |replies| > retrySum
      modifies this`consumer, this`jobs, this`count
      ensures Valid() && Some(View()) == Run(old(View()), Attempts(replies, retrySum))
      ensures var read := FirstRead(replies, retrySum);
              && consumer.Idle?
              && jobs == (if read.Some? then old(jobs) + [Computing(old(consumer).task, read.value)] else old(jobs))
              && count == (if read.Some? then old(count) else Decremented(old(count)))
      ensures forall i :: 0 <= i <= retrySum && replies[i].Some? && (forall j :: 0 <= j < i ==> replies[j].None?) ==>
                jobs == old(jobs) + [Computing(old(consumer).task, replies[i].value)] && count == old(count)
      ensures (forall i :: 0 <= i <= retrySum ==> replies[i].None?) ==>
                jobs == old(jobs) && count == if old(count) == 0 then WORD - 1 else old(count) - 1
    {
      var task := consumer.task;
      var retryCount := 1;
      var result := replies[0];
      AttemptsOutcome(View(), replies, retrySum);
      BoundOverRuns(View(), Attempts(replies, retrySum));
      DecrementWraps(count);
      hide Bounded, Run, Attempts, Decremented, FirstRead;
      while result.None? && retryCount <= retrySum
        invariant 1 <= retryCount <= retrySum + 1
        invariant result == replies[retryCount - 1]
        invariant forall j :: 0 <= j < retryCount - 1 ==> replies[j].None?
      {
        result := replies[retryCount];
        retryCount := retryCount + 1;
      }
      StopsAt(replies, retrySum, retryCount - 1);
      consumer := Idle;
      if result.None? {
        count := (count + WORD - 1) % WORD;
      } else {
        jobs := jobs + [Computing(task, result.value)];
      }
    }

    /** A spawned computation ends. */
    method FinishJob(index: nat, outcome: Outcome)
      requires Valid() && index < |jobs| && jobs[index].Computing?
      modifies this`jobs
      ensures Valid() && View() == Apply(old(View()), Compute(index, outcome))
      ensures jobs == old(jobs)[index := Waiting(old(jobs)[index].task, outcome)]
    {
      StepBounded(View(), Compute(index, outcome));
      jobs := jobs[index := Waiting(jobs[index].task, outcome)];
    }

    /** A finished computation finds the one slot of the result channel free. */
    method DeliverResult(index: nat)
      requires Valid() && index < |jobs| && jobs[index].Waiting? && results == []
      modifies this`jobs, this`results
      ensures Valid() && View() == Apply(old(View()), Deliver(index))
      ensures results == [old(jobs)[index]] && jobs == old(jobs)[..index] + old(jobs)[index + 1..]
    {
      StepBounded(View(), Deliver(index));
      results := results + [jobs[index]];
      jobs := jobs[..index] + jobs[index + 1..];
    }

    /** The consumer takes a result and calls the server to record it. */
    method RecordResult() returns (tid: Id, outcome: Outcome)
      requires Valid() && consumer.Idle? && results != []
      modifies this`consumer, this`results
      ensures Valid() && View() == Apply(old(View()), TakeResult)
      ensures old(results) == [Waiting(old(results)[0].task, outcome)] && tid == old(results)[0].task.id
      ensures results == [] && consumer == Awaiting(tid)
    {
      StepBounded(View(), TakeResult);
      tid, outcome := results[0].task.id, results[0].outcome;
      consumer := Awaiting(tid);
      results := results[1..];
    }

    /** The answer of the record call, or its failure: the task no longer counts either way. */
    method EndRecord()
      requires Valid() && consumer.Awaiting?
      modifies this`consumer, this`count
      ensures Valid() && View() == Apply(old(View()), RecordDone)
      ensures consumer == Idle && count == if old(count) == 0 then WORD - 1 else old(count) - 1
    {
      StepBounded(View(), RecordDone);
      consumer := Idle;
      count := (count + WORD - 1) % WORD;
    }

    /** One round of the fetcher loop, when nothing else runs in between: at most one task is taken,
        and in the end the count is exact again. */
    method FetcherRound(call: nat, answer: Option<Task>) returns (sent: bool)
      requires Valid() && fetcher.Head?
      modifies this`fetcher, this`backlog, this`chan, this`count
      ensures Valid() && fetcher == Head && count == |chan| + |jobs| + |results| + if consumer.Idle? then 0 else 1
      ensures sent <==> old(|chan| + |jobs| + |results| + if consumer.Idle? then 0 else 1) < maxTask && (old(backlog) != [] || answer.Some?)
      ensures chan == if !sent then old(chan)
                      else if old(backlog) != [] then old(chan) + [old(backlog)[|old(backlog)| - 1]]
                      else old(chan) + [answer.value]
      ensures backlog == if sent && old(backlog) != [] then old(backlog)[..|old(backlog)| - 1] else old(backlog)
    {
      sent := false;
      LoadCount();
      if fetcher.Choosing? {
        SelectTask(call);
        if fetcher.Claiming? {
          ClaimAnswered(answer);
        }
        if fetcher.Hand? {
          SendTask();
          CountTask();
          sent := true;
        }
      }
    }
  }
}
