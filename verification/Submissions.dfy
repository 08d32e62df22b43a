/** Submitting a task is idempotent, whatever else runs at the same time. */
module Submissions {
  import opened Entities
  import opened TaskTable
  import opened Resources
  import opened Protocol
  import opened Lease

  /** The columns no statement ever writes again. */
  predicate SameTask(row: Task, row': Task) {
    && row'.id == row.id && row'.miner == row.miner && row'.resourceId == row.resourceId
    && row'.taskType == row.taskType && row'.comment == row.comment && row'.createAt == row.createAt
  }

  ghost predicate RowsKept(rows: Rows, rows': Rows) {
    forall t :: t in rows ==> t in rows' && SameTask(rows[t], rows'[t])
  }

  lemma SetStateKeepsTasks(rows: Rows, ids: seq<Id>, state: TaskState)
    ensures RowsKept(rows, SetState(rows, ids, state))
  {
  }

  lemma RecordKeepsTasks(s: World, call: RecordCall)
    ensures RowsKept(s.rows, RecordRows(s, call))
  {
  }

  /** No step of any kind deletes a row or changes what its task is. */
  lemma StepKeepsTasks(c: Config, s: World, step: Step)
    requires Enabled(c, s, step)
    ensures RowsKept(s.rows, Apply(c, s, step).rows)
  {
    RowsAreWritten(c, s, step);
    hide Apply, IsUncompleted, IsOldest, LocalEnabled, SetState, RecordRows;
    match step
    case ReqReset(r, delivered) => SetStateKeepsTasks(s.rows, [c.tid(s.reqs[r].sub)], Init);
    case RecordNext(k) => RecordKeepsTasks(s, s.records[k]);
    case Operator(ids, state) => SetStateKeepsTasks(s.rows, ids, state);
    case _ =>
  }

  predicate Inserts(c: Config, s: World, step: Step, t: Id) {
    step.AddNext? && step.call in s.adds && s.adds[step.call].pc.InsertTask? && c.tid(s.adds[step.call].sub) == t
    && t !in s.rows
  }

  /** The row is about the task the call asks for, and says so as the call does. */
  predicate RowOfCall(c: Config, row: Task, call: AddCall) {
    && row.id == c.tid(call.sub)
    && row.miner == call.sub.miner.noPrefix
    && row.resourceId == c.rid(call.sub.bytes)
    && row.taskType == call.sub.taskType
    && row.comment == call.comment
  }

  /** A row comes into being only by the insert of a submission of its task, and with the columns that
      submission describes. */
  lemma RowsComeFromInserts(c: Config, s: World, step: Step, t: Id)
    requires Enabled(c, s, step) && t !in s.rows
    ensures t in Apply(c, s, step).rows <==> Inserts(c, s, step, t)
    ensures Inserts(c, s, step, t) ==>
              var call := s.adds[step.call];
              var row := Apply(c, s, step).rows[t];
              && row.id == t && row.miner == call.sub.miner.noPrefix && row.resourceId == c.rid(call.sub.bytes)
              && row.taskType == call.sub.taskType && row.comment == call.comment && row.state == Init
              && row.createAt == call.pc.at && row.startAt == 0 && row.completeAt == 0
              && row.workerId == "" && row.proof == [] && row.errorMsg == ""
  {
    RowsAreWritten(c, s, step);
    hide Apply, IsUncompleted, IsOldest, LocalEnabled;
  }

  function InsertCount(c: Config, s: World, steps: seq<Step>, t: Id): nat
    requires IsRun(c, s, steps)
    decreases |steps|
  {
    if steps == [] then 0
    else (if Inserts(c, s, steps[0], t) then 1 else 0) + InsertCount(c, Apply(c, s, steps[0]), steps[1..], t)
  }

  /** Over every run, however many submissions of the same task interleave, its row is inserted once
      if it is there in the end and never otherwise. */
  lemma {:induction false} OneRowPerTask(c: Config, s: World, steps: seq<Step>, t: Id)
    requires IsRun(c, s, steps)
    ensures RowsKept(s.rows, After(c, s, steps).rows)
    ensures InsertCount(c, s, steps, t) == if t in After(c, s, steps).rows && t !in s.rows then 1 else 0
    decreases |steps|
  {
    hide Enabled, Apply;
    if steps != [] {
      var next := Apply(c, s, steps[0]);
      StepKeepsTasks(c, s, steps[0]);
      if t !in s.rows {
        RowsComeFromInserts(c, s, steps[0], t);
      }
      OneRowPerTask(c, next, steps[1..], t);
    }
  }

  /** A submission call leaves every row that exists exactly as it is, in whatever state it is, and
      can only add the row of its own task. */
  lemma SubmissionAltersNoRow(c: Config, s: World, step: Step)
    requires Enabled(c, s, step) && (step.AddBegin? || step.AddNext? || step.AddFail?)
    ensures forall t :: t in s.rows ==> t in Apply(c, s, step).rows && Apply(c, s, step).rows[t] == s.rows[t]
    ensures forall t :: t in Apply(c, s, step).rows && t !in s.rows ==> step.AddNext? && t == c.tid(s.adds[step.call].sub)
  {
  }

  // ---------------------------------------------------------------- what a call returns

  /** An answer is the id of the task that was submitted, and its row is there. */
  ghost predicate ReturnsRight(c: Config, s: World) {
    forall k :: k in s.adds && s.adds[k].pc.Returned? && s.adds[k].pc.id.Some? ==>
      s.adds[k].pc.id.value == c.tid(s.adds[k].sub) && s.adds[k].pc.id.value in s.rows
  }

  lemma StepReturnsRight(c: Config, s: World, step: Step)
    requires ReturnsRight(c, s) && Enabled(c, s, step)
    ensures ReturnsRight(c, Apply(c, s, step))
  {
    StepKeepsTasks(c, s, step);
    RowsAreWritten(c, s, step);
    AddsAreWritten(c, s, step);
    hide Apply, IsUncompleted, IsOldest, LocalEnabled;
  }

  lemma {:induction false} RunReturnsRight(c: Config, s: World, steps: seq<Step>)
    requires ReturnsRight(c, s) && IsRun(c, s, steps)
    ensures ReturnsRight(c, After(c, s, steps))
    decreases |steps|
  {
    hide ReturnsRight, Enabled, Apply;
    if steps != [] {
      StepReturnsRight(c, s, steps[0]);
      RunReturnsRight(c, Apply(c, s, steps[0]), steps[1..]);
    }
  }

  /** Over every run, a submission that succeeds is answered with the id of its own task, and there is
      a row of that id; so two of them are answered alike if and only if they are of one task. */
  lemma SubmissionsAgree(c: Config, now: int, steps: seq<Step>, j: nat, k: nat)
    requires IsRun(c, Start(now), steps)
    requires var s := After(c, Start(now), steps);
             && j in s.adds && s.adds[j].pc.Returned? && s.adds[j].pc.id.Some?
             && k in s.adds && s.adds[k].pc.Returned? && s.adds[k].pc.id.Some?
    ensures var s := After(c, Start(now), steps);
            && s.adds[k].pc.id.value in s.rows
            && (s.adds[j].pc.id == s.adds[k].pc.id <==> c.tid(s.adds[j].sub) == c.tid(s.adds[k].sub))
  {
    RunReturnsRight(c, Start(now), steps);
  }

  // ---------------------------------------------------------------- what is known of calls and rows

  /** Calls and requests are about submissions of the run, and so are the rows. */
  ghost predicate Known(c: Config, s: World) {
    && (forall k :: k in s.adds ==> s.adds[k].sub in c.subs)
    && (forall r :: r in s.reqs ==> s.reqs[r].sub in c.subs)
    && (forall t :: t in s.rows ==> Submits(c, t))
  }

  ghost predicate Submits(c: Config, t: Id) {
    exists a :: a in c.subs && c.tid(a) == t
  }

  lemma CallsKnown(c: Config, s: World, step: Step)
    requires Known(c, s) && Enabled(c, s, step)
    ensures var s' := Apply(c, s, step);
            && (forall k :: k in s'.adds ==> s'.adds[k].sub in c.subs)
            && (forall r :: r in s'.reqs ==> s'.reqs[r].sub in c.subs)
  {
    hide Submits, IsUncompleted, IsOldest, LocalEnabled;
  }

  lemma StepKnown(c: Config, s: World, step: Step)
    requires Known(c, s) && Enabled(c, s, step)
    ensures Known(c, Apply(c, s, step))
  {
    var s' := Apply(c, s, step);
    CallsKnown(c, s, step);
    hide Apply;
    forall t | t in s'.rows ensures Submits(c, t) {
      if t !in s.rows {
        RowsComeFromInserts(c, s, step, t);
        assert s.adds[step.call].sub in c.subs;
      }
    }
  }

  lemma {:induction false} RunKnown(c: Config, s: World, steps: seq<Step>)
    requires Known(c, s) && IsRun(c, s, steps)
    ensures Known(c, After(c, s, steps))
    decreases |steps|
  {
    hide Known, Enabled, Apply;
    if steps != [] {
      StepKnown(c, s, steps[0]);
      RunKnown(c, Apply(c, s, steps[0]), steps[1..]);
    }
  }

  /** A call goes on being the call it was. */
  lemma StepKeepsCall(c: Config, s: World, step: Step, k: nat)
    requires Enabled(c, s, step) && k in s.adds
    ensures k in Apply(c, s, step).adds && Apply(c, s, step).adds[k].sub == s.adds[k].sub
    ensures Apply(c, s, step).adds[k].comment == s.adds[k].comment
  {
    AddsAreWritten(c, s, step);
    hide Apply, AddNextPc, IsUncompleted, IsOldest, LocalEnabled;
  }

  lemma {:induction false} RunKeepsCall(c: Config, s: World, steps: seq<Step>, k: nat)
    requires IsRun(c, s, steps) && k in s.adds
    ensures k in After(c, s, steps).adds && After(c, s, steps).adds[k].sub == s.adds[k].sub
    decreases |steps|
  {
    hide Enabled, Apply;
    if steps != [] {
      StepKeepsCall(c, s, steps[0], k);
      RunKeepsCall(c, Apply(c, s, steps[0]), steps[1..], k);
    }
  }

  ghost predicate RowsHaveCalls(c: Config, s: World) {
    forall t :: t in s.rows ==> s.rows[t].id == t && exists k :: k in s.adds && RowOfCall(c, s.rows[t], s.adds[k])
  }

  lemma StepRowsHaveCalls(c: Config, s: World, step: Step)
    requires RowsHaveCalls(c, s) && Enabled(c, s, step)
    ensures RowsHaveCalls(c, Apply(c, s, step))
  {
    var s' := Apply(c, s, step);
    StepKeepsTasks(c, s, step);
    forall t | t in s'.rows
      ensures s'.rows[t].id == t && exists k :: k in s'.adds && RowOfCall(c, s'.rows[t], s'.adds[k])
    {
      var k: nat;
      if t in s.rows {
        k :| k in s.adds && RowOfCall(c, s.rows[t], s.adds[k]);
      } else {
        RowsComeFromInserts(c, s, step, t);
        k := step.call;
      }
      hide Apply, Enabled;
      StepKeepsCall(c, s, step, k);
      assert RowOfCall(c, s'.rows[t], s'.adds[k]);
    }
  }

  lemma {:induction false} RunRowsHaveCalls(c: Config, s: World, steps: seq<Step>)
    requires RowsHaveCalls(c, s) && IsRun(c, s, steps)
    ensures RowsHaveCalls(c, After(c, s, steps))
    decreases |steps|
  {
    hide RowsHaveCalls, Enabled, Apply;
    if steps != [] {
      StepRowsHaveCalls(c, s, steps[0]);
      RunRowsHaveCalls(c, Apply(c, s, steps[0]), steps[1..]);
    }
  }

  /** Over every run, every row has the miner, the type, the comment and the resource of one submission
      call of its task. */
  lemma RowsAreAsSubmitted(c: Config, now: int, steps: seq<Step>, t: Id)
    requires IsRun(c, Start(now), steps) && t in After(c, Start(now), steps).rows
    ensures var s := After(c, Start(now), steps);
            exists k :: k in s.adds
                        && s.rows[t].id == c.tid(s.adds[k].sub) == t
                        && s.rows[t].miner == s.adds[k].sub.miner.noPrefix
                        && s.rows[t].taskType == s.adds[k].sub.taskType
                        && s.rows[t].comment == s.adds[k].comment
                        && s.rows[t].resourceId == c.rid(s.adds[k].sub.bytes)
  {
    RunRowsHaveCalls(c, Start(now), steps);
    var s := After(c, Start(now), steps);
    var k :| k in s.adds && RowOfCall(c, s.rows[t], s.adds[k]);
  }

  /** A submission that has found its task missing succeeds, after whatever has happened in between, if
      and only if no other submission has inserted the task meanwhile. If one has, it was exactly one,
      and the primary key turns this call into an error although the task is there. */
  lemma InsertSucceedsIff(c: Config, s: World, k: nat, between: seq<Step>)
    requires k in s.adds && s.adds[k].pc.CheckTask? && c.tid(s.adds[k].sub) !in s.rows
    requires var checked := Apply(c, s, AddNext(k));
             IsRun(c, checked, between) && k in After(c, checked, between).adds && After(c, checked, between).adds[k].pc.InsertTask?
    ensures var checked := Apply(c, s, AddNext(k));
            var t := c.tid(s.adds[k].sub);
            var done := Apply(c, After(c, checked, between), AddNext(k));
            && t in done.rows
            && InsertCount(c, checked, between, t) <= 1
            && done.adds[k].pc == Returned(if InsertCount(c, checked, between, t) == 0 then Some(t) else None)
  {
    var checked := Apply(c, s, AddNext(k));
    RunKeepsCall(c, checked, between, k);
    OneRowPerTask(c, checked, between, c.tid(s.adds[k].sub));
  }
}
