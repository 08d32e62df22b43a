/** Every task that may still have to be computed has its input in the resource store. */
module Availability {
  import opened Entities
  import opened TaskTable
  import opened Resources
  import opened Protocol
  import opened Lease
  import opened Discipline
  import opened Submissions
  import opened Integrity
  import Pipeline

  /** The bytes alone determine the task, as for the plugin, whose bytes name the miner. */
  ghost predicate BytesDetermineTask(c: Config) {
    forall a, b :: a in c.subs && b in c.subs && c.rid(a.bytes) == c.rid(b.bytes) ==> c.tid(a) == c.tid(b)
  }

  /** Some submission has both ids. */
  ghost predicate Origin(c: Config, t: Id, rid: Id) {
    exists a :: a in c.subs && c.tid(a) == t && c.rid(a.bytes) == rid
  }

  ghost predicate RowsOriginate(c: Config, rows: Rows) {
    forall t :: t in rows ==> Origin(c, t, rows[t].resourceId)
  }

  /** Some submission has these bytes under this id. */
  ghost predicate Given(c: Config, rid: Id, content: Bytes) {
    exists a :: a in c.subs && c.rid(a.bytes) == rid && a.bytes == content
  }

  ghost predicate FilesGiven(c: Config, files: Files) {
    forall rid :: rid in files ==> Given(c, rid, files[rid])
  }

  ghost predicate InputsPresent(rows: Rows, files: Files) {
    forall t :: t in rows && rows[t].state != Completed ==> rows[t].resourceId in files
  }

  /** A submission call past its first two statements finds the input stored, or the row there. */
  ghost predicate AddCovered(c: Config, rows: Rows, files: Files, call: AddCall) {
    call.pc.CheckTask? || call.pc.StampTask? || call.pc.InsertTask? ==>
      c.rid(call.sub.bytes) in files || c.tid(call.sub) in rows
  }

  ghost predicate AddsCovered(c: Config, s: World) {
    forall k :: k in s.adds ==> AddCovered(c, s.rows, s.files, s.adds[k])
  }

  /** A record call knows the resource of its row. */
  predicate RecordAware(rows: Rows, call: RecordCall) {
    call.pc.WriteProof? || call.pc.DeleteResource? ==> call.tid in rows && rows[call.tid].resourceId == call.pc.rid
  }

  ghost predicate RecordsAware(rows: Rows, records: map<nat, RecordCall>) {
    forall k :: k in records ==> RecordAware(rows, records[k])
  }

  /** What holds on every run, whatever breaks a lease or reopens a task. */
  ghost predicate Covered(c: Config, s: World) {
    && Known(c, s)
    && RowsOriginate(c, s.rows)
    && FilesGiven(c, s.files)
    && AddsCovered(c, s)
    && RecordsAware(s.rows, s.records)
  }

  // ---------------------------------------------------------------- what every step keeps

  function FilesWritten(c: Config, s: World, step: Step): Files
    requires Enabled(c, s, step)
  {
    match step
    case AddNext(k) => AddFiles(c, s, s.adds[k])
    case RecordNext(k) => if s.records[k].pc.DeleteResource? then s.files - {s.records[k].pc.rid} else s.files
    case _ => s.files
  }

  lemma FilesAreWritten(c: Config, s: World, step: Step)
    requires Enabled(c, s, step)
    ensures Apply(c, s, step).files == FilesWritten(c, s, step)
  {
    hide IsUncompleted, IsOldest, LocalEnabled, Pipeline.Apply;
    hide AddFiles, AddRows, AddNextPc, RecordRows, RecordCalls, SetState, Wins, WonRow, LookupPc, PollPc;
  }

  lemma RowsStayOriginal(c: Config, s: World, step: Step)
    requires Known(c, s) && RowsOriginate(c, s.rows) && Enabled(c, s, step)
    ensures RowsOriginate(c, Apply(c, s, step).rows)
  {
    var s' := Apply(c, s, step);
    StepKeepsTasks(c, s, step);
    hide Apply;
    forall t | t in s'.rows ensures Origin(c, t, s'.rows[t].resourceId) {
      if t !in s.rows {
        RowsComeFromInserts(c, s, step, t);
        assert s.adds[step.call].sub in c.subs;
      }
    }
  }

  lemma FilesStayGiven(c: Config, s: World, step: Step)
    requires Known(c, s) && FilesGiven(c, s.files) && Enabled(c, s, step)
    ensures FilesGiven(c, Apply(c, s, step).files)
  {
    FilesAreWritten(c, s, step);
    hide Apply;
    if step.AddNext? {
      var sub := s.adds[step.call].sub;
      assert sub in c.subs && Given(c, c.rid(sub.bytes), sub.bytes);
    }
    hide Known, IsUncompleted, IsOldest, LocalEnabled;
  }

  /** A record call is at its next statement, or is new, or as it was. */
  lemma RecordAfter(c: Config, s: World, step: Step, k: nat)
    requires Enabled(c, s, step) && k in Apply(c, s, step).records
    ensures var call := Apply(c, s, step).records[k];
            || call.pc.ReadRow? || call.pc.WriteError?
            || (k in s.records && step == RecordNext(k) && k in RecordCalls(s, k) && call == RecordCalls(s, k)[k])
            || (k in s.records && step != RecordNext(k) && call == s.records[k])
  {
    hide IsUncompleted, IsOldest, LocalEnabled, Pipeline.Apply, SetState, AddRows, AddFiles, RecordRows;
  }

  lemma RecordsStayAware(c: Config, s: World, step: Step)
    requires RecordsAware(s.rows, s.records) && Enabled(c, s, step)
    ensures RecordsAware(Apply(c, s, step).rows, Apply(c, s, step).records)
  {
    var s' := Apply(c, s, step);
    StepKeepsTasks(c, s, step);
    hide Apply, Enabled;
    forall k | k in s'.records ensures RecordAware(s'.rows, s'.records[k]) {
      RecordAfter(c, s, step, k);
      assert k in s.records ==> RecordAware(s.rows, s.records[k]);
    }
  }

  lemma SameResourceSameTask(c: Config, t: Id, u: Id, rid: Id)
    requires BytesDetermineTask(c) && Origin(c, t, rid) && Origin(c, u, rid)
    ensures t == u
  {
  }

  /** An input disappears only by the deletion of a record call, whose row is there. */
  lemma DeletedHasRow(c: Config, s: World, step: Step, rid: Id)
    requires Covered(c, s) && Enabled(c, s, step) && rid in s.files && rid !in Apply(c, s, step).files
    ensures step.RecordNext? && s.records[step.call].pc.DeleteResource? && s.records[step.call].pc.rid == rid
    ensures s.records[step.call].tid in s.rows && Origin(c, s.records[step.call].tid, rid)
  {
    FilesAreWritten(c, s, step);
    hide Apply, IsUncompleted, IsOldest, LocalEnabled;
    if step.RecordNext? {
      assert RecordAware(s.rows, s.records[step.call]);
    }
  }

  /** The next statement of a call. */
  lemma StatementCovers(c: Config, s: World, call: AddCall)
    requires AddCovered(c, s.rows, s.files, call)
    ensures AddCovered(c, AddRows(c, s, call), AddFiles(c, s, call), call.(pc := AddNextPc(c, s, call)))
  {
  }

  /** A call is at its next statement, or is new, or as it was. */
  lemma CallAfter(c: Config, s: World, step: Step, k: nat)
    requires Enabled(c, s, step) && k in Apply(c, s, step).adds
    ensures var call := Apply(c, s, step).adds[k];
            || call.pc.CheckResource? || call.pc.Returned?
            || (k in s.adds && step == AddNext(k) && call == s.adds[k].(pc := AddNextPc(c, s, s.adds[k])))
            || (k in s.adds && step != AddNext(k) && call == s.adds[k])
  {
    AddsAreWritten(c, s, step);
    hide Apply, AddNextPc, IsUncompleted, IsOldest, LocalEnabled;
  }

  /** What a call relies on outlives every step: an input is deleted only when its row is there. */
  lemma ReliedOnStays(c: Config, s: World, step: Step, sub: Submission)
    requires BytesDetermineTask(c) && Covered(c, s) && Enabled(c, s, step) && sub in c.subs
    requires c.rid(sub.bytes) in s.files || c.tid(sub) in s.rows
    ensures c.rid(sub.bytes) in Apply(c, s, step).files || c.tid(sub) in Apply(c, s, step).rows
  {
    var s' := Apply(c, s, step);
    StepKeepsTasks(c, s, step);
    assert Origin(c, c.tid(sub), c.rid(sub.bytes));
    hide Apply, Enabled, Covered, BytesDetermineTask;
    if c.rid(sub.bytes) in s.files && c.rid(sub.bytes) !in s'.files {
      DeletedHasRow(c, s, step, c.rid(sub.bytes));
      SameResourceSameTask(c, c.tid(sub), s.records[step.call].tid, c.rid(sub.bytes));
    }
  }

  lemma OwnStatementCovers(c: Config, s: World, k: nat)
    requires Enabled(c, s, AddNext(k)) && AddCovered(c, s.rows, s.files, s.adds[k])
    ensures var s' := Apply(c, s, AddNext(k)); k in s'.adds && AddCovered(c, s'.rows, s'.files, s'.adds[k])
  {
    StatementCovers(c, s, s.adds[k]);
    hide AddCovered, AddRows, AddFiles, AddNextPc;
  }

  lemma CallIsCovered(c: Config, s: World, k: nat)
    requires Covered(c, s) && k in s.adds
    ensures s.adds[k].sub in c.subs && AddCovered(c, s.rows, s.files, s.adds[k])
  {
  }

  lemma CallStaysCovered(c: Config, s: World, step: Step, k: nat)
    requires BytesDetermineTask(c) && Covered(c, s) && Enabled(c, s, step) && k in Apply(c, s, step).adds
    ensures var s' := Apply(c, s, step); AddCovered(c, s'.rows, s'.files, s'.adds[k])
  {
    hide BytesDetermineTask, Covered, Enabled, Apply, AddNextPc;
    CallAfter(c, s, step, k);
    if k in s.adds {
      CallIsCovered(c, s, k);
      if step == AddNext(k) {
        OwnStatementCovers(c, s, k);
      } else if c.rid(s.adds[k].sub.bytes) in s.files || c.tid(s.adds[k].sub) in s.rows {
        ReliedOnStays(c, s, step, s.adds[k].sub);
      }
    }
  }

  lemma AddsStayCovered(c: Config, s: World, step: Step)
    requires BytesDetermineTask(c) && Covered(c, s) && Enabled(c, s, step)
    ensures AddsCovered(c, Apply(c, s, step))
  {
    var s' := Apply(c, s, step);
    hide BytesDetermineTask, Covered, Enabled, Apply, AddCovered;
    forall k | k in s'.adds ensures AddCovered(c, s'.rows, s'.files, s'.adds[k]) {
      CallStaysCovered(c, s, step, k);
    }
  }

  lemma StepCovered(c: Config, s: World, step: Step)
    requires BytesDetermineTask(c) && Covered(c, s) && Enabled(c, s, step)
    ensures Covered(c, Apply(c, s, step))
  {
    StepKnown(c, s, step);
    RowsStayOriginal(c, s, step);
    FilesStayGiven(c, s, step);
    AddsStayCovered(c, s, step);
    RecordsStayAware(c, s, step);
    hide Known, RowsOriginate, FilesGiven, AddsCovered, RecordsAware, Enabled, Apply;
  }

  // ---------------------------------------------------------------- what takes an input away

  /** To give the task `t` another state would reopen it without its input. */
  predicate Orphaned(rows: Rows, files: Files, t: Id) {
    t in rows && rows[t].state == Completed && rows[t].resourceId !in files
  }

  /** The two ways to starve a task: to reopen a completed one whose input has been deleted; and to
      execute the deletion of a record call after its task has been reopened. */
  ghost predicate Starves(c: Config, s: World, step: Step) {
    match step
    case ReqReset(r, _) => r in s.reqs && Orphaned(s.rows, s.files, c.tid(s.reqs[r].sub))
    case Operator(ids, state) => state != Completed && exists t :: t in ids && Orphaned(s.rows, s.files, t)
    case RecordNext(k) =>
      && k in s.records && s.records[k].pc.DeleteResource?
      && s.records[k].tid in s.rows && s.rows[s.records[k].tid].state != Completed
    case _ => false
  }

  /** A reset, or an operator's update, keeps every needed input present if and only if every completed
      task it reopens still has its input stored. */
  lemma ReopeningIsSafeIff(rows: Rows, files: Files, ids: seq<Id>, state: TaskState)
    requires InputsPresent(rows, files)
    ensures InputsPresent(SetState(rows, ids, state), files)
            <==> !(state != Completed && exists t :: t in ids && Orphaned(rows, files, t))
  {
    var after := SetState(rows, ids, state);
    if t :| t in ids && state != Completed && Orphaned(rows, files, t) {
      assert after[t].state != Completed;
    }
  }

  /** The deletion of a record call keeps every needed input present if and only if its own task is still
      completed. */
  lemma DeletionOfCallIsSafeIff(c: Config, s: World, call: RecordCall)
    requires BytesDetermineTask(c) && RowsOriginate(c, s.rows) && InputsPresent(s.rows, s.files)
    requires RecordAware(s.rows, call) && call.pc.DeleteResource?
    ensures InputsPresent(s.rows, s.files - {call.pc.rid}) <==> s.rows[call.tid].state == Completed
  {
    if s.rows[call.tid].state == Completed {
      forall t | t in s.rows && s.rows[t].state != Completed ensures s.rows[t].resourceId != call.pc.rid {
        if s.rows[t].resourceId == call.pc.rid {
          SameResourceSameTask(c, t, call.tid, call.pc.rid);
        }
      }
    }
  }

  lemma InsertKeepsPresent(c: Config, s: World, k: nat)
    requires Covered(c, s) && InputsPresent(s.rows, s.files) && k in s.adds
    ensures InputsPresent(AddRows(c, s, s.adds[k]), AddFiles(c, s, s.adds[k]))
  {
    assert AddCovered(c, s.rows, s.files, s.adds[k]);
  }

  /** Where the lease holds, only a running task is recorded. */
  lemma WriteKeepsPresent(s: World, k: nat)
    requires LeaseHolds(s) && InputsPresent(s.rows, s.files) && k in s.records
    ensures InputsPresent(RecordRows(s, s.records[k]), s.files)
  {
    var t := s.records[k].tid;
    assert LeaseAt(s.rows, s.workers, s.records, s.lost, t);
    assert Pending(s.records[k]) ==> PendingCall(s.records, k, t);
    hide LeaseHolds, HeldBy;
  }

  lemma DeletePresentIff(c: Config, s: World, k: nat)
    requires BytesDetermineTask(c) && RowsOriginate(c, s.rows) && InputsPresent(s.rows, s.files) && k in s.records
    requires RecordAware(s.rows, s.records[k]) && s.records[k].pc.DeleteResource?
    ensures InputsPresent(RecordEffect(s, k).rows, RecordEffect(s, k).files) <==> !Starves(c, s, RecordNext(k))
  {
    hide BytesDetermineTask, RowsOriginate, InputsPresent;
    DeletionOfCallIsSafeIff(c, s, s.records[k]);
  }

  lemma RecordPresentIff(c: Config, s: World, k: nat)
    requires BytesDetermineTask(c) && Covered(c, s) && LeaseHolds(s) && InputsPresent(s.rows, s.files) && k in s.records
    ensures InputsPresent(RecordEffect(s, k).rows, RecordEffect(s, k).files) <==> !Starves(c, s, RecordNext(k))
  {
    hide BytesDetermineTask, RowsOriginate, InputsPresent, LeaseHolds, RecordRows, RecordCalls, FilesGiven, AddsCovered, Known;
    assert RecordAware(s.rows, s.records[k]);
    if s.records[k].pc.DeleteResource? {
      DeletePresentIff(c, s, k);
    } else {
      WriteKeepsPresent(s, k);
    }
  }

  /** A claim changes no completed row, and the other steps change no row at all. */
  lemma OthersKeepPresent(c: Config, s: World, step: Step)
    requires InputsPresent(s.rows, s.files) && Enabled(c, s, step)
    requires !step.AddNext? && !step.ReqReset? && !step.Operator? && !step.RecordNext?
    ensures InputsPresent(Apply(c, s, step).rows, Apply(c, s, step).files)
  {
    RowsAreWritten(c, s, step);
    FilesAreWritten(c, s, step);
    hide Apply, IsUncompleted, IsOldest, LocalEnabled;
  }

  /** Every single step keeps every needed input present if and only if it starves no task. */
  lemma StepPresentIff(c: Config, s: World, step: Step)
    requires BytesDetermineTask(c) && Covered(c, s) && LeaseHolds(s) && InputsPresent(s.rows, s.files)
    requires Enabled(c, s, step)
    ensures InputsPresent(Apply(c, s, step).rows, Apply(c, s, step).files) <==> !Starves(c, s, step)
  {
    hide BytesDetermineTask, Covered, LeaseHolds, InputsPresent, Orphaned, IsUncompleted, IsOldest, LocalEnabled;
    match step
    case AddNext(k) => InsertKeepsPresent(c, s, k);
    case ReqReset(r, _) =>
      var ids := [c.tid(s.reqs[r].sub)];
      assert ids[0] in ids;
      ReopeningIsSafeIff(s.rows, s.files, ids, Init);
    case Operator(ids, state) => ReopeningIsSafeIff(s.rows, s.files, ids, state);
    case RecordNext(k) => RecordPresentIff(c, s, k);
    case _ => OthersKeepPresent(c, s, step);
  }

  /** Deleting the input of a completed task leaves every other one present if and only if nobody has
      submitted the same bytes as another task that is not completed. */
  lemma DeletionIsSafeIff(c: Config, rows: Rows, files: Files, a: Submission)
    requires NoCollision(c) && RowsSound(c, rows) && RowsOriginate(c, rows) && InputsPresent(rows, files)
    requires a in c.subs && c.tid(a) in rows && rows[c.tid(a)].state == Completed
    ensures InputsPresent(rows, files - {rows[c.tid(a)].resourceId})
            <==> forall b :: b in c.subs && c.tid(b) in rows && rows[c.tid(b)].state != Completed ==> b.bytes != a.bytes
  {
    var rid := rows[c.tid(a)].resourceId;
    assert RowSound(c, rows[c.tid(a)]) && rid == c.rid(a.bytes);
    if b :| b in c.subs && c.tid(b) in rows && rows[c.tid(b)].state != Completed && b.bytes == a.bytes {
      assert RowSound(c, rows[c.tid(b)]) && rows[c.tid(b)].resourceId == rid;
    } else {
      forall t | t in rows && rows[t].state != Completed ensures rows[t].resourceId != rid {
        assert Origin(c, t, rows[t].resourceId);
      }
    }
  }

  // ---------------------------------------------------------------- every run

  ghost predicate NeverStarves(c: Config, s: World, steps: seq<Step>)
    requires IsRun(c, s, steps)
    decreases |steps|
  {
    steps == [] || (!Starves(c, s, steps[0]) && NeverStarves(c, Apply(c, s, steps[0]), steps[1..]))
  }

  /** At every moment of the run every needed input is there. */
  ghost predicate AlwaysPresent(c: Config, s: World, steps: seq<Step>)
    requires IsRun(c, s, steps)
    decreases |steps|
  {
    InputsPresent(s.rows, s.files) && (steps == [] || AlwaysPresent(c, Apply(c, s, steps[0]), steps[1..]))
  }

  lemma {:induction false} AlwaysPresentIff(c: Config, s: World, steps: seq<Step>)
    requires BytesDetermineTask(c) && Covered(c, s) && Leased(s) && InputsPresent(s.rows, s.files)
    requires IsRun(c, s, steps) && NeverBreaks(c, s, steps)
    ensures Covered(c, After(c, s, steps))
    ensures AlwaysPresent(c, s, steps) <==> NeverStarves(c, s, steps)
    ensures NeverStarves(c, s, steps) ==> InputsPresent(After(c, s, steps).rows, After(c, s, steps).files)
    decreases |steps|
  {
    hide BytesDetermineTask, Covered, LeaseHolds, KeyedById, InputsPresent, Breaks, Starves, Enabled, Apply;
    if steps != [] {
      var next := Apply(c, s, steps[0]);
      StepCovered(c, s, steps[0]);
      StepKeepsLeaseIff(c, s, steps[0]);
      StepPresentIff(c, s, steps[0]);
      if InputsPresent(next.rows, next.files) {
        AlwaysPresentIff(c, next, steps[1..]);
      } else {
        assert !AlwaysPresent(c, next, steps[1..]);
        RunCovered(c, next, steps[1..]);
      }
    }
  }

  lemma {:induction false} RunCovered(c: Config, s: World, steps: seq<Step>)
    requires BytesDetermineTask(c) && Covered(c, s) && IsRun(c, s, steps)
    ensures Covered(c, After(c, s, steps))
    decreases |steps|
  {
    hide BytesDetermineTask, Covered, Enabled, Apply;
    if steps != [] {
      StepCovered(c, s, steps[0]);
      RunCovered(c, Apply(c, s, steps[0]), steps[1..]);
    }
  }

  /** Resource availability, over every run that breaks no lease: after every single step every row that is
      initial, running or failed has its input in the store, if and only if no step starves a task. */
  lemma InputsAreAvailable(c: Config, now: int, steps: seq<Step>)
    requires BytesDetermineTask(c) && IsRun(c, Start(now), steps) && NeverBreaks(c, Start(now), steps)
    ensures AlwaysPresent(c, Start(now), steps) <==> NeverStarves(c, Start(now), steps)
    ensures var s := After(c, Start(now), steps);
            NeverStarves(c, Start(now), steps) ==>
              forall t :: t in s.rows && s.rows[t].state != Completed ==> s.rows[t].resourceId in s.files
  {
    AlwaysPresentIff(c, Start(now), steps);
  }

  /** What is stored under a task's resource id are the very bytes of every submission of the task, on
      every run: whatever a worker reads for a task is what the requesters gave for it. */
  lemma StoredIsGiven(c: Config, s: World, a: Submission)
    requires NoCollision(c) && Covered(c, s) && a in c.subs && c.tid(a) in s.rows
    ensures s.rows[c.tid(a)].resourceId == c.rid(a.bytes)
    ensures c.rid(a.bytes) in s.files ==> s.files[c.rid(a.bytes)] == a.bytes
  {
    assert Origin(c, c.tid(a), s.rows[c.tid(a)].resourceId);
    assert c.rid(a.bytes) in s.files ==> Given(c, c.rid(a.bytes), s.files[c.rid(a.bytes)]);
  }

  /** And so, over every run that breaks no lease and starves no task, every task that is not completed
      finds the bytes of whoever submitted it. */
  lemma InputsAreRight(c: Config, now: int, steps: seq<Step>, a: Submission)
    requires NoCollision(c) && BytesDetermineTask(c) && a in c.subs
    requires IsRun(c, Start(now), steps) && NeverBreaks(c, Start(now), steps) && NeverStarves(c, Start(now), steps)
    ensures var s := After(c, Start(now), steps);
            var t := c.tid(a);
            t in s.rows && s.rows[t].state != Completed ==>
              s.rows[t].resourceId == c.rid(a.bytes)
              && s.rows[t].resourceId in s.files && s.files[s.rows[t].resourceId] == a.bytes
  {
    AlwaysPresentIff(c, Start(now), steps);
    var s := After(c, Start(now), steps);
    hide NoCollision, BytesDetermineTask, Covered, IsRun, NeverBreaks, NeverStarves, After;
    if c.tid(a) in s.rows {
      StoredIsGiven(c, s, a);
    }
  }

  // ---------------------------------------------------------------- the discipline suffices

  /** The task of a call that is about to delete its input is completed. */
  ghost predicate DeletesDone(s: World) {
    forall k :: k in s.records && s.records[k].pc.DeleteResource? ==>
      s.records[k].tid in s.rows && s.rows[s.records[k].tid].state == Completed
  }

  lemma StepDeletesDone(c: Config, s: World, step: Step)
    requires Kept(c, s) && RecordsAware(s.rows, s.records) && DeletesDone(s)
    requires Enabled(c, s, step) && Disciplined(c, s, step)
    ensures DeletesDone(Apply(c, s, step)) && !Starves(c, s, step)
  {
    var s' := Apply(c, s, step);
    if step.ReqReset? {
      assert HasFailed(s.rows, c.tid(s.reqs[step.req].sub));
    }
    forall k | k in s'.records && s'.records[k].pc.DeleteResource?
      ensures s'.records[k].tid in s'.rows && s'.rows[s'.records[k].tid].state == Completed
    {
      DeleteIsDone(c, s, step, k);
    }
    hide Kept, Apply, IsUncompleted, IsOldest, LocalEnabled;
  }

  lemma DeleteIsDone(c: Config, s: World, step: Step, k: nat)
    requires Kept(c, s) && RecordsAware(s.rows, s.records) && DeletesDone(s)
    requires Enabled(c, s, step) && Disciplined(c, s, step)
    requires k in Apply(c, s, step).records && Apply(c, s, step).records[k].pc.DeleteResource?
    ensures var s' := Apply(c, s, step);
            s'.records[k].tid in s'.rows && s'.rows[s'.records[k].tid].state == Completed
  {
    RecordAfter(c, s, step, k);
    RowsAreWritten(c, s, step);
    assert k in s.records && RecordAware(s.rows, s.records[k]);
    hide Kept, Apply, Enabled, Disciplined;
    if s.records[k].pc.DeleteResource? {
      StepRevivesNothing(c, s, step, s.records[k].tid);
    }
  }

  /** A disciplined run starves no task. */
  lemma {:induction false} DisciplineStarvesNothing(c: Config, s: World, steps: seq<Step>)
    requires Kept(c, s) && RecordsAware(s.rows, s.records) && DeletesDone(s)
    requires IsRun(c, s, steps) && IsDisciplined(c, s, steps)
    ensures NeverStarves(c, s, steps)
    decreases |steps|
  {
    hide Kept, RecordsAware, DeletesDone, Starves, Enabled, Apply, Disciplined;
    if steps != [] {
      StepKept(c, s, steps[0]);
      RecordsStayAware(c, s, steps[0]);
      StepDeletesDone(c, s, steps[0]);
      DisciplineStarvesNothing(c, Apply(c, s, steps[0]), steps[1..]);
    }
  }

  /** Over every disciplined run every needed input is there at every moment. */
  lemma DisciplinedInputsAreAvailable(c: Config, now: int, steps: seq<Step>)
    requires BytesDetermineTask(c) && IsRun(c, Start(now), steps) && IsDisciplined(c, Start(now), steps)
    ensures NeverBreaks(c, Start(now), steps) && NeverStarves(c, Start(now), steps)
    ensures AlwaysPresent(c, Start(now), steps)
    ensures InputsPresent(After(c, Start(now), steps).rows, After(c, Start(now), steps).files)
  {
    RunKept(c, Start(now), steps);
    DisciplineStarvesNothing(c, Start(now), steps);
    InputsAreAvailable(c, now, steps);
  }

  lemma {:induction false} DisciplinedForgesNothing(c: Config, s: World, steps: seq<Step>)
    requires IsRun(c, s, steps) && IsDisciplined(c, s, steps)
    ensures NoForgery(c, s, steps)
    decreases |steps|
  {
    if steps != [] {
      DisciplinedForgesNothing(c, Apply(c, s, steps[0]), steps[1..]);
    }
  }
}
