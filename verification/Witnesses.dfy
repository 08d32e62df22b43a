/** Runs that show the conditions of the theorems are needed: each breaks one of them, once. */
module Witnesses {
  import opened Entities
  import opened TaskTable
  import opened Resources
  import opened Protocol
  import opened Lease
  import opened Discipline
  import opened Claims
  import opened Availability
  import opened Reachability
  import Pipeline

  // ---------------------------------------------------------------- common beginnings

  /** One worker, newly booted, and nothing else. */
  function WithWorker(w: WorkerId, types: Option<seq<TaskType>> := None): World {
    Start(0).(workers := map[w := Pipeline.Booted(1, 0, types, [])], tick := 1)
  }

  lemma WorkerBoots(c: Config, w: WorkerId, types: Option<seq<TaskType>> := None)
    ensures Reaches(c, Start(0), WithWorker(w, types))
  {
    var boot := Boot(w, 1, 0, types, []);
    var s := Start(0);
    assert Enabled(c, s, boot) && Disciplined(c, s, boot);
    assert map[][w := Pipeline.Booted(1, 0, types, [])] == map[w := Pipeline.Booted(1, 0, types, [])];
    assert s.lost - (set t | t in s.rows && RunningBy(s.rows, t, w)) == {};
    assert Apply(c, s, boot) == WithWorker(w, types);
    ReachesByStep(c, s, boot);
  }

  /** One worker and one task that waits. */
  function WithTask(c: Config, w: WorkerId, a: Submission, types: Option<seq<TaskType>> := None): World {
    Submitted(c, WithWorker(w, types), 0, a)
  }

  lemma TaskWaits(c: Config, w: WorkerId, a: Submission, types: Option<seq<TaskType>> := None)
    requires a in c.subs && (types.None? || a.taskType in types.value)
    ensures Reaches(c, Start(0), WithTask(c, w, a, types))
    ensures CanServe(WithTask(c, w, a, types), w, c.tid(a), 0)
    ensures WithTask(c, w, a, types).files[c.rid(a.bytes)] == a.bytes
  {
    WorkerBoots(c, w, types);
    hide Reaches;
    TaskCanBeSubmitted(c, WithWorker(w, types), 0, a);
    ReachesTransitive(c, Start(0), WithWorker(w, types), WithTask(c, w, a, types));
  }

  // ---------------------------------------------------------------- ordinary runs

  /** A worker started for the type C2 alone wins a task of that type: on a disciplined run it is handed the
      row, which is running under it. */
  lemma LimitedWorkerWins(c: Config, w: WorkerId, a: Submission) returns (won: World)
    requires a in c.subs
    ensures Reaches(c, Start(0), won)
    ensures w in won.workers && won.workers[w].types == Some([C2])
    ensures c.tid(a) in won.rows && won.rows[c.tid(a)].state == Running && won.rows[c.tid(a)].workerId == w
    ensures won.workers[w].fetcher == Pipeline.Hand(won.rows[c.tid(a)])
  {
    var s := WithTask(c, w, a, Some([C2]));
    var t := c.tid(a);
    var row := ClaimedBy(s.rows[t], w, s.now);
    won := At(s.(rows := s.rows[t := row]), w, s.workers[w].(fetcher := Pipeline.Hand(row)), 4);
    assert a.taskType == C2 && [C2][0] in [C2];
    TaskWaits(c, w, a, Some([C2]));
    hide Reaches;
    WinsClaim(c, s, w, t, 0);
    ReachesTransitive(c, Start(0), s, won);
  }

  lemma RequestedServes(c: Config, w: WorkerId, a: Submission)
    ensures var s := Requested(c, WithWorker(w), 0, a, 1);
            && CanServe(s, w, c.tid(a), 0) && s.files[c.rid(a.bytes)] == a.bytes
            && s.rows[c.tid(a)].resourceId == c.rid(a.bytes)
            && 0 in s.reqs && s.reqs[0].sub == a && s.reqs[0].pc == Polling
            && 1 in s.adds && s.adds[1].sub == a && s.adds[1].pc == Returned(Some(c.tid(a))) && s.adds.Keys == {1}
  {
  }

  lemma ServedIsCompleted(s: World, w: WorkerId, t: Id, proof: Bytes)
    requires t in s.rows
    ensures var s' := Served(s, w, t, proof);
            && s'.reqs == s.reqs && s'.adds == s.adds
            && t in s'.rows && s'.rows[t].state == Completed && s'.rows[t].proof == proof
  {
  }

  /** A request for a new task is answered: on a disciplined run its lookup finds the task missing, it
      submits the task and traces it, a worker claims, computes and records it, and the poll answers with
      the proof. */
  lemma NewTaskIsAnswered(c: Config, w: WorkerId, a: Submission, proof: Bytes) returns (s: World)
    requires a in c.subs && c.computes(a.bytes, proof)
    ensures Reaches(c, Start(0), s)
    ensures 0 in s.reqs && s.reqs[0].sub == a && s.reqs[0].pc == Finished(GotProof(proof))
    ensures 1 in s.adds && s.adds[1].sub == a && s.adds[1].pc == Returned(Some(c.tid(a))) && s.adds.Keys == {1}
    ensures c.tid(a) in s.rows && s.rows[c.tid(a)].state == Completed && s.rows[c.tid(a)].proof == proof
  {
    var requested := Requested(c, WithWorker(w), 0, a, 1);
    var done := Served(requested, w, c.tid(a), proof);
    s := Answered(done, 0, proof);
    WorkerBoots(c, w);
    hide Reaches;
    TaskCanBeRequested(c, WithWorker(w), 0, a, 1);
    RequestedServes(c, w, a);
    ServedIsCompleted(requested, w, c.tid(a), proof);
    hide Requested, Served;
    TaskCanBeCompleted(c, requested, w, c.tid(a), 0, proof);
    PollMove(c, done, 0, proof);
    hide CanServe, Enabled, Apply;
    ReachesTransitive(c, Start(0), WithWorker(w), requested);
    ReachesTransitive(c, Start(0), requested, done);
    Then(c, Start(0), done, ReqPoll(0));
  }

  // ---------------------------------------------------------------- operator updates

  /** Once an operator marks a task completed, a poll answers with whatever its proof column holds. */
  lemma OperatorPublishes(c: Config, s: World, r: nat)
    requires r in s.reqs && s.reqs[r].pc.Polling? && c.tid(s.reqs[r].sub) in s.rows
    ensures var t := c.tid(s.reqs[r].sub);
            && Enabled(c, s, Operator([t], Completed))
            && var traced := Apply(c, s, Operator([t], Completed));
            && Enabled(c, traced, ReqPoll(r))
            && Apply(c, traced, ReqPoll(r)).reqs[r] == s.reqs[r].(pc := Finished(GotProof(s.rows[t].proof)))
  {
  }

  lemma PollsWaitingTask(c: Config, w: WorkerId, a: Submission)
    ensures var s := LookedUp(c, WithTask(c, w, a), 0, a);
            && 0 in s.reqs && s.reqs[0].sub == a && s.reqs[0].pc.Polling?
            && c.tid(a) in s.rows && s.rows[c.tid(a)].proof == []
  {
  }

  /** A request that polls for a waiting task. */
  lemma ReachesPolling(c: Config, a: Submission, w: WorkerId)
    requires a in c.subs
    ensures Reaches(c, Start(0), LookedUp(c, WithTask(c, w, a), 0, a))
  {
    var s := WithTask(c, w, a);
    TaskWaits(c, w, a);
    hide Reaches;
    TaskCanBeLookedUp(c, s, 0, a, 1);
    hide Enabled, Apply, LookedUp, WithTask, CanServe;
    ReachesTransitive(c, Start(0), s, LookedUp(c, s, 0, a));
  }

  /** The end-to-end theorem needs its condition: after a disciplined run an operator who marks a
      waiting task completed makes the plugin answer its request with an empty proof. */
  lemma OperatorForgesProof(c: Config, a: Submission, w: WorkerId) returns (before: World)
    requires a in c.subs && !c.computes(a.bytes, [])
    ensures Reaches(c, Start(0), before)
    ensures Enabled(c, before, Operator([c.tid(a)], Completed))
    ensures var traced := Apply(c, before, Operator([c.tid(a)], Completed));
            && Enabled(c, traced, ReqPoll(0))
            && 0 in Apply(c, traced, ReqPoll(0)).reqs
            && var req := Apply(c, traced, ReqPoll(0)).reqs[0];
            && req.pc == Finished(GotProof([])) && !c.computes(req.sub.bytes, [])
  {
    before := LookedUp(c, WithTask(c, w, a), 0, a);
    ReachesPolling(c, a, w);
    hide Reaches;
    PollsWaitingTask(c, w, a);
    hide Enabled, Apply, LookedUp, WithTask;
    OperatorPublishes(c, before, 0);
  }

  /** Once an operator marks a task failed, a poll answers with whatever its error column holds. */
  lemma OperatorBlames(c: Config, s: World, r: nat)
    requires r in s.reqs && s.reqs[r].pc.Polling? && c.tid(s.reqs[r].sub) in s.rows
    ensures var t := c.tid(s.reqs[r].sub);
            && Enabled(c, s, Operator([t], TaskState.Error))
            && var traced := Apply(c, s, Operator([t], TaskState.Error));
            && Enabled(c, traced, ReqPoll(r))
            && traced.errors == s.errors
            && Apply(c, traced, ReqPoll(r)).reqs[r] == s.reqs[r].(pc := Finished(GotError(s.rows[t].errorMsg)))
  {
  }

  lemma WaitingTaskHasNoError(c: Config, w: WorkerId, a: Submission)
    ensures var s := LookedUp(c, WithTask(c, w, a), 0, a);
            s.rows[c.tid(a)].errorMsg == "" && s.errors == map[]
  {
  }

  /** The freshness of errors needs its condition: after a disciplined run an operator who marks a
      waiting task failed makes the plugin report an error that nobody ever recorded. */
  lemma OperatorReportsNoError(c: Config, a: Submission, w: WorkerId) returns (before: World)
    requires a in c.subs
    ensures Reaches(c, Start(0), before) && before.errors == map[]
    ensures Enabled(c, before, Operator([c.tid(a)], TaskState.Error))
    ensures var traced := Apply(c, before, Operator([c.tid(a)], TaskState.Error));
            && Enabled(c, traced, ReqPoll(0)) && traced.errors == map[]
            && 0 in Apply(c, traced, ReqPoll(0)).reqs
            && Apply(c, traced, ReqPoll(0)).reqs[0].pc == Finished(GotError(""))
  {
    before := LookedUp(c, WithTask(c, w, a), 0, a);
    ReachesPolling(c, a, w);
    hide Reaches;
    PollsWaitingTask(c, w, a);
    WaitingTaskHasNoError(c, w, a);
    hide Enabled, Apply, LookedUp, WithTask;
    OperatorBlames(c, before, 0);
  }

  // ---------------------------------------------------------------- two requests for one task

  /** The failed task of `WithTask`, and a first request that is about to reset it. */
  function AboutToReset(c: Config, w: WorkerId, a: Submission): World {
    LookedUp(c, ServedWithError(WithTask(c, w, a), w, c.tid(a), ""), 0, a)
  }

  lemma FailsAndIsLookedUp(c: Config, w: WorkerId, a: Submission)
    requires a in c.subs
    ensures Reaches(c, Start(0), AboutToReset(c, w, a))
  {
    var s := WithTask(c, w, a);
    var failed := ServedWithError(s, w, c.tid(a), "");
    TaskWaits(c, w, a);
    hide Reaches;
    TaskCanFail(c, s, w, c.tid(a), 0, "");
    hide CanServe;
    TaskCanBeLookedUp(c, failed, 0, a, 1);
    hide Enabled, Apply;
    ReachesTransitive(c, Start(0), s, failed);
    ReachesTransitive(c, Start(0), failed, AboutToReset(c, w, a));
  }

  /** The world after the reset of a task has been executed and its reply has arrived. */
  function ResetDone(c: Config, s: World, r: nat): World
    requires r in s.reqs
  {
    s.(rows := SetState(s.rows, [c.tid(s.reqs[r].sub)], Init),
       reqs := s.reqs[r := Request(s.reqs[r].sub, s.tick, Polling)], tick := s.tick + 1)
  }

  lemma ResetMove(c: Config, s: World, r: nat)
    requires r in s.reqs && s.reqs[r].pc.Resetting?
    ensures Enabled(c, s, ReqReset(r, true)) && Apply(c, s, ReqReset(r, true)) == ResetDone(c, s, r)
  {
  }

  /** Both requests have read the failed state; the first has been reset and recomputed. */
  function Recomputed(c: Config, w: WorkerId, a: Submission, proof: Bytes): World {
    Served(ResetDone(c, LookedUp(c, AboutToReset(c, w, a), 1, a), 0), w, c.tid(a), proof)
  }

  /** A second request may begin while the first has a reset pending; its lookup is what the discipline
      forbids. */
  lemma SecondLookup(c: Config, s: World, a: Submission)
    requires a in c.subs && 0 in s.reqs && Resets(s.reqs[0]) && s.reqs[0].sub == a
    requires 1 !in s.reqs && 1 !in s.adds && c.tid(a) in s.rows
    ensures var second := HasBegun(s, 1, a);
            && Reaches(c, s, second)
            && Enabled(c, second, ReqLookup(1, 1, "")) && !Disciplined(c, second, ReqLookup(1, 1, ""))
            && Apply(c, second, ReqLookup(1, 1, "")) == LookedUp(c, s, 1, a)
  {
    var second := HasBegun(s, 1, a);
    hide Reaches;
    assert 0 in second.reqs && second.reqs[0] == s.reqs[0] && 1 in second.reqs && second.reqs[1].sub == a;
    RequestMove(c, s, 1, a);
    LookupMove(c, s, 1, a, 1);
    LookupPcIgnoresCall(s.rows, c.tid(a), 0, 1);
    hide Enabled, Apply, LookupPc;
    ReachesByStep(c, s, ReqBegin(1, a));
  }

  lemma FirstIsPending(c: Config, w: WorkerId, a: Submission)
    ensures var s := AboutToReset(c, w, a);
            && 0 in s.reqs && Resets(s.reqs[0]) && s.reqs[0].sub == a
            && 1 !in s.reqs && 1 !in s.adds && c.tid(a) in s.rows
  {
  }

  lemma RecomputedAfterBoth(c: Config, w: WorkerId, a: Submission, proof: Bytes)
    requires a in c.subs && c.computes(a.bytes, proof)
    ensures Reaches(c, LookedUp(c, AboutToReset(c, w, a), 1, a), Recomputed(c, w, a, proof))
    ensures var s := Recomputed(c, w, a, proof);
            && 1 in s.reqs && s.reqs[1].sub == a && s.reqs[1].pc.Resetting?
            && c.tid(a) in s.rows && s.rows[c.tid(a)].state == Completed && s.rows[c.tid(a)].proof == proof
            && s.rows[c.tid(a)].resourceId !in s.files
  {
    var both := LookedUp(c, AboutToReset(c, w, a), 1, a);
    var reset := ResetDone(c, both, 0);
    hide Reaches;
    assert both.reqs[0].pc.Resetting? && both.reqs[0].sub == a && both.reqs[1].pc.Resetting?;
    ResetMove(c, both, 0);
    ReachesItself(c, both);
    assert CanServe(reset, w, c.tid(a), 0) && reset.files[c.rid(a.bytes)] == a.bytes;
    TaskCanBeCompleted(c, reset, w, c.tid(a), 0, proof);
    hide Enabled, Apply, CanServe;
    Then(c, both, both, ReqReset(0, true));
    ReachesTransitive(c, both, reset, Recomputed(c, w, a, proof));
  }

  /** A completed task can be revived where the discipline is not kept: a second request looks the task up
      while the first has a reset pending, so both have read the failed state; the first reset leads to a
      proof, and the second one revives the completed row, whose input is gone. Everything else on the
      run is disciplined. */
  lemma StaleResetRevivesCompleted(c: Config, w: WorkerId, a: Submission, proof: Bytes)
    returns (before: World, done: World)
    requires a in c.subs && c.computes(a.bytes, proof)
    ensures Reaches(c, Start(0), before)
    ensures Enabled(c, before, ReqLookup(1, 1, "")) && !Disciplined(c, before, ReqLookup(1, 1, ""))
    ensures Reaches(c, Apply(c, before, ReqLookup(1, 1, "")), done)
    ensures c.tid(a) in done.rows && done.rows[c.tid(a)].state == Completed && done.rows[c.tid(a)].proof == proof
    ensures Enabled(c, done, ReqReset(1, true)) && Disciplined(c, done, ReqReset(1, true))
    ensures var s' := Apply(c, done, ReqReset(1, true)); s'.rows[c.tid(a)].state == Init && !InputsPresent(s'.rows, s'.files)
  {
    before := HasBegun(AboutToReset(c, w, a), 1, a);
    done := Recomputed(c, w, a, proof);
    FailsAndIsLookedUp(c, w, a);
    FirstIsPending(c, w, a);
    SecondLookup(c, AboutToReset(c, w, a), a);
    RecomputedAfterBoth(c, w, a, proof);
    hide AboutToReset, Recomputed, LookedUp, HasBegun, Reaches;
    ReachesTransitive(c, Start(0), AboutToReset(c, w, a), before);
    ResetMove(c, done, 1);
  }

  // ---------------------------------------------------------------- a record call that outlives its worker

  /** The worker has crashed after making the record call for its task. */
  function CrashedWhileRecording(c: Config, w: WorkerId, a: Submission, proof: Bytes): World {
    Crashed(AtRecordCall(WithTask(c, w, a), w, c.tid(a), 0, Proof(proof)), w)
  }

  function Crashed(s: World, w: WorkerId): World
    requires w in s.workers
  {
    CrashEffect(s, w).(tick := s.tick + 1)
  }

  lemma CrashMove(c: Config, s: World, w: WorkerId)
    requires w in s.workers
    ensures Enabled(c, s, Crash(w)) && Apply(c, s, Crash(w)) == Crashed(s, w)
  {
  }

  lemma CrashesWhileRecording(c: Config, w: WorkerId, a: Submission, proof: Bytes)
    requires a in c.subs && c.computes(a.bytes, proof)
    ensures Reaches(c, Start(0), CrashedWhileRecording(c, w, a, proof))
  {
    var s := WithTask(c, w, a);
    var calling := AtRecordCall(s, w, c.tid(a), 0, Proof(proof));
    TaskWaits(c, w, a);
    hide Reaches;
    ReachesRecordCall(c, s, w, c.tid(a), 0, Proof(proof));
    CrashMove(c, calling, w);
    hide WithTask, CanServe, AtRecordCall, Enabled, Apply, CrashEffect;
    ReachesTransitive(c, Start(0), s, calling);
    Then(c, Start(0), calling, Crash(w));
  }

  /** The exclusive lease needs its condition: a worker boots while a record call of its former life
      is still to be executed, takes the task up again, and then holds a task that is completed. */
  lemma RecordOutlivesCrash(c: Config, w: WorkerId, a: Submission, proof: Bytes) returns (before: World, boot: Step)
    requires a in c.subs && c.computes(a.bytes, proof)
    ensures Reaches(c, Start(0), before) && boot.Boot? && Enabled(c, before, boot) && !Disciplined(c, before, boot)
    ensures var s1 := Apply(c, before, boot);
            && Enabled(c, s1, RecordNext(0))
            && var s2 := Apply(c, s1, RecordNext(0));
            && Enabled(c, s2, RecordNext(0))
            && var s3 := Apply(c, s2, RecordNext(0));
            && HeldBy(s3.workers, w, c.tid(a)) == 1
            && c.tid(a) in s3.rows && s3.rows[c.tid(a)].state == Completed
  {
    before := CrashedWhileRecording(c, w, a, proof);
    CrashesWhileRecording(c, w, a, proof);
    hide Reaches;
    var t := c.tid(a);
    boot := Boot(w, 1, 0, None, [before.rows[t]]);
    assert Pending(before.records[0]) && before.records[0].worker == w;
    assert IsUncompleted(before.rows, w, boot.backlog) by {
      assert boot.backlog[0].id == t;
    }
    BootedHolds(c, before, boot, t);
  }

  lemma BootedHolds(c: Config, s: World, boot: Step, t: Id)
    requires boot.Boot? && Enabled(c, s, boot) && RunningBy(s.rows, t, boot.worker)
    requires 0 in s.records && s.records[0].tid == t && s.records[0].pc.ReadRow?
    ensures var s1 := Apply(c, s, boot);
            && Enabled(c, s1, RecordNext(0))
            && var s2 := Apply(c, s1, RecordNext(0));
            && Enabled(c, s2, RecordNext(0))
            && var s3 := Apply(c, s2, RecordNext(0));
            && HeldBy(s3.workers, boot.worker, t) == 1
            && t in s3.rows && s3.rows[t].state == Completed
  {
    BootHolds(s.rows, boot.worker, boot.max, boot.retrySum, boot.types, boot.backlog, t);
  }

  // ---------------------------------------------------------------- two miners, the same bytes

  /** Resource availability needs its condition: on a disciplined run two miners submit the same
      bytes as two tasks, the first is completed, and the second waits without its input. */
  lemma SharedBytesLoseInput(c: Config, w: WorkerId, a: Submission, b: Submission, proof: Bytes) returns (s: World)
    requires a in c.subs && b in c.subs && c.computes(a.bytes, proof)
    requires c.rid(a.bytes) == c.rid(b.bytes) && c.tid(a) != c.tid(b)
    ensures Reaches(c, Start(0), s)
    ensures c.tid(b) in s.rows && s.rows[c.tid(b)].state == Init && s.rows[c.tid(b)].resourceId !in s.files
    ensures !BytesDetermineTask(c)
  {
    var first := WithTask(c, w, a);
    var both := Submitted(c, first, 1, b);
    s := Served(both, w, c.tid(a), proof);
    TaskWaits(c, w, a);
    hide Reaches;
    TaskCanBeSubmitted(c, first, 1, b);
    assert CanServe(both, w, c.tid(a), 0);
    TaskCanBeCompleted(c, both, w, c.tid(a), 0, proof);
    ReachesTransitive(c, Start(0), first, both);
    ReachesTransitive(c, Start(0), both, s);
  }

  // ---------------------------------------------------------------- two submissions at once

  /** Submitting is idempotent in its effect and not in its answer: of two submissions of the same
      task that both find it missing the later one is answered with an error. */
  lemma LateSubmissionFails(c: Config, a: Submission) returns (s: World)
    requires a in c.subs
    ensures Reaches(c, Start(0), s)
    ensures 0 in s.adds && s.adds[0] == AddCall(a, "", Returned(Some(c.tid(a)))) && c.tid(a) in s.rows
    ensures 1 in s.adds && s.adds[1] == AddCall(a, "", InsertTask(0)) && Enabled(c, s, AddNext(1))
    ensures Apply(c, s, AddNext(1)).adds[1].pc == Returned(None) && Apply(c, s, AddNext(1)).rows == s.rows
  {
    var before := Stamped(c, Start(0), 1, a);
    s := Submitted(c, before, 0, a);
    hide Reaches;
    TaskCanBeStamped(c, Start(0), 1, a);
    TaskCanBeSubmitted(c, before, 0, a);
    ReachesTransitive(c, Start(0), before, s);
  }

  // ---------------------------------------------------------------- claims out of order

  /** `s` after the clock has been set. */
  function AtTime(s: World, time: int): World {
    s.(now := time, tick := s.tick + 1)
  }

  lemma ClockMove(c: Config, s: World, time: int)
    ensures Enabled(c, s, Clock(time)) && Apply(c, s, Clock(time)) == AtTime(s, time)
  {
  }

  /** `a` has been stamped at time 0 and not inserted, `b` has been submitted at time 1 and selected. */
  function SelectedBeforeInsert(c: Config, w: WorkerId, a: Submission, b: Submission): World {
    Selected(Submitted(c, AtTime(Stamped(c, WithWorker(w), 1, a), 1), 0, b), w, c.tid(b), 0)
  }

  /** The order of claims needs its condition: on a disciplined run, with a clock that never goes back
      and no reset at all, a submission stamped early is inserted late, and the claim wins a row that is
      not the oldest. */
  lemma LateInsertBreaksFifo(c: Config, w: WorkerId, a: Submission, b: Submission) returns (selected: World)
    requires a in c.subs && b in c.subs && c.tid(a) != c.tid(b)
    ensures Reaches(c, Start(0), selected)
    ensures 0 in selected.claims && selected.claims[0] == ClaimCall(w, None, GuardedUpdate(c.tid(b)))
    ensures IsOldest(selected.rows, None, c.tid(b)) && Enabled(c, selected, AddNext(1))
    ensures var late := Apply(c, selected, AddNext(1));
            && late.claims == selected.claims && Wins(late, 0)
            && Eligible(late.rows, None, c.tid(a)) && !IsOldest(late.rows, None, c.tid(b))
  {
    var s1 := Stamped(c, WithWorker(w), 1, a);
    var s2 := AtTime(s1, 1);
    var s3 := Submitted(c, s2, 0, b);
    selected := SelectedBeforeInsert(c, w, a, b);
    assert Vacant(s3.workers[w]) && IsOldest(s3.rows, None, c.tid(b));
    hide Reaches;
    WorkerBoots(c, w);
    TaskCanBeStamped(c, WithWorker(w), 1, a);
    ClockMove(c, s1, 1);
    ReachesByStep(c, s1, Clock(1));
    TaskCanBeSubmitted(c, s2, 0, b);
    SelectsTask(c, s3, w, c.tid(b), 0);
    ReachesTransitive(c, Start(0), WithWorker(w), s1);
    ReachesTransitive(c, Start(0), s1, s2);
    ReachesTransitive(c, Start(0), s2, s3);
    ReachesTransitive(c, Start(0), s3, selected);
    InsertsEarlier(c, selected, 1, c.tid(b));
  }

  lemma InsertsEarlier(c: Config, s: World, k: nat, t: Id)
    requires k in s.adds && t in s.rows && StampedEarlier(c, s.rows, s.adds[k], None, t) && NoneOlder(s.rows, None, t)
    ensures Enabled(c, s, AddNext(k))
    ensures var s' := Apply(c, s, AddNext(k));
            && s'.claims == s.claims && t in s'.rows && s'.rows[t] == s.rows[t]
            && Eligible(s'.rows, None, c.tid(s.adds[k].sub)) && !IsOldest(s'.rows, None, t)
  {
  }

  /** `b` has been submitted at time 0 and selected. */
  function SelectedAlone(c: Config, w: WorkerId, b: Submission): World {
    Selected(WithTask(c, w, b), w, c.tid(b), 0)
  }

  /** The condition on the clock is needed as well: it goes back, once, after the select, and a whole
      submission made then gets before the selected row, although no submission was under way. */
  lemma ClockBackBreaksFifo(c: Config, w: WorkerId, a: Submission, b: Submission) returns (selected: World, late: World)
    requires a in c.subs && b in c.subs && c.tid(a) != c.tid(b)
    ensures Reaches(c, Start(0), selected) && selected.now == 0
    ensures 0 in selected.claims && selected.claims[0] == ClaimCall(w, None, GuardedUpdate(c.tid(b)))
    ensures IsOldest(selected.rows, None, c.tid(b)) && NoEarlierStamp(c, selected, None, c.tid(b))
    ensures Enabled(c, selected, Clock(-1)) && Reaches(c, Apply(c, selected, Clock(-1)), late)
    ensures late.claims == selected.claims && Wins(late, 0)
    ensures Eligible(late.rows, None, c.tid(a)) && !IsOldest(late.rows, None, c.tid(b))
  {
    var s := WithTask(c, w, b);
    selected := SelectedAlone(c, w, b);
    late := Submitted(c, AtTime(selected, -1), 1, a);
    TaskWaits(c, w, b);
    hide Reaches;
    SelectsTask(c, s, w, c.tid(b), 0);
    ClockMove(c, selected, -1);
    TaskCanBeSubmitted(c, AtTime(selected, -1), 1, a);
    ReachesTransitive(c, Start(0), s, selected);
  }

  // ---------------------------------------------------------------- operator updates of running tasks

  lemma ResetsHeldTask(c: Config, s: World, w: WorkerId, t: Id)
    requires HeldBy(s.workers, w, t) == 1 && RunningBy(s.rows, t, w)
    ensures var s' := Apply(c, s, Operator([t], Init));
            HeldBy(s'.workers, w, t) == 1 && Eligible(s'.rows, None, t) && !LeaseHolds(s')
  {
    hide Pipeline.Held;
    var s' := Apply(c, s, Operator([t], Init));
    assert !RunningBy(s'.rows, t, w);
    assert !LeaseAt(s'.rows, s'.workers, s'.records, s'.lost, t);
  }

  lemma HandIsHeld(s: World, w: WorkerId, p: Pipe, task: Task, n: nat)
    requires Vacant(p)
    ensures HeldBy(At(s, w, p.(fetcher := Pipeline.Hand(task)), n).workers, w, task.id) == 1
  {
  }

  /** The lease needs its condition on operators: after a disciplined run an operator resets the task a
      worker holds, which is then initial and up for the next claim while the worker still has it. */
  lemma OperatorBreaksLease(c: Config, w: WorkerId, a: Submission) returns (held: World)
    requires a in c.subs
    ensures Reaches(c, Start(0), held) && HeldBy(held.workers, w, c.tid(a)) == 1 && RunningBy(held.rows, c.tid(a), w)
    ensures var s' := Apply(c, held, Operator([c.tid(a)], Init));
            HeldBy(s'.workers, w, c.tid(a)) == 1 && Eligible(s'.rows, None, c.tid(a)) && !LeaseHolds(s')
  {
    var s := WithTask(c, w, a);
    var t := c.tid(a);
    var row := ClaimedBy(s.rows[t], w, s.now);
    var claimed := s.(rows := s.rows[t := row]);
    held := At(claimed, w, s.workers[w].(fetcher := Pipeline.Hand(row)), 4);
    TaskWaits(c, w, a);
    hide Reaches, HeldBy;
    WinsClaim(c, s, w, t, 0);
    HandIsHeld(claimed, w, s.workers[w], row, 4);
    hide WithTask, IsOldest, Vacant, Apply;
    ReachesTransitive(c, Start(0), s, held);
    ResetsHeldTask(c, held, w, t);
  }

  lemma CompletedIsOrphaned(c: Config, w: WorkerId, a: Submission, proof: Bytes)
    ensures var s := Served(WithTask(c, w, a), w, c.tid(a), proof);
            && Orphaned(s.rows, s.files, c.tid(a))
            && s.rows.Keys == {c.tid(a)}
            && s.rows[c.tid(a)].proof == proof
  {
  }

  lemma ReopensOrphan(c: Config, s: World, t: Id)
    requires Orphaned(s.rows, s.files, t) && s.rows.Keys == {t}
    ensures var reopened := Operator([t], Init);
            && !Breaks(c, s, reopened) && Revives(c, s, reopened, t) && Starves(c, s, reopened)
            && var s' := Apply(c, s, reopened);
            s'.rows[t] == s.rows[t].(state := Init) && !InputsPresent(s'.rows, s'.files)
  {
    assert [t][0] in [t];
    var s' := Apply(c, s, Operator([t], Init));
    assert s'.rows[t].state == Init;
  }

  /** An operator's update that keeps the lease may still do harm: after a disciplined run that has
      completed a task, a reset of it changes the completed row and asks for a computation whose input has
      been deleted. */
  lemma OperatorRevivesCompleted(c: Config, w: WorkerId, a: Submission, proof: Bytes) returns (done: World)
    requires a in c.subs && c.computes(a.bytes, proof)
    ensures Reaches(c, Start(0), done)
    ensures c.tid(a) in done.rows && done.rows[c.tid(a)].state == Completed && done.rows[c.tid(a)].proof == proof
    ensures var reopened := Operator([c.tid(a)], Init);
            && !Breaks(c, done, reopened) && Revives(c, done, reopened, c.tid(a)) && Starves(c, done, reopened)
            && var s' := Apply(c, done, reopened);
            s'.rows[c.tid(a)] == done.rows[c.tid(a)].(state := Init) && !InputsPresent(s'.rows, s'.files)
  {
    var s := WithTask(c, w, a);
    done := Served(s, w, c.tid(a), proof);
    TaskWaits(c, w, a);
    hide Reaches;
    TaskCanBeCompleted(c, s, w, c.tid(a), 0, proof);
    CompletedIsOrphaned(c, w, a, proof);
    hide CanServe, WithTask, Served, Apply, Breaks, Revives, Starves;
    ReopensOrphan(c, done, c.tid(a));
    ReachesTransitive(c, Start(0), s, done);
  }

  // ---------------------------------------------------------------- a requester that dies

  /** `s` without the requester of `r`. */
  function Died(s: World, r: nat): World
    requires r in s.reqs
  {
    s.(reqs := s.reqs[r := s.reqs[r].(pc := Finished(GaveUp))], tick := s.tick + 1)
  }

  lemma DieMove(c: Config, s: World, r: nat)
    requires r in s.reqs && s.reqs[r].pc.Polling?
    ensures Enabled(c, s, ReqFail(r)) && Apply(c, s, ReqFail(r)) == Died(s, r)
  {
  }

  /** The discipline leaves room for a requester that dies while it polls and comes back: the new request
      traces the task the old one submitted. */
  lemma RequesterReturns(c: Config, w: WorkerId, a: Submission) returns (s: World)
    requires a in c.subs
    ensures Reaches(c, Start(0), s)
    ensures 0 in s.reqs && s.reqs[0].sub == a && s.reqs[0].pc == Finished(GaveUp)
    ensures 1 in s.reqs && s.reqs[1].sub == a && s.reqs[1].pc.Polling?
    ensures c.tid(a) in s.rows && s.rows[c.tid(a)].state == Init
  {
    var polling := LookedUp(c, WithTask(c, w, a), 0, a);
    var died := Died(polling, 0);
    s := LookedUp(c, died, 1, a);
    ReachesPolling(c, a, w);
    hide Reaches;
    PollsWaitingTask(c, w, a);
    DieMove(c, polling, 0);
    TaskCanBeLookedUp(c, died, 1, a, 1);
    RequestStays(c, died, 1, a);
    hide Enabled, Apply, LookedUp;
    Then(c, Start(0), polling, ReqFail(0));
    ReachesTransitive(c, Start(0), died, s);
  }

  lemma RequestStays(c: Config, s: World, r: nat, sub: Submission)
    requires c.tid(sub) in s.rows && s.rows[c.tid(sub)].state == Init
    ensures var s' := LookedUp(c, s, r, sub);
            && s'.rows == s.rows && r in s'.reqs && s'.reqs[r].sub == sub && s'.reqs[r].pc.Polling?
            && forall q :: q in s.reqs && q != r ==> q in s'.reqs && s'.reqs[q] == s.reqs[q]
  {
  }

  /** Nor is there a limit to the requests for one task: two of them trace it at once on a disciplined
      run. */
  lemma TwoRequestersTrace(c: Config, w: WorkerId, a: Submission) returns (s: World)
    requires a in c.subs
    ensures Reaches(c, Start(0), s)
    ensures 0 in s.reqs && s.reqs[0].sub == a && s.reqs[0].pc.Polling?
    ensures 1 in s.reqs && s.reqs[1].sub == a && s.reqs[1].pc.Polling?
    ensures c.tid(a) in s.rows && s.rows[c.tid(a)].state == Init
  {
    var polling := LookedUp(c, WithTask(c, w, a), 0, a);
    s := LookedUp(c, polling, 1, a);
    ReachesPolling(c, a, w);
    hide Reaches;
    PollsWaitingTask(c, w, a);
    TaskCanBeLookedUp(c, polling, 1, a, 1);
    RequestStays(c, polling, 1, a);
    hide LookedUp;
    ReachesTransitive(c, Start(0), polling, s);
  }
}
