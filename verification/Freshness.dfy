/** The error a request is answered with is not a leftover: it was recorded after the request looked
    its task up, and after it reset it. */
module Freshness {
  import opened Entities
  import opened TaskTable
  import opened Protocol
  import opened Lease
  import Pipeline

  /** The only step besides a record call that can make a row failed. */
  predicate Marks(rows: Rows, step: Step, t: Id) {
    step.Operator? && step.state == TaskState.Error && t in step.ids && t in rows && !HasFailed(rows, t)
  }

  /** The operator marks a task failed that a request is tracing. */
  ghost predicate Blames(c: Config, s: World, step: Step) {
    exists r :: r in s.reqs && Traces(s.reqs[r]) && Marks(s.rows, step, c.tid(s.reqs[r].sub))
  }

  /** Where the task is failed, the error it shows was recorded after `since`. */
  ghost predicate FreshError(rows: Rows, errors: map<Id, Stamp>, t: Id, since: nat) {
    HasFailed(rows, t) ==> t in errors && errors[t].at > since && errors[t].msg == rows[t].errorMsg
  }

  predicate Traces(req: Request) {
    req.pc.Adding? || req.pc.Polling?
  }

  ghost predicate RequestFresh(c: Config, s: World, req: Request) {
    Traces(req) ==> req.since < s.tick && FreshError(s.rows, s.errors, c.tid(req.sub), req.since)
  }

  ghost predicate Fresh(c: Config, s: World) {
    && (forall r :: r in s.reqs ==> RequestFresh(c, s, s.reqs[r]))
    && (forall t :: t in s.errors ==> s.errors[t].at < s.tick)
  }

  /** The row was failed with the same error before, or its error has been recorded just now. */
  ghost predicate StampedOrSame(s: World, rows': Rows, errors': map<Id, Stamp>, t: Id)
    requires HasFailed(rows', t)
  {
    || (HasFailed(s.rows, t) && rows'[t].errorMsg == s.rows[t].errorMsg
        && (t in errors' <==> t in s.errors) && (t in s.errors ==> errors'[t] == s.errors[t]))
    || (t in errors' && errors'[t] == Stamp(s.tick, rows'[t].errorMsg))
  }

  function ErrorsWritten(s: World, step: Step): map<Id, Stamp> {
    if step.RecordNext? && step.call in s.records && s.records[step.call].pc.WriteError?
    then s.errors[s.records[step.call].tid := Stamp(s.tick, s.records[step.call].pc.msg)]
    else s.errors
  }

  lemma ErrorsAreWritten(c: Config, s: World, step: Step)
    requires Enabled(c, s, step)
    ensures Apply(c, s, step).errors == ErrorsWritten(s, step)
  {
    hide IsUncompleted, IsOldest, LocalEnabled, Pipeline.Apply;
    hide AddFiles, AddRows, AddNextPc, RecordRows, RecordCalls, SetState, Wins, WonRow, LookupPc, PollPc;
  }

  lemma RecordStamps(s: World, step: Step, t: Id)
    requires step.RecordNext? && step.call in s.records && HasFailed(RecordRows(s, s.records[step.call]), t)
    ensures StampedOrSame(s, RecordRows(s, s.records[step.call]), ErrorsWritten(s, step), t)
  {
  }

  lemma OthersFailNothing(c: Config, s: World, step: Step, t: Id)
    requires Enabled(c, s, step) && !Marks(s.rows, step, t) && !step.RecordNext? && HasFailed(RowsWritten(c, s, step), t)
    ensures HasFailed(s.rows, t) && RowsWritten(c, s, step)[t] == s.rows[t]
  {
  }

  /** A row becomes failed only together with its entry in the history of errors. */
  lemma ErrorsAreStamped(c: Config, s: World, step: Step, t: Id)
    requires Enabled(c, s, step) && !Marks(s.rows, step, t) && HasFailed(Apply(c, s, step).rows, t)
    ensures StampedOrSame(s, Apply(c, s, step).rows, Apply(c, s, step).errors, t)
  {
    RowsAreWritten(c, s, step);
    ErrorsAreWritten(c, s, step);
    hide Apply, Effect, IsUncompleted, IsOldest, LocalEnabled, RecordRows, HasFailed;
    if step.RecordNext? {
      RecordStamps(s, step, t);
    } else {
      OthersFailNothing(c, s, step, t);
    }
  }

  /** A request keeps its lookup time while it traces its task, and begins to trace a task that is
      not failed. */
  lemma TracingBegins(c: Config, s: World, step: Step, r: nat)
    requires Enabled(c, s, step) && r in Apply(c, s, step).reqs && Traces(Apply(c, s, step).reqs[r])
    ensures var req := Apply(c, s, step).reqs[r];
            || (r in s.reqs && Traces(s.reqs[r]) && s.reqs[r].sub == req.sub && s.reqs[r].since == req.since)
            || (req.since == s.tick && !HasFailed(Apply(c, s, step).rows, c.tid(req.sub)))
  {
    hide IsUncompleted, IsOldest, LocalEnabled;
  }

  lemma StampsStayPast(c: Config, s: World, step: Step)
    requires Fresh(c, s) && Enabled(c, s, step)
    ensures var s' := Apply(c, s, step); forall t :: t in s'.errors ==> s'.errors[t].at < s'.tick
  {
    ErrorsAreWritten(c, s, step);
    hide Effect, Enabled;
  }

  lemma StepFresh(c: Config, s: World, step: Step)
    requires Fresh(c, s) && Enabled(c, s, step) && !Blames(c, s, step)
    ensures Fresh(c, Apply(c, s, step))
  {
    var s' := Apply(c, s, step);
    StampsStayPast(c, s, step);
    assert s'.tick == s.tick + 1;
    hide Apply, Enabled, Effect;
    forall r | r in s'.reqs && Traces(s'.reqs[r])
      ensures s'.reqs[r].since < s'.tick && FreshError(s'.rows, s'.errors, c.tid(s'.reqs[r].sub), s'.reqs[r].since)
    {
      TracingBegins(c, s, step, r);
      if HasFailed(s'.rows, c.tid(s'.reqs[r].sub)) {
        ErrorsAreStamped(c, s, step, c.tid(s'.reqs[r].sub));
      }
      if r in s.reqs {
        assert RequestFresh(c, s, s.reqs[r]);
      }
    }
  }

  ghost predicate NoBlame(c: Config, s: World, steps: seq<Step>)
    requires IsRun(c, s, steps)
    decreases |steps|
  {
    steps == [] || (!Blames(c, s, steps[0]) && NoBlame(c, Apply(c, s, steps[0]), steps[1..]))
  }

  lemma {:induction false} RunFresh(c: Config, s: World, steps: seq<Step>)
    requires Fresh(c, s) && IsRun(c, s, steps) && NoBlame(c, s, steps)
    ensures Fresh(c, After(c, s, steps))
    decreases |steps|
  {
    hide Fresh, Enabled, Apply, Blames;
    if steps != [] {
      StepFresh(c, s, steps[0]);
      RunFresh(c, Apply(c, s, steps[0]), steps[1..]);
    }
  }

  /** Over every run in which the operator marks no task as failed while a request traces it: when a
      poll answers a request with an error, a record call recorded that very error after the request's
      own lookup and, if it made one, its own reset. A text left over from before a reset is never
      reported. */
  lemma ErrorIsFresh(c: Config, now: int, steps: seq<Step>, r: nat)
    requires IsRun(c, Start(now), steps) && NoBlame(c, Start(now), steps)
    requires var s := After(c, Start(now), steps);
             Enabled(c, s, ReqPoll(r)) && Apply(c, s, ReqPoll(r)).reqs[r].pc.Finished?
             && Apply(c, s, ReqPoll(r)).reqs[r].pc.answer.GotError?
    ensures var s := After(c, Start(now), steps);
            var t := c.tid(s.reqs[r].sub);
            && t in s.errors
            && s.errors[t].msg == Apply(c, s, ReqPoll(r)).reqs[r].pc.answer.msg
            && s.reqs[r].since < s.errors[t].at < s.tick
  {
    RunFresh(c, Start(now), steps);
    var s := After(c, Start(now), steps);
    assert RequestFresh(c, s, s.reqs[r]);
  }

  // ---------------------------------------------------------------- the condition is exact

  /** Nothing has been recorded after `since` on a task that is not failed. */
  ghost predicate Quiet(rows: Rows, errors: map<Id, Stamp>, t: Id, since: nat) {
    !HasFailed(rows, t) && t in errors ==> errors[t].at <= since
  }

  ghost predicate QuietTraces(c: Config, s: World) {
    forall r :: r in s.reqs && Traces(s.reqs[r]) ==> Quiet(s.rows, s.errors, c.tid(s.reqs[r].sub), s.reqs[r].since)
  }

  /** A reset, or an operator's update, takes a failed task out of that state while a request is still
      tracing it. */
  ghost predicate Overruns(c: Config, s: World, step: Step) {
    exists r :: r in s.reqs && Traces(s.reqs[r]) && Unfails(c, s, step, c.tid(s.reqs[r].sub))
  }

  predicate Unfails(c: Config, s: World, step: Step, t: Id) {
    && HasFailed(s.rows, t)
    && (|| (step.ReqReset? && step.req in s.reqs && c.tid(s.reqs[step.req].sub) == t)
        || (step.Operator? && t in step.ids && step.state != TaskState.Error))
  }

  /** Where the lease holds, nobody is about to record a failed task. */
  lemma FailedStaysIff(c: Config, s: World, step: Step, t: Id)
    requires LeaseHolds(s) && Enabled(c, s, step) && HasFailed(s.rows, t)
    ensures HasFailed(Apply(c, s, step).rows, t) <==> !Unfails(c, s, step, t)
  {
    assert LeaseAt(s.rows, s.workers, s.records, s.lost, t);
    RowsAreWritten(c, s, step);
    if step.RecordNext? {
      RecordLeavesRow(s, step.call, t);
    }
    hide Apply, LeaseHolds, LeaseAt, RecordRows, IsUncompleted, IsOldest, LocalEnabled;
  }

  /** A record call that records an error leaves its row failed. */
  lemma StampedIsFailed(c: Config, s: World, step: Step)
    requires LeaseHolds(s) && Enabled(c, s, step) && ErrorsWritten(s, step) != s.errors
    ensures step.RecordNext? && HasFailed(Apply(c, s, step).rows, s.records[step.call].tid)
  {
    var call := s.records[step.call];
    assert PendingCall(s.records, step.call, call.tid);
    assert LeaseAt(s.rows, s.workers, s.records, s.lost, call.tid);
    RowsAreWritten(c, s, step);
    hide Apply, LeaseHolds, LeaseAt;
  }

  lemma StepQuiet(c: Config, s: World, step: Step)
    requires LeaseHolds(s) && Fresh(c, s) && QuietTraces(c, s) && Enabled(c, s, step) && !Overruns(c, s, step)
    ensures QuietTraces(c, Apply(c, s, step))
  {
    var s' := Apply(c, s, step);
    StampsStayPast(c, s, step);
    ErrorsAreWritten(c, s, step);
    assert s'.tick == s.tick + 1;
    hide Apply, Enabled, LeaseHolds, Unfails;
    forall r | r in s'.reqs && Traces(s'.reqs[r])
      ensures Quiet(s'.rows, s'.errors, c.tid(s'.reqs[r].sub), s'.reqs[r].since)
    {
      var t := c.tid(s'.reqs[r].sub);
      TracingBegins(c, s, step, r);
      if s'.reqs[r].since != s.tick && !HasFailed(s'.rows, t) {
        if HasFailed(s.rows, t) {
          FailedStaysIff(c, s, step, t);
        }
        if s'.errors != s.errors {
          StampedIsFailed(c, s, step);
        }
      }
    }
  }

  /** Who takes a task out of the failed state touches no request that traces it, and no history. */
  lemma UnfailingTouchesNoTrace(c: Config, s: World, step: Step, r: nat)
    requires Enabled(c, s, step) && r in s.reqs && Traces(s.reqs[r]) && Unfails(c, s, step, c.tid(s.reqs[r].sub))
    ensures var s' := Apply(c, s, step); r in s'.reqs && s'.reqs[r] == s.reqs[r] && s'.errors == s.errors
  {
    hide SetState;
  }

  /** A request that is overrun keeps the history it has, and loses the row that shows it. */
  lemma OverrunIsHeard(c: Config, s: World, step: Step)
    requires LeaseHolds(s) && Fresh(c, s) && Enabled(c, s, step) && Overruns(c, s, step)
    ensures !QuietTraces(c, Apply(c, s, step))
  {
    var r :| r in s.reqs && Traces(s.reqs[r]) && Unfails(c, s, step, c.tid(s.reqs[r].sub));
    var s' := Apply(c, s, step);
    assert RequestFresh(c, s, s.reqs[r]);
    FailedStaysIff(c, s, step, c.tid(s.reqs[r].sub));
    UnfailingTouchesNoTrace(c, s, step, r);
    hide LeaseHolds, Enabled, Apply;
    assert !Quiet(s'.rows, s'.errors, c.tid(s'.reqs[r].sub), s'.reqs[r].since);
  }

  /** Every single step leaves each traced task failed exactly when an error has been recorded on it
      since, if and only if it overruns no request. */
  lemma StepQuietIff(c: Config, s: World, step: Step)
    requires LeaseHolds(s) && Fresh(c, s) && QuietTraces(c, s) && Enabled(c, s, step)
    ensures QuietTraces(c, Apply(c, s, step)) <==> !Overruns(c, s, step)
  {
    hide LeaseHolds, Fresh, QuietTraces, Enabled, Apply, Overruns;
    if Overruns(c, s, step) {
      OverrunIsHeard(c, s, step);
    } else {
      StepQuiet(c, s, step);
    }
  }

  ghost predicate NeverOverruns(c: Config, s: World, steps: seq<Step>)
    requires IsRun(c, s, steps)
    decreases |steps|
  {
    steps == [] || (!Overruns(c, s, steps[0]) && NeverOverruns(c, Apply(c, s, steps[0]), steps[1..]))
  }

  ghost predicate AlwaysQuiet(c: Config, s: World, steps: seq<Step>)
    requires IsRun(c, s, steps)
    decreases |steps|
  {
    QuietTraces(c, s) && (steps == [] || AlwaysQuiet(c, Apply(c, s, steps[0]), steps[1..]))
  }

  /** Over every run that breaks no lease and blames no traced task, the exact condition. */
  lemma {:induction false} AlwaysQuietIff(c: Config, s: World, steps: seq<Step>)
    requires Leased(s) && Fresh(c, s) && QuietTraces(c, s)
    requires IsRun(c, s, steps) && NeverBreaks(c, s, steps) && NoBlame(c, s, steps)
    ensures AlwaysQuiet(c, s, steps) <==> NeverOverruns(c, s, steps)
    ensures NeverOverruns(c, s, steps) ==> Fresh(c, After(c, s, steps)) && QuietTraces(c, After(c, s, steps))
    decreases |steps|
  {
    hide LeaseHolds, KeyedById, Fresh, QuietTraces, Enabled, Apply, Breaks, Blames, Overruns;
    if steps != [] {
      var next := Apply(c, s, steps[0]);
      StepKeepsLeaseIff(c, s, steps[0]);
      StepFresh(c, s, steps[0]);
      StepQuietIff(c, s, steps[0]);
      if QuietTraces(c, next) {
        AlwaysQuietIff(c, next, steps[1..]);
      } else {
        assert !AlwaysQuiet(c, next, steps[1..]);
      }
    }
  }

  /** Over every run that breaks no lease, blames no traced task and overruns no request, a traced task is
      failed exactly when an error has been recorded on it since its request looked it up or reset it. */
  lemma FailedIffRecordedSince(c: Config, now: int, steps: seq<Step>, r: nat)
    requires IsRun(c, Start(now), steps) && NeverBreaks(c, Start(now), steps) && NoBlame(c, Start(now), steps)
    requires NeverOverruns(c, Start(now), steps)
    requires r in After(c, Start(now), steps).reqs && Traces(After(c, Start(now), steps).reqs[r])
    ensures var s := After(c, Start(now), steps);
            var t := c.tid(s.reqs[r].sub);
            HasFailed(s.rows, t) <==> t in s.errors && s.errors[t].at > s.reqs[r].since
  {
    AlwaysQuietIff(c, Start(now), steps);
    var s := After(c, Start(now), steps);
    assert RequestFresh(c, s, s.reqs[r]) && QuietTraces(c, s);
  }

  /** The condition on the operator is exact: at any moment of such a run, marking tasks failed leaves
      every request with fresh errors only, if and only if no request traces one of those tasks that are
      not failed already. */
  lemma BlamingIsFreshIff(c: Config, now: int, steps: seq<Step>, ids: seq<Id>)
    requires IsRun(c, Start(now), steps) && NeverBreaks(c, Start(now), steps) && NoBlame(c, Start(now), steps)
    requires NeverOverruns(c, Start(now), steps)
    ensures var s := After(c, Start(now), steps);
            var blamed := Operator(ids, TaskState.Error);
            Fresh(c, Apply(c, s, blamed))
            <==> forall r :: r in s.reqs && Traces(s.reqs[r]) ==> !Marks(s.rows, blamed, c.tid(s.reqs[r].sub))
  {
    AlwaysQuietIff(c, Start(now), steps);
    BlamingBreaksIff(c, After(c, Start(now), steps), ids);
  }

  lemma BlamingBreaksIff(c: Config, s: World, ids: seq<Id>)
    requires Fresh(c, s) && QuietTraces(c, s)
    ensures var blamed := Operator(ids, TaskState.Error);
            Fresh(c, Apply(c, s, blamed))
            <==> forall r :: r in s.reqs && Traces(s.reqs[r]) ==> !Marks(s.rows, blamed, c.tid(s.reqs[r].sub))
  {
    var blamed := Operator(ids, TaskState.Error);
    var s' := Apply(c, s, blamed);
    if Blames(c, s, blamed) {
      var r :| r in s.reqs && Traces(s.reqs[r]) && Marks(s.rows, blamed, c.tid(s.reqs[r].sub));
      assert Quiet(s.rows, s.errors, c.tid(s.reqs[r].sub), s.reqs[r].since);
      assert !RequestFresh(c, s', s'.reqs[r]);
    } else {
      StepFresh(c, s, blamed);
    }
  }
}
