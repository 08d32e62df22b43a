/** A discipline under which no lease is ever broken and no completed task revived: rules that can be
    kept beforehand, while the conditions of the lease itself are about what a step meets in the table. */
module Discipline {
  import opened Entities
  import opened TaskTable
  import opened Protocol
  import opened Lease
  import Pipeline

  /** A request that is about to reset its task, or whose client gave up on the reset. */
  predicate Resets(req: Request) {
    req.pc.Resetting? || req.pc.ResetAbandoned?
  }

  /** A request looks its task up only when no other reset of that task is pending, an abandoned one
      included; a worker boots only when no record call of its former life is left; and the operator
      leaves the states alone. Any number of requests may trace the same task. */
  ghost predicate Disciplined(c: Config, s: World, step: Step) {
    match step
    case ReqLookup(r, _, _) =>
      r in s.reqs ==> forall q :: q in s.reqs && Resets(s.reqs[q]) ==> c.tid(s.reqs[q].sub) != c.tid(s.reqs[r].sub)
    case Boot(_, _, _, _, _) => !Breaks(c, s, step)
    case Operator(_, _) => false
    case _ => true
  }

  ghost predicate ResetsApart(c: Config, reqs: map<nat, Request>) {
    forall q, r :: q in reqs && r in reqs && Resets(reqs[q]) && Resets(reqs[r]) && q != r ==> c.tid(reqs[q].sub) != c.tid(reqs[r].sub)
  }

  ghost predicate ResetsFailed(c: Config, rows: Rows, reqs: map<nat, Request>) {
    forall r :: r in reqs && Resets(reqs[r]) ==> HasFailed(rows, c.tid(reqs[r].sub))
  }

  ghost predicate Kept(c: Config, s: World) {
    Leased(s) && ResetsApart(c, s.reqs) && ResetsFailed(c, s.rows, s.reqs)
  }

  lemma DisciplineBreaksNothing(c: Config, s: World, step: Step)
    requires Kept(c, s) && Enabled(c, s, step) && Disciplined(c, s, step)
    ensures !Breaks(c, s, step)
  {
    if step.ReqReset? {
      assert HasFailed(s.rows, c.tid(s.reqs[step.req].sub));
    }
    hide Kept, IsUncompleted, IsOldest, LocalEnabled;
  }

  // ---------------------------------------------------------------- the life of a row

  /** The moves of a row: claimed when initial; completed or failed when running; reset when failed.
      A completed row does not move. */
  predicate RowMoves(row: Task, row': Task) {
    || row' == row
    || (row.state == Init && row' == row.(state := Running, workerId := row'.workerId, startAt := row'.startAt))
    || (row.state == Running
        && row' == row.(state := Completed, proof := row'.proof, errorMsg := "", completeAt := row'.completeAt))
    || (row.state == Running && row' == row.(state := TaskState.Error, errorMsg := row'.errorMsg))
    || (row.state == TaskState.Error && row' == row.(state := Init))
  }

  lemma RecordMovesRow(s: World, k: nat, t: Id)
    requires LeaseHolds(s) && k in s.records && t in s.rows
    ensures RowMoves(s.rows[t], RecordEffect(s, k).rows[t])
    ensures s.rows[t].state == TaskState.Error ==> RecordEffect(s, k).rows[t] == s.rows[t]
  {
    assert LeaseAt(s.rows, s.workers, s.records, s.lost, t);
    hide LeaseHolds, HeldBy;
    assert PendingCall(s.records, k, t) ==> RunningBy(s.rows, t, s.records[k].worker);
  }

  lemma ResetMovesRow(c: Config, s: World, r: nat, delivered: bool, t: Id)
    requires ResetsFailed(c, s.rows, s.reqs) && r in s.reqs && Resets(s.reqs[r]) && t in s.rows
    ensures RowMoves(s.rows[t], ResetEffect(c, s, r, delivered).rows[t])
    ensures ResetEffect(c, s, r, delivered).rows[t] != s.rows[t] ==> t == c.tid(s.reqs[r].sub)
  {
  }

  /** Every step moves every row along its life, and only the reset of a failed row leads back. */
  lemma StepMovesRow(c: Config, s: World, step: Step, t: Id)
    requires Kept(c, s) && Enabled(c, s, step) && Disciplined(c, s, step) && t in s.rows
    ensures t in Apply(c, s, step).rows && RowMoves(s.rows[t], Apply(c, s, step).rows[t])
    ensures s.rows[t].state == TaskState.Error && Apply(c, s, step).rows[t] != s.rows[t]
            ==> step.ReqReset? && c.tid(s.reqs[step.req].sub) == t
  {
    hide LeaseHolds, ResetsFailed, ResetsApart, KeyedById;
    RowsAreWritten(c, s, step);
    hide Apply;
    match step
    case ReqReset(r, delivered) => ResetMovesRow(c, s, r, delivered, t);
    case RecordNext(k) => RecordMovesRow(s, k, t);
    case _ =>
  }

  // ---------------------------------------------------------------- the invariant

  lemma ResetsStayApart(c: Config, s: World, step: Step)
    requires Kept(c, s) && Enabled(c, s, step) && Disciplined(c, s, step)
    ensures ResetsApart(c, Apply(c, s, step).reqs)
  {
    hide Leased, ResetsFailed, IsUncompleted, IsOldest, LocalEnabled;
  }

  lemma ResetsStayFailed(c: Config, s: World, step: Step)
    requires Kept(c, s) && Enabled(c, s, step) && Disciplined(c, s, step)
    ensures ResetsFailed(c, Apply(c, s, step).rows, Apply(c, s, step).reqs)
  {
    var s' := Apply(c, s, step);
    forall r | r in s'.reqs && Resets(s'.reqs[r]) ensures HasFailed(s'.rows, c.tid(s'.reqs[r].sub)) {
      var t := c.tid(s'.reqs[r].sub);
      hide Leased;
      assert HasFailed(s.rows, t);
      StepMovesRow(c, s, step, t);
    }
  }

  lemma StepKept(c: Config, s: World, step: Step)
    requires Kept(c, s) && Enabled(c, s, step) && Disciplined(c, s, step)
    ensures Kept(c, Apply(c, s, step))
  {
    hide LeaseHolds, KeyedById, Breaks, Enabled, Apply, Disciplined;
    DisciplineBreaksNothing(c, s, step);
    StepKeepsLeaseIff(c, s, step);
    ResetsStayApart(c, s, step);
    ResetsStayFailed(c, s, step);
  }

  // ---------------------------------------------------------------- every run

  ghost predicate IsDisciplined(c: Config, s: World, steps: seq<Step>)
    requires IsRun(c, s, steps)
    decreases |steps|
  {
    steps == [] || (Disciplined(c, s, steps[0]) && IsDisciplined(c, Apply(c, s, steps[0]), steps[1..]))
  }

  /** A disciplined run breaks no lease. */
  lemma {:induction false} RunKept(c: Config, s: World, steps: seq<Step>)
    requires Kept(c, s) && IsRun(c, s, steps) && IsDisciplined(c, s, steps)
    ensures Kept(c, After(c, s, steps)) && NeverBreaks(c, s, steps)
    decreases |steps|
  {
    hide Kept, Breaks, Enabled, Apply, Disciplined;
    if steps != [] {
      StepKept(c, s, steps[0]);
      DisciplineBreaksNothing(c, s, steps[0]);
      RunKept(c, Apply(c, s, steps[0]), steps[1..]);
    }
  }

  /** Nor does it revive a completed task. */
  lemma {:induction false} CompletedStays(c: Config, s: World, steps: seq<Step>, t: Id)
    requires Kept(c, s) && IsRun(c, s, steps) && IsDisciplined(c, s, steps)
    requires t in s.rows && s.rows[t].state == Completed
    ensures NeverRevived(c, s, steps, t)
    decreases |steps|
  {
    hide Kept, Revives, Enabled, Apply, Disciplined;
    if steps != [] {
      StepKept(c, s, steps[0]);
      StepRevivesNothing(c, s, steps[0], t);
      CompletedStays(c, Apply(c, s, steps[0]), steps[1..], t);
    }
  }

  lemma StepRevivesNothing(c: Config, s: World, step: Step, t: Id)
    requires Kept(c, s) && Enabled(c, s, step) && Disciplined(c, s, step)
    requires t in s.rows && s.rows[t].state == Completed
    ensures !Revives(c, s, step, t)
    ensures t in Apply(c, s, step).rows && Apply(c, s, step).rows[t] == s.rows[t]
  {
    assert LeaseHolds(s);
    if step.ReqReset? {
      assert HasFailed(s.rows, c.tid(s.reqs[step.req].sub));
    }
    hide Kept, LeaseHolds, Apply, IsUncompleted, IsOldest, LocalEnabled;
    StepKeepsCompletedIff(c, s, step, t);
  }

  /** The discipline suffices: over every disciplined run no lease is broken, and over every disciplined
      continuation no completed task is revived. */
  lemma DisciplineSuffices(c: Config, now: int, before: seq<Step>, steps: seq<Step>, t: Id)
    requires IsRun(c, Start(now), before) && IsDisciplined(c, Start(now), before)
    requires var s := After(c, Start(now), before);
             && IsRun(c, s, steps) && IsDisciplined(c, s, steps)
             && t in s.rows && s.rows[t].state == Completed
    ensures NeverBreaks(c, Start(now), before)
    ensures var s := After(c, Start(now), before); NeverBreaks(c, s, steps) && NeverRevived(c, s, steps, t)
  {
    RunKept(c, Start(now), before);
    RunKept(c, After(c, Start(now), before), steps);
    CompletedStays(c, After(c, Start(now), before), steps, t);
  }
}
