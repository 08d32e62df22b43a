/** Claims: who wins a task, how often, and in which order. */
module Claims {
  import opened Entities
  import opened TaskTable
  import opened Protocol
  import opened Lease
  import opened Submissions
  import Pipeline

  // ---------------------------------------------------------------- what a claim wins

  ghost predicate ClaimsAllowed(s: World) {
    forall k :: k in s.claims && s.claims[k].pc.GuardedUpdate? ==>
      s.claims[k].pc.tid in s.rows && Allows(s.claims[k].types, s.rows[s.claims[k].pc.tid].taskType)
  }

  lemma StepClaimsAllowed(c: Config, s: World, step: Step)
    requires ClaimsAllowed(s) && Enabled(c, s, step)
    ensures ClaimsAllowed(Apply(c, s, step))
  {
    StepKeepsTasks(c, s, step);
    hide IsUncompleted, LocalEnabled;
  }

  lemma {:induction false} RunClaimsAllowed(c: Config, s: World, steps: seq<Step>)
    requires ClaimsAllowed(s) && IsRun(c, s, steps)
    ensures ClaimsAllowed(After(c, s, steps))
    decreases |steps|
  {
    hide ClaimsAllowed, Enabled, Apply;
    if steps != [] {
      StepClaimsAllowed(c, s, steps[0]);
      RunClaimsAllowed(c, Apply(c, s, steps[0]), steps[1..]);
    }
  }

  /** Over every run: a claim that loses leaves the table alone; one that wins changes one row, and
      that row was initial, is of a type its worker allows, and is now running under its worker; and what
      the worker is handed is that row. */
  lemma ClaimRefinement(c: Config, now: int, steps: seq<Step>, k: nat, delivered: bool)
    requires IsRun(c, Start(now), steps) && Enabled(c, After(c, Start(now), steps), ClaimUpdate(k, delivered))
    ensures var s := After(c, Start(now), steps);
            var s' := Apply(c, s, ClaimUpdate(k, delivered));
            var call := s.claims[k];
            var t := call.pc.tid;
            && (forall u :: u != t ==> (u in s'.rows <==> u in s.rows) && (u in s.rows ==> s'.rows[u] == s.rows[u]))
            && (!Wins(s, k) ==> s'.rows == s.rows && s'.workers == s.workers)
            && (Wins(s, k) && delivered ==> s'.workers[call.worker].fetcher == Pipeline.Hand(s'.rows[t]))
            && (Wins(s, k) <==> t in s.rows && s.rows[t].state == Init)
            && (Wins(s, k) ==>
                  && (call.types.None? || s.rows[t].taskType in call.types.value)
                  && s'.rows[t] == s.rows[t].(state := Running, workerId := call.worker, startAt := s.now))
  {
    RunClaimsAllowed(c, Start(now), steps);
  }

  /** A claim can select exactly the rows that wait, are of a type it allows, and have no older ones of
      this kind. */
  lemma SelectsOldestIff(c: Config, s: World, k: nat, t: Id)
    requires k in s.claims && s.claims[k].pc.SelectTodo?
    ensures var types := s.claims[k].types;
            Enabled(c, s, ClaimSelect(k, t)) <==>
              && t in s.rows && s.rows[t].state == Init && (types.None? || s.rows[t].taskType in types.value)
              && forall u :: u in s.rows && s.rows[u].state == Init && (types.None? || s.rows[u].taskType in types.value)
                             ==> s.rows[t].createAt <= s.rows[u].createAt
  {
  }

  /** And it can select one as soon as there is any row that waits and is of a type it allows. */
  lemma SelectsWaiting(c: Config, s: World, k: nat, t: Id)
    requires k in s.claims && s.claims[k].pc.SelectTodo?
    requires t in s.rows && s.rows[t].state == Init
    requires s.claims[k].types.None? || s.rows[t].taskType in s.claims[k].types.value
    ensures exists u :: Enabled(c, s, ClaimSelect(k, u))
  {
    var types := s.claims[k].types;
    var waiting := set u | u in s.rows && s.rows[u].state == Init && (types.None? || s.rows[u].taskType in types.value);
    assert t in waiting;
    OldestExists(s.rows, waiting);
    var u :| u in waiting && forall v :: v in waiting ==> s.rows[u].createAt <= s.rows[v].createAt;
    SelectsOldestIff(c, s, k, u);
    hide Enabled;
  }

  // ---------------------------------------------------------------- one win per episode

  predicate WinsTask(s: World, step: Step, t: Id) {
    step.ClaimUpdate? && step.call in s.claims && s.claims[step.call].pc == GuardedUpdate(t) && Wins(s, step.call)
  }

  /** The two steps that can make a task initial again. */
  predicate Reopens(c: Config, s: World, step: Step, t: Id) {
    || (step.ReqReset? && step.req in s.reqs && c.tid(s.reqs[step.req].sub) == t)
    || (step.Operator? && t in step.ids && step.state == Init)
  }

  ghost predicate NeverReopened(c: Config, s: World, steps: seq<Step>, t: Id)
    requires IsRun(c, s, steps)
    decreases |steps|
  {
    steps == [] || (!Reopens(c, s, steps[0], t) && NeverReopened(c, Apply(c, s, steps[0]), steps[1..], t))
  }

  predicate NotInitial(rows: Rows, t: Id) {
    t in rows && rows[t].state != Init
  }

  lemma StepNotInitial(c: Config, s: World, step: Step, t: Id)
    requires NotInitial(s.rows, t) && Enabled(c, s, step) && !Reopens(c, s, step, t)
    ensures NotInitial(Apply(c, s, step).rows, t)
  {
    RowsAreWritten(c, s, step);
    hide Apply, IsUncompleted, IsOldest, LocalEnabled;
  }

  lemma {:induction false} RunNotInitial(c: Config, s: World, steps: seq<Step>, t: Id)
    requires NotInitial(s.rows, t) && IsRun(c, s, steps) && NeverReopened(c, s, steps, t)
    ensures NotInitial(After(c, s, steps).rows, t)
    decreases |steps|
  {
    hide NotInitial, Enabled, Apply, Reopens;
    if steps != [] {
      StepNotInitial(c, s, steps[0], t);
      RunNotInitial(c, Apply(c, s, steps[0]), steps[1..], t);
    }
  }

  /** Among any number of concurrent fetchers each initial episode of a task is won once: between
      two wins of the same task it has been reset. */
  lemma OneWinPerEpisode(c: Config, s: World, first: Step, between: seq<Step>, second: Step, t: Id)
    requires Enabled(c, s, first) && WinsTask(s, first, t)
    requires IsRun(c, Apply(c, s, first), between)
    requires Enabled(c, After(c, Apply(c, s, first), between), second)
    requires WinsTask(After(c, Apply(c, s, first), between), second, t)
    ensures !NeverReopened(c, Apply(c, s, first), between, t)
  {
    var won := Apply(c, s, first);
    assert NotInitial(won.rows, t);
    if NeverReopened(c, won, between, t) {
      RunNotInitial(c, won, between, t);
    }
  }

  // ---------------------------------------------------------------- first come, first served

  /** No eligible row is older than `t`. */
  ghost predicate NoneOlder(rows: Rows, types: Option<seq<TaskType>>, t: Id) {
    t in rows && forall u :: Eligible(rows, types, u) ==> rows[t].createAt <= rows[u].createAt
  }

  /** To make `u` initial again puts an older row before `t`. */
  predicate ResetOvertakes(rows: Rows, types: Option<seq<TaskType>>, t: Id, u: Id)
    requires t in rows
  {
    u in rows && rows[u].state != Init && Allows(types, rows[u].taskType) && rows[u].createAt < rows[t].createAt
  }

  predicate Reopened(c: Config, s: World, step: Step, types: Option<seq<TaskType>>, t: Id)
    requires t in s.rows
  {
    || (step.ReqReset? && step.req in s.reqs && ResetOvertakes(s.rows, types, t, c.tid(s.reqs[step.req].sub)))
    || (step.Operator? && step.state == Init && exists u :: u in step.ids && ResetOvertakes(s.rows, types, t, u))
  }

  /** The call is about to insert an allowed row with an earlier time than that of `t`. */
  predicate StampedEarlier(c: Config, rows: Rows, call: AddCall, types: Option<seq<TaskType>>, t: Id)
    requires t in rows
  {
    && call.pc.InsertTask? && c.tid(call.sub) !in rows && Allows(types, call.sub.taskType)
    && call.pc.at < rows[t].createAt
  }

  /** The steps that put an older row before `t`: a late insert, and a reset of an older row. */
  predicate Overtakes(c: Config, s: World, step: Step, types: Option<seq<TaskType>>, t: Id)
    requires t in s.rows
  {
    || (step.AddNext? && step.call in s.adds && StampedEarlier(c, s.rows, s.adds[step.call], types, t))
    || Reopened(c, s, step, types, t)
  }

  /** A reset keeps `t` first exactly when it reopens no older row. */
  lemma SetStateKeepsFirstIff(rows: Rows, types: Option<seq<TaskType>>, t: Id, ids: seq<Id>, state: TaskState)
    requires NoneOlder(rows, types, t)
    ensures NoneOlder(SetState(rows, ids, state), types, t)
            <==> !(state == Init && exists u :: u in ids && ResetOvertakes(rows, types, t, u))
  {
    var after := SetState(rows, ids, state);
    if u :| u in ids && state == Init && ResetOvertakes(rows, types, t, u) {
      assert Eligible(after, types, u);
    } else {
      forall u | Eligible(after, types, u) ensures after[t].createAt <= after[u].createAt {
        assert u in ids || Eligible(rows, types, u);
      }
    }
  }

  lemma InsertKeepsFirstIff(c: Config, s: World, k: nat, types: Option<seq<TaskType>>, t: Id)
    requires NoneOlder(s.rows, types, t) && k in s.adds
    ensures NoneOlder(AddRows(c, s, s.adds[k]), types, t) <==> !StampedEarlier(c, s.rows, s.adds[k], types, t)
  {
    var after := AddRows(c, s, s.adds[k]);
    var u := c.tid(s.adds[k].sub);
    forall v | v != u ensures Eligible(after, types, v) <==> Eligible(s.rows, types, v) {
    }
    assert s.adds[k].pc.InsertTask? && u !in s.rows && Allows(types, s.adds[k].sub.taskType) ==> Eligible(after, types, u);
  }

  lemma SubmissionKeepsFirstIff(c: Config, s: World, step: Step, types: Option<seq<TaskType>>, t: Id)
    requires NoneOlder(s.rows, types, t) && Enabled(c, s, step) && step.AddNext?
    ensures NoneOlder(Apply(c, s, step).rows, types, t) <==> !Overtakes(c, s, step, types, t)
  {
    InsertKeepsFirstIff(c, s, step.call, types, t);
    hide NoneOlder, AddRows, StampedEarlier;
  }

  lemma ResetKeepsFirstIff(c: Config, s: World, step: Step, types: Option<seq<TaskType>>, t: Id)
    requires NoneOlder(s.rows, types, t) && Enabled(c, s, step) && (step.ReqReset? || step.Operator?)
    ensures NoneOlder(Apply(c, s, step).rows, types, t) <==> !Overtakes(c, s, step, types, t)
  {
    var ids := if step.ReqReset? then [c.tid(s.reqs[step.req].sub)] else step.ids;
    SetStateKeepsFirstIff(s.rows, types, t, ids, if step.ReqReset? then Init else step.state);
    assert step.ReqReset? ==> ids[0] in ids;
    hide NoneOlder, SetState, ResetOvertakes;
  }

  /** A claim or a record makes no row eligible. */
  lemma OthersKeepFirst(c: Config, s: World, step: Step, types: Option<seq<TaskType>>, t: Id)
    requires NoneOlder(s.rows, types, t) && Enabled(c, s, step)
    requires !step.AddNext? && !step.ReqReset? && !step.Operator?
    ensures NoneOlder(Apply(c, s, step).rows, types, t) && !Overtakes(c, s, step, types, t)
  {
    RowsAreWritten(c, s, step);
    hide Apply, IsUncompleted, IsOldest, LocalEnabled;
  }

  /** Every single step, of whatever kind, leaves `t` first if and only if it does not overtake it. */
  lemma StepKeepsFirstIff(c: Config, s: World, step: Step, types: Option<seq<TaskType>>, t: Id)
    requires NoneOlder(s.rows, types, t) && Enabled(c, s, step)
    ensures NoneOlder(Apply(c, s, step).rows, types, t) <==> !Overtakes(c, s, step, types, t)
  {
    hide Enabled, Apply, Overtakes;
    if step.AddNext? {
      SubmissionKeepsFirstIff(c, s, step, types, t);
    } else if step.ReqReset? || step.Operator? {
      ResetKeepsFirstIff(c, s, step, types, t);
    } else {
      OthersKeepFirst(c, s, step, types, t);
    }
  }

  ghost predicate NeverOvertaken(c: Config, s: World, steps: seq<Step>, types: Option<seq<TaskType>>, t: Id)
    requires IsRun(c, s, steps)
    decreases |steps|
  {
    steps == [] || (t in s.rows && !Overtakes(c, s, steps[0], types, t)
                    && NeverOvertaken(c, Apply(c, s, steps[0]), steps[1..], types, t))
  }

  /** At every moment of the run no eligible row is older. */
  ghost predicate AlwaysFirst(c: Config, s: World, steps: seq<Step>, types: Option<seq<TaskType>>, t: Id)
    requires IsRun(c, s, steps)
    decreases |steps|
  {
    NoneOlder(s.rows, types, t) && (steps == [] || AlwaysFirst(c, Apply(c, s, steps[0]), steps[1..], types, t))
  }

  lemma {:induction false} AlwaysFirstIff(c: Config, s: World, steps: seq<Step>, types: Option<seq<TaskType>>, t: Id)
    requires NoneOlder(s.rows, types, t) && IsRun(c, s, steps)
    ensures AlwaysFirst(c, s, steps, types, t) <==> NeverOvertaken(c, s, steps, types, t)
    ensures NeverOvertaken(c, s, steps, types, t) ==> NoneOlder(After(c, s, steps).rows, types, t)
    decreases |steps|
  {
    hide Overtakes, Enabled, Apply;
    if steps != [] {
      var next := Apply(c, s, steps[0]);
      StepKeepsFirstIff(c, s, steps[0], types, t);
      if NoneOlder(next.rows, types, t) {
        AlwaysFirstIff(c, next, steps[1..], types, t);
      } else {
        assert !AlwaysFirst(c, next, steps[1..], types, t);
      }
    }
  }

  /** First come, first served: the selected row is first at every moment from the select of a claim to
      its update if and only if no step in between overtakes it; and then the row won is an oldest
      eligible one at the moment of the update. */
  lemma FifoClaims(c: Config, s: World, k: nat, t: Id, between: seq<Step>)
    requires Enabled(c, s, ClaimSelect(k, t))
    requires var selected := Apply(c, s, ClaimSelect(k, t));
             IsRun(c, selected, between)
             && var s' := After(c, selected, between);
             k in s'.claims && s'.claims[k].pc == GuardedUpdate(t) && Wins(s', k)
    ensures var types := s.claims[k].types;
            var selected := Apply(c, s, ClaimSelect(k, t));
            && (AlwaysFirst(c, selected, between, types, t) <==> NeverOvertaken(c, selected, between, types, t))
            && (NeverOvertaken(c, selected, between, types, t) ==>
                  var rows := After(c, selected, between).rows;
                  && t in rows && rows[t].state == Init && (types.None? || rows[t].taskType in types.value)
                  && forall u :: u in rows && rows[u].state == Init && (types.None? || rows[u].taskType in types.value)
                                 ==> rows[t].createAt <= rows[u].createAt)
  {
    var selected := Apply(c, s, ClaimSelect(k, t));
    assert selected.rows == s.rows;
    AlwaysFirstIff(c, selected, between, s.claims[k].types, t);
    OneRowPerTask(c, selected, between, t);
  }

  // ---------------------------------------------------------------- when the clock does not go back

  ghost predicate ClockMonotone(c: Config, s: World, steps: seq<Step>)
    requires IsRun(c, s, steps)
    decreases |steps|
  {
    steps == [] || ((steps[0].Clock? ==> s.now <= steps[0].time) && ClockMonotone(c, Apply(c, s, steps[0]), steps[1..]))
  }

  /** Rows carry times that have been. */
  ghost predicate CreatedBefore(s: World) {
    && (forall t :: t in s.rows ==> s.rows[t].createAt <= s.now)
    && (forall k :: k in s.adds && s.adds[k].pc.InsertTask? ==> s.adds[k].pc.at <= s.now)
  }

  lemma StampsBefore(c: Config, s: World, step: Step)
    requires CreatedBefore(s) && Enabled(c, s, step) && (step.Clock? ==> s.now <= step.time)
    ensures var s' := Apply(c, s, step);
            s.now <= s'.now && forall k :: k in s'.adds && s'.adds[k].pc.InsertTask? ==> s'.adds[k].pc.at <= s'.now
  {
    AddsAreWritten(c, s, step);
    hide Apply, IsUncompleted, IsOldest, LocalEnabled;
  }

  lemma StepCreatedBefore(c: Config, s: World, step: Step)
    requires CreatedBefore(s) && Enabled(c, s, step) && (step.Clock? ==> s.now <= step.time)
    ensures CreatedBefore(Apply(c, s, step))
  {
    var s' := Apply(c, s, step);
    StepKeepsTasks(c, s, step);
    StampsBefore(c, s, step);
    hide Apply;
    forall t | t in s'.rows ensures s'.rows[t].createAt <= s'.now {
      if t !in s.rows {
        RowsComeFromInserts(c, s, step, t);
      }
    }
  }

  lemma {:induction false} RunCreatedBefore(c: Config, s: World, steps: seq<Step>)
    requires CreatedBefore(s) && IsRun(c, s, steps) && ClockMonotone(c, s, steps)
    ensures CreatedBefore(After(c, s, steps))
    decreases |steps|
  {
    hide CreatedBefore, Enabled, Apply;
    if steps != [] {
      StepCreatedBefore(c, s, steps[0]);
      RunCreatedBefore(c, Apply(c, s, steps[0]), steps[1..]);
    }
  }

  /** No submission under way carries an earlier time than `t`. */
  ghost predicate NoEarlierStamp(c: Config, s: World, types: Option<seq<TaskType>>, t: Id)
    requires t in s.rows
  {
    forall k :: k in s.adds ==> !StampedEarlier(c, s.rows, s.adds[k], types, t)
  }

  ghost predicate NeverReopens(c: Config, s: World, steps: seq<Step>, types: Option<seq<TaskType>>, t: Id)
    requires IsRun(c, s, steps)
    decreases |steps|
  {
    steps == [] || (t in s.rows && !Reopened(c, s, steps[0], types, t)
                    && NeverReopens(c, Apply(c, s, steps[0]), steps[1..], types, t))
  }

  /** A new stamp is the present time, and old ones do not change. */
  lemma StampsStay(c: Config, s: World, step: Step, k: nat)
    requires Enabled(c, s, step) && k in Apply(c, s, step).adds && Apply(c, s, step).adds[k].pc.InsertTask?
    ensures Apply(c, s, step).adds[k].pc.at == s.now || (k in s.adds && s.adds[k] == Apply(c, s, step).adds[k])
  {
    AddsAreWritten(c, s, step);
    hide Apply, IsUncompleted, IsOldest, LocalEnabled;
  }

  lemma StepStampsNoEarlier(c: Config, s: World, step: Step, types: Option<seq<TaskType>>, t: Id)
    requires t in s.rows && s.rows[t].createAt <= s.now && NoEarlierStamp(c, s, types, t) && Enabled(c, s, step)
    ensures t in Apply(c, s, step).rows && NoEarlierStamp(c, Apply(c, s, step), types, t)
  {
    var s' := Apply(c, s, step);
    StepKeepsTasks(c, s, step);
    hide Apply, Enabled;
    forall k | k in s'.adds && s'.adds[k].pc.InsertTask? ensures !StampedEarlier(c, s'.rows, s'.adds[k], types, t) {
      StampsStay(c, s, step, k);
    }
  }

  lemma StepAgesNothing(c: Config, s: World, step: Step, t: Id)
    requires t in s.rows && s.rows[t].createAt <= s.now && Enabled(c, s, step) && (step.Clock? ==> s.now <= step.time)
    ensures t in Apply(c, s, step).rows && Apply(c, s, step).rows[t].createAt <= Apply(c, s, step).now
  {
    StepKeepsTasks(c, s, step);
    AddsAreWritten(c, s, step);
    hide Apply, IsUncompleted, IsOldest, LocalEnabled;
  }

  lemma OvertakesByReset(c: Config, s: World, step: Step, types: Option<seq<TaskType>>, t: Id)
    requires t in s.rows && NoEarlierStamp(c, s, types, t)
    ensures Overtakes(c, s, step, types, t) <==> Reopened(c, s, step, types, t)
  {
  }

  lemma {:induction false} NoEarlierStampsNoOvertaking(c: Config, s: World, steps: seq<Step>, types: Option<seq<TaskType>>, t: Id)
    requires t in s.rows && s.rows[t].createAt <= s.now && NoEarlierStamp(c, s, types, t)
    requires IsRun(c, s, steps) && ClockMonotone(c, s, steps)
    ensures NeverOvertaken(c, s, steps, types, t) <==> NeverReopens(c, s, steps, types, t)
    decreases |steps|
  {
    hide Enabled, Apply, Reopened, Overtakes, NoEarlierStamp;
    if steps != [] {
      StepStampsNoEarlier(c, s, steps[0], types, t);
      StepAgesNothing(c, s, steps[0], t);
      OvertakesByReset(c, s, steps[0], types, t);
      NoEarlierStampsNoOvertaking(c, Apply(c, s, steps[0]), steps[1..], types, t);
    }
  }

  /** With a clock that never goes back it is enough to look at the moment of the select: if no
      submission under way has read the clock before the selected row was created, then the row won is
      an oldest eligible one at the update, whatever is submitted, claimed or recorded in between,
      unless an older row is reset. */
  lemma FifoWithMonotoneClock(c: Config, now: int, before: seq<Step>, k: nat, t: Id, between: seq<Step>)
    requires IsRun(c, Start(now), before) && ClockMonotone(c, Start(now), before)
    requires Enabled(c, After(c, Start(now), before), ClaimSelect(k, t))
    requires var s := After(c, Start(now), before);
             var types := s.claims[k].types;
             var selected := Apply(c, s, ClaimSelect(k, t));
             && t in s.rows && NoEarlierStamp(c, s, types, t)
             && IsRun(c, selected, between) && ClockMonotone(c, selected, between)
             && NeverReopens(c, selected, between, types, t)
             && var s' := After(c, selected, between);
             k in s'.claims && s'.claims[k].pc == GuardedUpdate(t) && Wins(s', k)
    ensures var s := After(c, Start(now), before);
            var types := s.claims[k].types;
            var rows := After(c, Apply(c, s, ClaimSelect(k, t)), between).rows;
            && t in rows && rows[t].state == Init && (types.None? || rows[t].taskType in types.value)
            && forall u :: u in rows && rows[u].state == Init && (types.None? || rows[u].taskType in types.value)
                           ==> rows[t].createAt <= rows[u].createAt
  {
    var s := After(c, Start(now), before);
    var selected := Apply(c, s, ClaimSelect(k, t));
    RunCreatedBefore(c, Start(now), before);
    assert selected.rows == s.rows && selected.adds == s.adds && selected.now == s.now;
    NoEarlierStampsNoOvertaking(c, selected, between, s.claims[k].types, t);
    FifoClaims(c, s, k, t, between);
  }

  /** A reset between the two statements breaks the order if and only if the task it reopens is
      allowed and older than the selected one. */
  lemma ResetBreaksFifoIff(rows: Rows, types: Option<seq<TaskType>>, t: Id, u: Id)
    requires IsOldest(rows, types, t) && u in rows && u != t
    ensures !IsOldest(SetState(rows, [u], Init), types, t)
            <==> Allows(types, rows[u].taskType) && rows[u].createAt < rows[t].createAt
  {
    assert [u][0] in [u];
    SetStateKeepsFirstIff(rows, types, t, [u], Init);
  }
}
