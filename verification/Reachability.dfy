/** Runs that are known to exist: a task can be submitted, claimed, computed and recorded. */
module Reachability {
  import opened Entities
  import opened TaskTable
  import opened Resources
  import opened Protocol
  import opened Lease
  import opened Discipline
  import opened Claims
  import Pipeline

  /** A disciplined run on which the clock does not go back. */
  ghost predicate IsProper(c: Config, s: World, steps: seq<Step>)
    requires IsRun(c, s, steps)
  {
    IsDisciplined(c, s, steps) && ClockMonotone(c, s, steps)
  }

  /** Some proper run leads from `s` to `s'`. */
  ghost predicate Reaches(c: Config, s: World, s': World) {
    exists steps :: IsRun(c, s, steps) && IsProper(c, s, steps) && After(c, s, steps) == s'
  }

  lemma ReachesByStep(c: Config, s: World, step: Step)
    requires Enabled(c, s, step) && Disciplined(c, s, step) && (step.Clock? ==> s.now <= step.time)
    ensures Reaches(c, s, Apply(c, s, step))
  {
    hide Enabled, Apply, Disciplined;
    var one := [step];
    var next := Apply(c, s, step);
    assert one[1..] == [];
    assert IsRun(c, next, one[1..]) && IsProper(c, next, one[1..]) && After(c, next, one[1..]) == next;
    assert IsRun(c, s, one) && IsProper(c, s, one) && After(c, s, one) == next;
  }

  lemma {:induction false} RunsConcat(c: Config, s: World, a: seq<Step>, b: seq<Step>)
    requires IsRun(c, s, a) && IsProper(c, s, a)
    requires IsRun(c, After(c, s, a), b) && IsProper(c, After(c, s, a), b)
    ensures IsRun(c, s, a + b) && IsProper(c, s, a + b) && After(c, s, a + b) == After(c, After(c, s, a), b)
    decreases |a|
  {
    hide Enabled, Apply, Disciplined;
    if a == [] {
      assert a + b == b;
    } else {
      assert (a + b)[0] == a[0] && (a + b)[1..] == a[1..] + b;
      RunsConcat(c, Apply(c, s, a[0]), a[1..], b);
    }
  }

  lemma ReachesTransitive(c: Config, s: World, s': World, s'': World)
    requires Reaches(c, s, s') && Reaches(c, s', s'')
    ensures Reaches(c, s, s'')
  {
    var a :| IsRun(c, s, a) && IsProper(c, s, a) && After(c, s, a) == s';
    var b :| IsRun(c, s', b) && IsProper(c, s', b) && After(c, s', b) == s'';
    RunsConcat(c, s, a, b);
  }

  /** The steps that are always proper. */
  predicate IsFree(step: Step) {
    !step.ReqLookup? && !step.Boot? && !step.Operator? && !step.Clock?
  }

  lemma Then(c: Config, s: World, s': World, step: Step)
    requires Reaches(c, s, s') && Enabled(c, s', step) && IsFree(step)
    ensures Reaches(c, s, Apply(c, s', step))
  {
    ReachesByStep(c, s', step);
    ReachesTransitive(c, s, s', Apply(c, s', step));
  }

  lemma ReachesItself(c: Config, s: World)
    ensures Reaches(c, s, s)
  {
    assert IsRun(c, s, []) && IsProper(c, s, []) && After(c, s, []) == s;
  }

  // ---------------------------------------------------------------- one worker at work

  /** `s` with the process of `w` replaced, `n` steps later. */
  function At(s: World, w: WorkerId, p: Pipe, n: nat): World {
    s.(workers := s.workers[w := p], tick := s.tick + n)
  }

  lemma LocalMove(c: Config, origin: World, s: World, w: WorkerId, p: Pipe, n: nat, inner: PipeStep)
    requires Pipeline.Enabled(p, inner) && !Pipeline.GivesUp(p, inner)
    requires !inner.CallClaim? && !inner.ClaimOk? && !inner.TakeResult?
    requires inner.GetOk? ==> p.consumer.task.resourceId in s.files && inner.input == s.files[p.consumer.task.resourceId]
    requires inner.Compute? && inner.outcome.Proof? ==> c.computes(p.jobs[inner.index].input, inner.outcome.proof)
    requires Reaches(c, origin, At(s, w, p, n))
    ensures Reaches(c, origin, At(s, w, Pipeline.Apply(p, inner), n + 1))
  {
    var here := At(s, w, p, n);
    hide Pipeline.Apply, Pipeline.Enabled, Pipeline.GivesUp, Reaches;
    assert here.workers[w := Pipeline.Apply(p, inner)] == s.workers[w := Pipeline.Apply(p, inner)];
    assert Apply(c, here, Local(w, inner)) == At(s, w, Pipeline.Apply(p, inner), n + 1);
    Then(c, origin, here, Local(w, inner));
  }

  /** A process with nothing to do and room for a task. */
  predicate Vacant(p: Pipe) {
    && p.max >= 1 && p.backlog == [] && p.fetcher.Head? && p.chan == [] && p.count == 0
    && p.consumer.Idle? && p.jobs == [] && p.results == []
  }

  /** A call that is under way for `w`, `n` steps after `s`. */
  function Calling(s: World, w: WorkerId, p: Pipe, n: nat, k: nat, call: ClaimCall): World {
    At(s, w, p, n).(claims := s.claims[k := call])
  }

  lemma LoadMove(c: Config, s: World, w: WorkerId)
    requires w in s.workers && Vacant(s.workers[w])
    ensures Enabled(c, s, Local(w, Pipeline.Load))
    ensures Apply(c, s, Local(w, Pipeline.Load)) == At(s, w, s.workers[w].(fetcher := Pipeline.Choosing), 1)
  {
  }

  lemma CallMove(c: Config, s: World, w: WorkerId, p: Pipe, n: nat, k: nat)
    requires Pipeline.Enabled(p, Pipeline.CallClaim(k)) && k !in s.claims
    ensures Enabled(c, At(s, w, p, n), ClaimBegin(w, k))
    ensures Apply(c, At(s, w, p, n), ClaimBegin(w, k))
            == Calling(s, w, Pipeline.Apply(p, Pipeline.CallClaim(k)), n + 1, k, ClaimCall(w, p.types, SelectTodo))
  {
  }

  lemma SelectMove(c: Config, s: World, w: WorkerId, p: Pipe, n: nat, k: nat, call: ClaimCall, t: Id)
    requires call.pc.SelectTodo? && IsOldest(s.rows, call.types, t)
    ensures Enabled(c, Calling(s, w, p, n, k, call), ClaimSelect(k, t))
    ensures Apply(c, Calling(s, w, p, n, k, call), ClaimSelect(k, t))
            == Calling(s, w, p, n + 1, k, call.(pc := GuardedUpdate(t)))
  {
    assert s.claims[k := call][k := call.(pc := GuardedUpdate(t))] == s.claims[k := call.(pc := GuardedUpdate(t))];
  }

  lemma WinMove(c: Config, s: World, w: WorkerId, p: Pipe, n: nat, k: nat, call: ClaimCall)
    requires call.pc.GuardedUpdate? && call.worker == w && p.fetcher == Pipeline.Claiming(k) && k !in s.claims
    requires call.pc.tid in s.rows && s.rows[call.pc.tid].state == Init
    ensures Enabled(c, Calling(s, w, p, n, k, call), ClaimUpdate(k, true))
    ensures var row := ClaimedBy(s.rows[call.pc.tid], w, s.now);
            Apply(c, Calling(s, w, p, n, k, call), ClaimUpdate(k, true))
            == At(s.(rows := s.rows[call.pc.tid := row]), w, p.(fetcher := Pipeline.Hand(row)), n + 1)
  {
    var row := ClaimedBy(s.rows[call.pc.tid], w, s.now);
    assert s.claims[k := call] - {k} == s.claims;
    assert s.workers[w := p][w := p.(fetcher := Pipeline.Hand(row))] == s.workers[w := p.(fetcher := Pipeline.Hand(row))];
  }

  /** The world in which a claim call of `w` has selected `t`. */
  function Selected(s: World, w: WorkerId, t: Id, k: nat): World
    requires w in s.workers
  {
    Calling(s, w, s.workers[w].(fetcher := Pipeline.Claiming(k)), 3, k, ClaimCall(w, s.workers[w].types, GuardedUpdate(t)))
  }

  lemma SelectsTask(c: Config, s: World, w: WorkerId, t: Id, k: nat)
    requires w in s.workers && Vacant(s.workers[w]) && k !in s.claims && IsOldest(s.rows, s.workers[w].types, t)
    ensures Reaches(c, s, Selected(s, w, t, k))
  {
    var p := s.workers[w];
    var p1 := p.(fetcher := Pipeline.Choosing);
    var p2 := p.(fetcher := Pipeline.Claiming(k));
    var call := ClaimCall(w, p.types, SelectTodo);
    assert Pipeline.Enabled(p1, Pipeline.CallClaim(k)) && Pipeline.Apply(p1, Pipeline.CallClaim(k)) == p2;
    hide Reaches;
    LoadMove(c, s, w);
    CallMove(c, s, w, p1, 1, k);
    SelectMove(c, s, w, p2, 2, k, call, t);
    hide Enabled, Apply, Calling, At;
    ReachesItself(c, s);
    Then(c, s, s, Local(w, Pipeline.Load));
    Then(c, s, At(s, w, p1, 1), ClaimBegin(w, k));
    Then(c, s, Calling(s, w, p2, 2, k, call), ClaimSelect(k, t));
  }

  /** A claim call from its start to a reply that arrives. */
  lemma WinsClaim(c: Config, s: World, w: WorkerId, t: Id, k: nat)
    requires w in s.workers && Vacant(s.workers[w]) && k !in s.claims && IsOldest(s.rows, s.workers[w].types, t)
    ensures var row := ClaimedBy(s.rows[t], w, s.now);
            Reaches(c, s, At(s.(rows := s.rows[t := row]), w, s.workers[w].(fetcher := Pipeline.Hand(row)), 4))
  {
    var p2 := s.workers[w].(fetcher := Pipeline.Claiming(k));
    hide Reaches;
    SelectsTask(c, s, w, t, k);
    WinMove(c, s, w, p2, 3, k, ClaimCall(w, p2.types, GuardedUpdate(t)));
    hide Enabled, Apply, Calling, At;
    Then(c, s, Selected(s, w, t, k), ClaimUpdate(k, true));
  }

  lemma LocalThen(c: Config, origin: World, s: World, w: WorkerId, p: Pipe, n: nat, inner: PipeStep, p': Pipe)
    requires Pipeline.Enabled(p, inner) && Pipeline.Apply(p, inner) == p'
    requires inner.Send? || inner.Increment? || inner.Receive?
             || (inner.GetOk? && p.consumer.task.resourceId in s.files && inner.input == s.files[p.consumer.task.resourceId])
    requires Reaches(c, origin, At(s, w, p, n))
    ensures Reaches(c, origin, At(s, w, p', n + 1))
  {
    hide Reaches, At, Pipeline.Enabled, Pipeline.Apply;
    LocalMove(c, origin, s, w, p, n, inner);
  }

  /** The claimed task is sent, counted, received, and its input is read. */
  lemma StartsComputing(c: Config, origin: World, s: World, w: WorkerId, v: Pipe, n: nat, task: Task)
    requires Vacant(v) && task.resourceId in s.files
    requires Reaches(c, origin, At(s, w, v.(fetcher := Pipeline.Hand(task)), n))
    ensures Reaches(c, origin, At(s, w, v.(count := 1, jobs := [Pipeline.Computing(task, s.files[task.resourceId])]), n + 4))
  {
    hide Reaches, At;
    var input := s.files[task.resourceId];
    var p1 := v.(fetcher := Pipeline.Sent, chan := [task]);
    var p2 := v.(chan := [task], count := 1);
    var p3 := v.(count := 1, consumer := Pipeline.Preparing(task, 1));
    LocalThen(c, origin, s, w, v.(fetcher := Pipeline.Hand(task)), n, Pipeline.Send, p1);
    LocalThen(c, origin, s, w, p1, n + 1, Pipeline.Increment, p2);
    LocalThen(c, origin, s, w, p2, n + 2, Pipeline.Receive, p3);
    LocalThen(c, origin, s, w, p3, n + 3, Pipeline.GetOk(input), v.(count := 1, jobs := [Pipeline.Computing(task, input)]));
  }

  lemma CallRecord(c: Config, s: World, w: WorkerId, p: Pipe, n: nat, k: nat)
    requires Pipeline.Enabled(p, Pipeline.TakeResult) && p.results[0].Waiting? && k !in s.records
    ensures Enabled(c, At(s, w, p, n), RecordBegin(w, k))
    ensures Apply(c, At(s, w, p, n), RecordBegin(w, k))
            == At(s.(records := s.records[k := NewRecordCall(w, p.results[0].task.id, p.results[0].outcome)]),
                  w, Pipeline.Apply(p, Pipeline.TakeResult), n + 1)
  {
  }

  /** The computation ends, its result crosses the channel, and the record call is made. */
  lemma CallsRecord(c: Config, origin: World, s: World, w: WorkerId, v: Pipe, n: nat, task: Task, input: Bytes,
                    outcome: Outcome, k: nat)
    requires Vacant(v) && k !in s.records && (outcome.Proof? ==> c.computes(input, outcome.proof))
    requires Reaches(c, origin, At(s, w, v.(count := 1, jobs := [Pipeline.Computing(task, input)]), n))
    ensures Reaches(c, origin, At(s.(records := s.records[k := NewRecordCall(w, task.id, outcome)]),
                                  w, v.(count := 1, consumer := Pipeline.Awaiting(task.id)), n + 3))
  {
    hide Reaches, At;
    var done := Pipeline.Waiting(task, outcome);
    var p0 := v.(count := 1, jobs := [Pipeline.Computing(task, input)]);
    var p1 := v.(count := 1, jobs := [done]);
    var p2 := v.(count := 1, results := [done]);
    var p3 := v.(count := 1, consumer := Pipeline.Awaiting(task.id));
    assert Pipeline.Enabled(p0, Pipeline.Compute(0, outcome)) && Pipeline.Apply(p0, Pipeline.Compute(0, outcome)) == p1;
    assert Pipeline.Enabled(p1, Pipeline.Deliver(0)) && Pipeline.Apply(p1, Pipeline.Deliver(0)) == p2;
    assert Pipeline.Enabled(p2, Pipeline.TakeResult) && Pipeline.Apply(p2, Pipeline.TakeResult) == p3;
    hide Vacant, Pipeline.Enabled, Pipeline.Apply;
    LocalMove(c, origin, s, w, p0, n, Pipeline.Compute(0, outcome));
    LocalMove(c, origin, s, w, p1, n + 1, Pipeline.Deliver(0));
    CallRecord(c, s, w, p2, n + 2, k);
    hide Enabled, Apply;
    Then(c, origin, At(s, w, p2, n + 2), RecordBegin(w, k));
  }

  /** `s` with a record call under way, `n` steps later. */
  function Recording(s: World, k: nat, call: RecordCall, n: nat): World {
    s.(records := s.records[k := call], tick := s.tick + n)
  }

  lemma ReadMove(c: Config, s: World, k: nat, call: RecordCall, n: nat)
    requires call.tid in s.rows && call.pc.ReadRow?
    ensures Enabled(c, Recording(s, k, call, n), RecordNext(k))
    ensures Apply(c, Recording(s, k, call, n), RecordNext(k))
            == Recording(s, k, call.(pc := WriteProof(call.pc.proof, s.rows[call.tid].resourceId)), n + 1)
  {
  }

  lemma WriteMove(c: Config, s: World, k: nat, call: RecordCall, n: nat)
    requires call.pc.WriteProof?
    ensures Enabled(c, Recording(s, k, call, n), RecordNext(k))
    ensures Apply(c, Recording(s, k, call, n), RecordNext(k))
            == Recording(s.(rows := CompleteRow(s.rows, call.tid, call.worker, call.pc.proof, s.now)),
                         k, call.(pc := DeleteResource(call.pc.rid)), n + 1)
  {
  }

  lemma DeleteMove(c: Config, s: World, k: nat, call: RecordCall, n: nat)
    requires k !in s.records && call.pc.DeleteResource?
    ensures Enabled(c, Recording(s, k, call, n), RecordNext(k))
    ensures Apply(c, Recording(s, k, call, n), RecordNext(k)) == s.(files := s.files - {call.pc.rid}, tick := s.tick + n + 1)
  {
  }

  lemma ErrorMove(c: Config, s: World, k: nat, call: RecordCall)
    requires k !in s.records && call.pc.WriteError?
    ensures Enabled(c, Recording(s, k, call, 0), RecordNext(k))
    ensures Apply(c, Recording(s, k, call, 0), RecordNext(k))
            == s.(rows := FailRow(s.rows, call.tid, call.worker, call.pc.msg), tick := s.tick + 1,
                  errors := s.errors[call.tid := Stamp(s.tick, call.pc.msg)])
  {
  }

  /** A record call of a proof, executed to its end. */
  lemma RecordsProof(c: Config, origin: World, s: World, k: nat, w: WorkerId, t: Id, proof: Bytes)
    requires k !in s.records && t in s.rows
    requires Reaches(c, origin, Recording(s, k, NewRecordCall(w, t, Proof(proof)), 0))
    ensures Reaches(c, origin, s.(rows := CompleteRow(s.rows, t, w, proof, s.now),
                                  files := s.files - {s.rows[t].resourceId}, tick := s.tick + 3))
  {
    var rid := s.rows[t].resourceId;
    var call := NewRecordCall(w, t, Proof(proof));
    var written := s.(rows := CompleteRow(s.rows, t, w, proof, s.now));
    hide Reaches, Enabled, Apply, Recording, CompleteRow;
    ReadMove(c, s, k, call, 0);
    WriteMove(c, s, k, call.(pc := WriteProof(proof, rid)), 1);
    DeleteMove(c, written, k, call.(pc := DeleteResource(rid)), 2);
    Then(c, origin, Recording(s, k, call, 0), RecordNext(k));
    Then(c, origin, Recording(s, k, call.(pc := WriteProof(proof, rid)), 1), RecordNext(k));
    Then(c, origin, Recording(written, k, call.(pc := DeleteResource(rid)), 2), RecordNext(k));
  }

  /** The answer of the record call arrives; the process is vacant again. */
  lemma EndsRecord(c: Config, origin: World, s: World, w: WorkerId, v: Pipe, tid: Id, n: nat)
    requires Vacant(v) && w in s.workers && s.workers[w] == v
    requires Reaches(c, origin, At(s, w, v.(count := 1, consumer := Pipeline.Awaiting(tid)), n))
    ensures Reaches(c, origin, s.(tick := s.tick + n + 1))
  {
    var p := v.(count := 1, consumer := Pipeline.Awaiting(tid));
    assert Pipeline.Enabled(p, Pipeline.RecordDone) && Pipeline.Apply(p, Pipeline.RecordDone) == v;
    assert s.workers[w := v] == s.workers;
    assert At(s, w, v, n + 1) == s.(tick := s.tick + n + 1);
    hide Reaches, At, Vacant, Pipeline.Enabled, Pipeline.Apply;
    LocalMove(c, origin, s, w, p, n, Pipeline.RecordDone);
  }

  /** A worker with nothing to do, a task that is the oldest it may take, and its input. */
  ghost predicate CanServe(s: World, w: WorkerId, t: Id, k: nat) {
    && w in s.workers && Vacant(s.workers[w]) && k !in s.claims && k !in s.records
    && IsOldest(s.rows, s.workers[w].types, t) && s.rows[t].id == t && s.rows[t].resourceId in s.files
  }

  /** The world in which `w` has just made the record call for `t`. */
  function AtRecordCall(s: World, w: WorkerId, t: Id, k: nat, outcome: Outcome): World
    requires w in s.workers && t in s.rows
  {
    At(s.(rows := s.rows[t := ClaimedBy(s.rows[t], w, s.now)], records := s.records[k := NewRecordCall(w, t, outcome)]),
       w, s.workers[w].(count := 1, consumer := Pipeline.Awaiting(t)), 11)
  }

  lemma ReachesRecordCall(c: Config, s: World, w: WorkerId, t: Id, k: nat, outcome: Outcome)
    requires CanServe(s, w, t, k) && (outcome.Proof? ==> c.computes(s.files[s.rows[t].resourceId], outcome.proof))
    ensures Reaches(c, s, AtRecordCall(s, w, t, k, outcome))
  {
    var v := s.workers[w];
    var row := ClaimedBy(s.rows[t], w, s.now);
    var claimed := s.(rows := s.rows[t := row]);
    hide Reaches;
    WinsClaim(c, s, w, t, k);
    hide IsOldest, Vacant;
    StartsComputing(c, s, claimed, w, v, 4, row);
    CallsRecord(c, s, claimed, w, v, 8, row, s.files[row.resourceId], outcome, k);
  }

  /** The world after `w` has claimed, computed and recorded `t`. */
  function Served(s: World, w: WorkerId, t: Id, proof: Bytes): World
    requires t in s.rows
  {
    s.(rows := CompleteRow(s.rows[t := ClaimedBy(s.rows[t], w, s.now)], t, w, proof, s.now),
       files := s.files - {s.rows[t].resourceId}, tick := s.tick + 15)
  }

  /** `s` with the process of `w` waiting for the answer of a record call of `t`. */
  function AwaitingRecord(s: World, w: WorkerId, t: Id, n: nat): World
    requires w in s.workers
  {
    At(s, w, s.workers[w].(count := 1, consumer := Pipeline.Awaiting(t)), n)
  }

  function Claimed(s: World, w: WorkerId, t: Id): World
    requires t in s.rows
  {
    s.(rows := s.rows[t := ClaimedBy(s.rows[t], w, s.now)])
  }

  lemma AtRecordCallIsRecording(s: World, w: WorkerId, t: Id, k: nat, outcome: Outcome)
    requires w in s.workers && t in s.rows
    ensures AtRecordCall(s, w, t, k, outcome)
            == Recording(AwaitingRecord(Claimed(s, w, t), w, t, 11), k, NewRecordCall(w, t, outcome), 0)
  {
  }

  /** A waiting task can be completed, and the worker is then as free as before. */
  lemma TaskCanBeCompleted(c: Config, s: World, w: WorkerId, t: Id, k: nat, proof: Bytes)
    requires CanServe(s, w, t, k) && c.computes(s.files[s.rows[t].resourceId], proof)
    ensures Reaches(c, s, Served(s, w, t, proof))
  {
    var before := AwaitingRecord(Claimed(s, w, t), w, t, 11);
    var after := s.(rows := CompleteRow(s.rows[t := ClaimedBy(s.rows[t], w, s.now)], t, w, proof, s.now),
                    files := s.files - {s.rows[t].resourceId});
    hide Reaches, CompleteRow, IsOldest;
    ReachesRecordCall(c, s, w, t, k, Proof(proof));
    AtRecordCallIsRecording(s, w, t, k, Proof(proof));
    hide AtRecordCall, Recording;
    RecordsProof(c, s, before, k, w, t, proof);
    EndsRecord(c, s, after, w, s.workers[w], t, 14);
  }

  function ServedWithError(s: World, w: WorkerId, t: Id, msg: string): World
    requires t in s.rows
  {
    s.(rows := FailRow(s.rows[t := ClaimedBy(s.rows[t], w, s.now)], t, w, msg), tick := s.tick + 13,
       errors := s.errors[t := Stamp(s.tick + 11, msg)])
  }

  /** A record call of an error, executed. */
  lemma RecordsError(c: Config, origin: World, s: World, k: nat, w: WorkerId, t: Id, msg: string)
    requires k !in s.records
    requires Reaches(c, origin, Recording(s, k, NewRecordCall(w, t, Failure(msg)), 0))
    ensures Reaches(c, origin, s.(rows := FailRow(s.rows, t, w, msg), tick := s.tick + 1,
                                  errors := s.errors[t := Stamp(s.tick, msg)]))
  {
    ErrorMove(c, s, k, NewRecordCall(w, t, Failure(msg)));
    hide Reaches, Enabled, Apply, Recording, FailRow;
    Then(c, origin, Recording(s, k, NewRecordCall(w, t, Failure(msg)), 0), RecordNext(k));
  }

  lemma FailureIsWritten(s: World, w: WorkerId, p: Pipe, t: Id, msg: string)
    ensures var here := At(s, w, p, 11);
            var after := s.(rows := FailRow(s.rows, t, w, msg), errors := s.errors[t := Stamp(s.tick + 11, msg)]);
            && here.records == s.records
            && here.(rows := FailRow(here.rows, t, w, msg), tick := here.tick + 1,
                     errors := here.errors[t := Stamp(here.tick, msg)]) == At(after, w, p, 12)
  {
  }

  /** A worker's error for the task it is about to record, executed and acknowledged. */
  lemma FailureIsServed(c: Config, origin: World, s: World, w: WorkerId, t: Id, k: nat, msg: string)
    requires w in s.workers && Vacant(s.workers[w]) && k !in s.records
    requires Reaches(c, origin, Recording(AwaitingRecord(s, w, t, 11), k, NewRecordCall(w, t, Failure(msg)), 0))
    ensures Reaches(c, origin, s.(rows := FailRow(s.rows, t, w, msg), tick := s.tick + 13,
                                  errors := s.errors[t := Stamp(s.tick + 11, msg)]))
  {
    var after := s.(rows := FailRow(s.rows, t, w, msg), errors := s.errors[t := Stamp(s.tick + 11, msg)]);
    var p := s.workers[w].(count := 1, consumer := Pipeline.Awaiting(t));
    assert AwaitingRecord(s, w, t, 11) == At(s, w, p, 11);
    hide Reaches, FailRow, Recording, AwaitingRecord, At, Vacant;
    FailureIsWritten(s, w, p, t, msg);
    RecordsError(c, origin, At(s, w, p, 11), k, w, t, msg);
    EndsRecord(c, origin, after, w, s.workers[w], t, 12);
  }

  lemma FailsFromClaimed(s: World, w: WorkerId, t: Id, msg: string)
    requires t in s.rows
    ensures var claimed := Claimed(s, w, t);
            && claimed.workers == s.workers && claimed.records == s.records
            && ServedWithError(s, w, t, msg)
               == claimed.(rows := FailRow(claimed.rows, t, w, msg), tick := claimed.tick + 13,
                           errors := claimed.errors[t := Stamp(claimed.tick + 11, msg)])
  {
  }

  /** A waiting task can fail. */
  lemma TaskCanFail(c: Config, s: World, w: WorkerId, t: Id, k: nat, msg: string)
    requires CanServe(s, w, t, k)
    ensures Reaches(c, s, ServedWithError(s, w, t, msg))
  {
    assert t in s.rows && w in s.workers;
    hide Reaches, FailRow, IsOldest, Vacant, AtRecordCall, Recording, AwaitingRecord, Claimed, ServedWithError;
    ReachesRecordCall(c, s, w, t, k, Failure(msg));
    AtRecordCallIsRecording(s, w, t, k, Failure(msg));
    FailsFromClaimed(s, w, t, msg);
    FailureIsServed(c, s, Claimed(s, w, t), w, t, k, msg);
  }

  // ---------------------------------------------------------------- one submission

  /** `s` with a submission call under way, `n` steps later. */
  function Submitting(s: World, k: nat, call: AddCall, n: nat): World {
    s.(adds := s.adds[k := call], tick := s.tick + n)
  }

  lemma BeginMove(c: Config, s: World, k: nat, sub: Submission)
    requires k !in s.adds && sub in c.subs
    ensures Enabled(c, s, AddBegin(k, sub, ""))
    ensures Apply(c, s, AddBegin(k, sub, "")) == Submitting(s, k, AddCall(sub, "", CheckResource), 1)
  {
  }

  lemma AddMove(c: Config, s: World, k: nat, call: AddCall, n: nat)
    requires !call.pc.Returned?
    ensures Enabled(c, Submitting(s, k, call, n), AddNext(k))
    ensures Apply(c, Submitting(s, k, call, n), AddNext(k))
            == Submitting(s.(files := AddFiles(c, s, call), rows := AddRows(c, s, call)),
                          k, call.(pc := AddNextPc(c, s, call)), n + 1)
  {
    var next := call.(pc := AddNextPc(c, s, call));
    assert s.adds[k := call][k := next] == s.adds[k := next];
  }

  /** The input store once `sub` has been submitted. */
  function FilesWith(c: Config, s: World, sub: Submission): Files {
    if c.rid(sub.bytes) in s.files then s.files else s.files[c.rid(sub.bytes) := sub.bytes]
  }

  /** The world in which a submission has found its task missing and has read the clock for its row. */
  function Stamped(c: Config, s: World, k: nat, sub: Submission): World {
    Submitting(s.(files := FilesWith(c, s, sub)), k, AddCall(sub, "", InsertTask(s.now)),
               if c.rid(sub.bytes) in s.files then 4 else 5)
  }

  /** The world after a submission of a task that is not in the table yet. */
  function Submitted(c: Config, s: World, k: nat, sub: Submission): World {
    var call := AddCall(sub, "", Returned(Some(c.tid(sub))));
    Submitting(s.(rows := s.rows[c.tid(sub) := SubmittedRow(c, call, s.now)], files := FilesWith(c, s, sub)),
               k, call, if c.rid(sub.bytes) in s.files then 5 else 6)
  }

  lemma StampsRow(c: Config, s: World, s1: World, k: nat, sub: Submission, n: nat)
    requires c.tid(sub) !in s1.rows && Reaches(c, s, Submitting(s1, k, AddCall(sub, "", CheckTask), n))
    ensures Reaches(c, s, Submitting(s1, k, AddCall(sub, "", InsertTask(s1.now)), n + 2))
  {
    var call := AddCall(sub, "", CheckTask);
    hide Reaches;
    AddMove(c, s1, k, call, n);
    AddMove(c, s1, k, call.(pc := StampTask), n + 1);
    hide Enabled, Apply, Submitting;
    Then(c, s, Submitting(s1, k, call, n), AddNext(k));
    Then(c, s, Submitting(s1, k, call.(pc := StampTask), n + 1), AddNext(k));
  }

  /** A submission call of a missing task gets as far as its insert. */
  lemma CallStamps(c: Config, origin: World, s: World, k: nat, sub: Submission, n: nat)
    requires c.tid(sub) !in s.rows && Reaches(c, origin, Submitting(s, k, AddCall(sub, "", CheckResource), n))
    ensures Reaches(c, origin, Submitting(s.(files := FilesWith(c, s, sub)), k, AddCall(sub, "", InsertTask(s.now)),
                                          n + if c.rid(sub.bytes) in s.files then 3 else 4))
  {
    var call := AddCall(sub, "", CheckResource);
    var stored := s.(files := s.files[c.rid(sub.bytes) := sub.bytes]);
    hide Reaches;
    AddMove(c, s, k, call, n);
    AddMove(c, s, k, call.(pc := StoreResource), n + 1);
    hide Enabled, Apply, Submitting;
    Then(c, origin, Submitting(s, k, call, n), AddNext(k));
    if c.rid(sub.bytes) in s.files {
      StampsRow(c, origin, s, k, sub, n + 1);
    } else {
      Then(c, origin, Submitting(s, k, call.(pc := StoreResource), n + 1), AddNext(k));
      StampsRow(c, origin, stored, k, sub, n + 2);
    }
  }

  /** And to its end. */
  lemma CallInserts(c: Config, origin: World, s: World, k: nat, sub: Submission, n: nat)
    requires c.tid(sub) !in s.rows && Reaches(c, origin, Submitting(s, k, AddCall(sub, "", CheckResource), n))
    ensures var call := AddCall(sub, "", Returned(Some(c.tid(sub))));
            Reaches(c, origin, Submitting(s.(rows := s.rows[c.tid(sub) := SubmittedRow(c, call, s.now)], files := FilesWith(c, s, sub)),
                                          k, call, n + if c.rid(sub.bytes) in s.files then 4 else 5))
  {
    var m := n + if c.rid(sub.bytes) in s.files then 3 else 4;
    var stored := s.(files := FilesWith(c, s, sub));
    hide Reaches;
    CallStamps(c, origin, s, k, sub, n);
    AddMove(c, stored, k, AddCall(sub, "", InsertTask(s.now)), m);
    hide Enabled, Apply, Submitting;
    Then(c, origin, Submitting(stored, k, AddCall(sub, "", InsertTask(s.now)), m), AddNext(k));
  }

  lemma CallBegins(c: Config, s: World, k: nat, sub: Submission)
    requires k !in s.adds && sub in c.subs
    ensures Reaches(c, s, Submitting(s, k, AddCall(sub, "", CheckResource), 1))
  {
    hide Reaches;
    BeginMove(c, s, k, sub);
    hide Enabled, Apply, Submitting;
    ReachesItself(c, s);
    Then(c, s, s, AddBegin(k, sub, ""));
  }

  /** A submission of a missing task gets as far as its insert. */
  lemma TaskCanBeStamped(c: Config, s: World, k: nat, sub: Submission)
    requires k !in s.adds && sub in c.subs && c.tid(sub) !in s.rows
    ensures Reaches(c, s, Stamped(c, s, k, sub))
  {
    CallBegins(c, s, k, sub);
    hide Reaches;
    CallStamps(c, s, s, k, sub, 1);
  }

  /** A submission that runs undisturbed inserts its row and returns its id. */
  lemma TaskCanBeSubmitted(c: Config, s: World, k: nat, sub: Submission)
    requires k !in s.adds && sub in c.subs && c.tid(sub) !in s.rows
    ensures Reaches(c, s, Submitted(c, s, k, sub))
  {
    CallBegins(c, s, k, sub);
    hide Reaches;
    CallInserts(c, s, s, k, sub, 1);
  }

  // ---------------------------------------------------------------- one request

  /** `s` with the request `r`, `n` steps later. */
  function Requesting(s: World, r: nat, req: Request, n: nat): World {
    s.(reqs := s.reqs[r := req], tick := s.tick + n)
  }

  lemma RequestMove(c: Config, s: World, r: nat, sub: Submission)
    requires r !in s.reqs && sub in c.subs
    ensures Enabled(c, s, ReqBegin(r, sub))
    ensures Apply(c, s, ReqBegin(r, sub)) == Requesting(s, r, Request(sub, s.tick, Looking), 1)
  {
  }

  lemma LookupMove(c: Config, s: World, r: nat, sub: Submission, k: nat)
    requires k !in s.adds && c.tid(sub) in s.rows
    ensures Enabled(c, Requesting(s, r, Request(sub, s.tick, Looking), 1), ReqLookup(r, k, ""))
    ensures Apply(c, Requesting(s, r, Request(sub, s.tick, Looking), 1), ReqLookup(r, k, ""))
            == Requesting(s, r, Request(sub, s.tick + 1, LookupPc(s.rows, c.tid(sub), k)), 2)
  {
  }

  /** The world after a request has looked up a task that is in the table. */
  function LookedUp(c: Config, s: World, r: nat, sub: Submission): World {
    Requesting(s, r, Request(sub, s.tick + 1, LookupPc(s.rows, c.tid(sub), 0)), 2)
  }

  lemma LookupPcIgnoresCall(rows: Rows, t: Id, j: nat, k: nat)
    requires t in rows
    ensures LookupPc(rows, t, j) == LookupPc(rows, t, k)
  {
  }

  /** The world in which a request has begun. */
  function HasBegun(s: World, r: nat, sub: Submission): World {
    Requesting(s, r, Request(sub, s.tick, Looking), 1)
  }

  /** No reset of the task is pending. */
  ghost predicate NoResetPending(c: Config, s: World, t: Id) {
    forall q :: q in s.reqs && Resets(s.reqs[q]) ==> c.tid(s.reqs[q].sub) != t
  }

  lemma LookupIsDisciplined(c: Config, s: World, r: nat, sub: Submission, k: nat)
    requires r !in s.reqs && NoResetPending(c, s, c.tid(sub))
    ensures Disciplined(c, HasBegun(s, r, sub), ReqLookup(r, k, ""))
  {
  }

  /** A request can begin and look its task up, whoever else traces it. */
  lemma TaskCanBeLookedUp(c: Config, s: World, r: nat, sub: Submission, k: nat)
    requires r !in s.reqs && sub in c.subs && k !in s.adds && c.tid(sub) in s.rows && NoResetPending(c, s, c.tid(sub))
    ensures Reaches(c, s, LookedUp(c, s, r, sub))
  {
    hide Reaches;
    RequestMove(c, s, r, sub);
    LookupMove(c, s, r, sub, k);
    LookupPcIgnoresCall(s.rows, c.tid(sub), 0, k);
    LookupIsDisciplined(c, s, r, sub, k);
    hide Enabled, Apply, Disciplined, NoResetPending, Requesting, LookupPc;
    ReachesItself(c, s);
    Then(c, s, s, ReqBegin(r, sub));
    ReachesByStep(c, HasBegun(s, r, sub), ReqLookup(r, k, ""));
    ReachesTransitive(c, s, HasBegun(s, r, sub), LookedUp(c, s, r, sub));
  }

  /** The world after a poll that has found its task completed. */
  function Answered(s: World, r: nat, proof: Bytes): World
    requires r in s.reqs
  {
    s.(reqs := s.reqs[r := s.reqs[r].(pc := Finished(GotProof(proof)))], tick := s.tick + 1)
  }

  lemma PollMove(c: Config, s: World, r: nat, proof: Bytes)
    requires r in s.reqs && s.reqs[r].pc.Polling?
    requires var t := c.tid(s.reqs[r].sub); t in s.rows && s.rows[t].state == Completed && s.rows[t].proof == proof
    ensures Enabled(c, s, ReqPoll(r)) && Apply(c, s, ReqPoll(r)) == Answered(s, r, proof)
  {
  }

  // ---------------------------------------------------------------- one request for a new task

  /** A request that has found its task missing and is waiting for the submission call `k`. */
  function Awaiting(s: World, r: nat, sub: Submission, k: nat): World {
    s.(reqs := s.reqs[r := Request(sub, s.tick + 1, Adding(k))])
  }

  lemma MissingMove(c: Config, s: World, r: nat, sub: Submission, k: nat)
    requires r !in s.reqs && k !in s.adds && c.tid(sub) !in s.rows
    ensures Enabled(c, HasBegun(s, r, sub), ReqLookup(r, k, ""))
    ensures Apply(c, HasBegun(s, r, sub), ReqLookup(r, k, ""))
            == Submitting(Awaiting(s, r, sub, k), k, AddCall(sub, "", CheckResource), 2)
  {
    var waiting := Request(sub, s.tick + 1, Adding(k));
    assert s.reqs[r := Request(sub, s.tick, Looking)][r := waiting] == s.reqs[r := waiting];
  }

  /** A request for a task that is missing begins, and calls for its submission. */
  lemma MissingIsSubmitted(c: Config, s: World, r: nat, sub: Submission, k: nat)
    requires r !in s.reqs && sub in c.subs && k !in s.adds && c.tid(sub) !in s.rows && NoResetPending(c, s, c.tid(sub))
    ensures Reaches(c, s, Submitting(Awaiting(s, r, sub, k), k, AddCall(sub, "", CheckResource), 2))
  {
    hide Reaches;
    RequestMove(c, s, r, sub);
    MissingMove(c, s, r, sub, k);
    LookupIsDisciplined(c, s, r, sub, k);
    hide Enabled, Apply, Disciplined, NoResetPending, Requesting, Submitting, Awaiting;
    ReachesItself(c, s);
    Then(c, s, s, ReqBegin(r, sub));
    ReachesByStep(c, HasBegun(s, r, sub), ReqLookup(r, k, ""));
    ReachesTransitive(c, s, HasBegun(s, r, sub), Submitting(Awaiting(s, r, sub, k), k, AddCall(sub, "", CheckResource), 2));
  }

  /** The world in which a request polls for the task it has submitted itself. */
  function Requested(c: Config, s: World, r: nat, sub: Submission, k: nat): World {
    var call := AddCall(sub, "", Returned(Some(c.tid(sub))));
    Submitting(s.(rows := s.rows[c.tid(sub) := SubmittedRow(c, call, s.now)], files := FilesWith(c, s, sub),
                  reqs := s.reqs[r := Request(sub, s.tick + 1, Polling)]),
               k, call, if c.rid(sub.bytes) in s.files then 7 else 8)
  }

  lemma AddedMove(c: Config, s: World, r: nat, sub: Submission, k: nat, n: nat)
    requires r in s.reqs && s.reqs[r].sub == sub && s.reqs[r].pc == Adding(k)
    ensures var here := Submitting(s, k, AddCall(sub, "", Returned(Some(c.tid(sub)))), n);
            && Enabled(c, here, ReqAdded(r))
            && Apply(c, here, ReqAdded(r))
               == Submitting(s.(reqs := s.reqs[r := s.reqs[r].(pc := Polling)]), k,
                             AddCall(sub, "", Returned(Some(c.tid(sub)))), n + 1)
  {
  }

  /** A request for a task that is missing submits it and traces it. */
  lemma TaskCanBeRequested(c: Config, s: World, r: nat, sub: Submission, k: nat)
    requires r !in s.reqs && sub in c.subs && k !in s.adds && c.tid(sub) !in s.rows && NoResetPending(c, s, c.tid(sub))
    ensures Reaches(c, s, Requested(c, s, r, sub, k))
  {
    var call := AddCall(sub, "", Returned(Some(c.tid(sub))));
    var waiting := Awaiting(s, r, sub, k);
    var done := waiting.(rows := s.rows[c.tid(sub) := SubmittedRow(c, call, s.now)], files := FilesWith(c, waiting, sub));
    var n := if c.rid(sub.bytes) in s.files then 6 else 7;
    hide Reaches;
    MissingIsSubmitted(c, s, r, sub, k);
    CallInserts(c, s, waiting, k, sub, 2);
    AddedMove(c, done, r, sub, k, n);
    assert s.reqs[r := Request(sub, s.tick + 1, Adding(k))][r := Request(sub, s.tick + 1, Polling)]
           == s.reqs[r := Request(sub, s.tick + 1, Polling)];
    hide Enabled, Apply;
    Then(c, s, Submitting(done, k, call, n), ReqAdded(r));
  }
}
