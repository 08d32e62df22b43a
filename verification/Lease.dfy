/** The lease: a running task is in the hands of one place only, and a finished task stays as it is. */
module Lease {
  import opened Entities
  import opened TaskTable
  import opened Protocol
  import Pipeline

  // ---------------------------------------------------------------- the places of a task

  function HeldBy(workers: map<WorkerId, Pipe>, w: WorkerId, t: Id): nat {
    if w in workers then Pipeline.Held(workers[w], t) else 0
  }

  predicate PendingCall(records: map<nat, RecordCall>, k: nat, t: Id) {
    k in records && Pending(records[k]) && records[k].tid == t
  }

  ghost predicate PendingFor(records: map<nat, RecordCall>, t: Id) {
    exists k :: PendingCall(records, k, t)
  }

  predicate IsRunning(rows: Rows, t: Id) {
    t in rows && rows[t].state == Running
  }

  ghost predicate HolderRight(rows: Rows, records: map<nat, RecordCall>, lost: set<Id>, w: WorkerId, t: Id) {
    RunningBy(rows, t, w) && t !in lost && !PendingFor(records, t)
  }

  /** The places of one task: whoever holds it holds one copy, as the worker the table names; a
      pending record call is the only one and its worker's; a lost task is with nobody; and a
      running task is in one of these places. */
  ghost predicate LeaseAt(rows: Rows, workers: map<WorkerId, Pipe>, records: map<nat, RecordCall>, lost: set<Id>, t: Id) {
    && (forall w :: HeldBy(workers, w, t) > 0 ==> HeldBy(workers, w, t) == 1 && HolderRight(rows, records, lost, w, t))
    && (forall k :: PendingCall(records, k, t) ==> RunningBy(rows, t, records[k].worker) && t !in lost)
    && (forall j, k :: PendingCall(records, j, t) && PendingCall(records, k, t) ==> j == k)
    && (t in lost ==> IsRunning(rows, t))
    && (IsRunning(rows, t) ==> t in lost || PendingFor(records, t) || HeldBy(workers, rows[t].workerId, t) > 0)
  }

  ghost predicate LeaseHolds(s: World) {
    forall t :: LeaseAt(s.rows, s.workers, s.records, s.lost, t)
  }

  predicate HasFailed(rows: Rows, t: Id) {
    t in rows && rows[t].state == TaskState.Error
  }

  ghost predicate Leased(s: World) {
    KeyedById(s.rows) && LeaseHolds(s)
  }

  // ---------------------------------------------------------------- what leaves a task alone

  /** Nothing about the places of `t` has changed. */
  ghost predicate SamePlaces(s: World, s': World, t: Id) {
    && (IsRunning(s.rows, t) <==> IsRunning(s'.rows, t))
    && (IsRunning(s.rows, t) ==> s.rows[t].workerId == s'.rows[t].workerId)
    && (forall w :: HeldBy(s'.workers, w, t) == HeldBy(s.workers, w, t))
    && SamePending(s.records, s'.records, t)
    && (t in s.lost <==> t in s'.lost)
  }

  ghost predicate SamePending(records: map<nat, RecordCall>, records': map<nat, RecordCall>, t: Id) {
    forall k :: (PendingCall(records, k, t) <==> PendingCall(records', k, t))
                && (PendingCall(records, k, t) ==> records[k].worker == records'[k].worker)
  }

  lemma PlacesKept(s: World, s': World, t: Id)
    requires LeaseAt(s.rows, s.workers, s.records, s.lost, t) && SamePlaces(s, s', t)
    ensures LeaseAt(s'.rows, s'.workers, s'.records, s'.lost, t)
  {
  }

  ghost predicate HolderChanged(s: World, s': World, w: WorkerId, t: Id) {
    forall v :: v != w ==> HeldBy(s'.workers, v, t) == HeldBy(s.workers, v, t)
  }

  /** A task nobody had is now running in the hands of `w`. */
  lemma Granted(s: World, s': World, w: WorkerId, t: Id)
    requires LeaseAt(s.rows, s.workers, s.records, s.lost, t)
    requires !IsRunning(s.rows, t) && RunningBy(s'.rows, t, w)
    requires HeldBy(s'.workers, w, t) == HeldBy(s.workers, w, t) + 1 && HolderChanged(s, s', w, t)
    requires s'.records == s.records && s'.lost == s.lost
    ensures LeaseAt(s'.rows, s'.workers, s'.records, s'.lost, t)
  {
  }

  /** The holder of a task has made the record call for it. */
  lemma HandedOver(s: World, s': World, w: WorkerId, k: nat, t: Id)
    requires LeaseAt(s.rows, s.workers, s.records, s.lost, t)
    requires s'.rows == s.rows && s'.lost == s.lost && HolderChanged(s, s', w, t)
    requires HeldBy(s.workers, w, t) == HeldBy(s'.workers, w, t) + 1
    requires PendingCall(s'.records, k, t) && s'.records[k].worker == w
    requires forall j :: j != k && PendingCall(s'.records, j, t) ==> PendingCall(s.records, j, t)
    ensures LeaseAt(s'.rows, s'.workers, s'.records, s'.lost, t)
  {
  }

  // ---------------------------------------------------------------- the steps that move a task

  /** The process `w` has made a step of its own; the others have made none. */
  lemma HoldersAfter(s: World, s': World, w: WorkerId, inner: PipeStep, t: Id)
    requires w in s.workers && Pipeline.Enabled(s.workers[w], inner)
    requires s'.workers == s.workers[w := Pipeline.Apply(s.workers[w], inner)]
    ensures HolderChanged(s, s', w, t)
    ensures HeldBy(s.workers, w, t) + Pipeline.Gained(inner, t)
            == HeldBy(s'.workers, w, t) + Pipeline.Dropped(s.workers[w], inner, t) + Pipeline.Submitted(s.workers[w], inner, t)
  {
    Pipeline.StepConserves(s.workers[w], inner, t);
  }

  lemma LocalLease(c: Config, s: World, w: WorkerId, inner: PipeStep, t: Id)
    requires LeaseHolds(s) && LocalEnabled(c, s, w, inner)
    ensures var s' := LocalEffect(s, w, inner); LeaseAt(s'.rows, s'.workers, s'.records, s'.lost, t)
  {
    var s' := LocalEffect(s, w, inner);
    assert LeaseAt(s.rows, s.workers, s.records, s.lost, t);
    hide LeaseHolds, HeldBy, Pipeline.Apply;
    HoldersAfter(s, s', w, inner, t);
    if Pipeline.Dropped(s.workers[w], inner, t) == 0 {
      hide LeaseAt;
      PlacesKept(s, s', t);
    }
  }

  /** A claim that wins and whose reply arrives. */
  lemma DeliveredLease(s: World, k: nat, t: Id)
    requires LeaseAt(s.rows, s.workers, s.records, s.lost, t)
    requires k in s.claims && s.claims[k].pc.GuardedUpdate? && Wins(s, k) && WonRow(s, k).id == s.claims[k].pc.tid
    requires s.claims[k].worker in s.workers && s.workers[s.claims[k].worker].fetcher == Pipeline.Claiming(k)
    ensures var s' := ClaimEffect(s, k, true); LeaseAt(s'.rows, s'.workers, s'.records, s'.lost, t)
  {
    var s' := ClaimEffect(s, k, true);
    var w := s.claims[k].worker;
    hide HeldBy, LeaseAt, Pipeline.Apply;
    HoldersAfter(s, s', w, Pipeline.ClaimOk(WonRow(s, k)), t);
    if t == s.claims[k].pc.tid {
      Granted(s, s', w, t);
    } else {
      PlacesKept(s, s', t);
    }
  }

  lemma ClaimLease(c: Config, s: World, k: nat, delivered: bool, t: Id)
    requires KeyedById(s.rows) && LeaseHolds(s) && Enabled(c, s, ClaimUpdate(k, delivered))
    ensures var s' := ClaimEffect(s, k, delivered); LeaseAt(s'.rows, s'.workers, s'.records, s'.lost, t)
  {
    var s' := ClaimEffect(s, k, delivered);
    assert LeaseAt(s.rows, s.workers, s.records, s.lost, t);
    hide LeaseHolds, HeldBy, Pipeline.Apply;
    if Wins(s, k) && delivered {
      DeliveredLease(s, k, t);
    } else if !Wins(s, k) || t != s.claims[k].pc.tid {
      hide LeaseAt;
      PlacesKept(s, s', t);
    }
  }

  lemma RecordLease(s: World, k: nat, t: Id)
    requires LeaseHolds(s) && k in s.records
    ensures var s' := RecordEffect(s, k); LeaseAt(s'.rows, s'.workers, s'.records, s'.lost, t)
  {
    var s' := RecordEffect(s, k);
    assert LeaseAt(s.rows, s.workers, s.records, s.lost, t);
    hide LeaseHolds, Pipeline.Held;
    if PendingCall(s.records, k, t) && !s.records[k].pc.ReadRow? {
      forall j ensures !PendingCall(s'.records, j, t) {
        assert PendingCall(s'.records, j, t) ==> PendingCall(s.records, j, t) && j != k;
      }
      assert forall w :: HeldBy(s.workers, w, t) == HeldBy(s'.workers, w, t);
    } else {
      assert SamePending(s.records, s'.records, t);
      PlacesKept(s, s', t);
    }
  }

  lemma ClaimBeginLease(c: Config, s: World, w: WorkerId, k: nat, t: Id)
    requires LeaseHolds(s) && Enabled(c, s, ClaimBegin(w, k))
    ensures var s' := Effect(c, s, ClaimBegin(w, k)); LeaseAt(s'.rows, s'.workers, s'.records, s'.lost, t)
  {
    var s' := Effect(c, s, ClaimBegin(w, k));
    assert LeaseAt(s.rows, s.workers, s.records, s.lost, t);
    hide LeaseHolds, LeaseAt, HeldBy, Pipeline.Apply;
    HoldersAfter(s, s', w, Pipeline.CallClaim(k), t);
    PlacesKept(s, s', t);
  }

  lemma RecordFailLease(s: World, k: nat, t: Id)
    requires LeaseHolds(s) && k in s.records
    ensures var s' := RecordFailEffect(s, k); LeaseAt(s'.rows, s'.workers, s'.records, s'.lost, t)
  {
    var s' := RecordFailEffect(s, k);
    assert LeaseAt(s.rows, s.workers, s.records, s.lost, t);
    hide LeaseHolds, Pipeline.Held;
    if PendingCall(s.records, k, t) {
      assert PendingFor(s.records, t);
      assert forall j :: !PendingCall(s'.records, j, t);
    } else {
      assert SamePending(s.records, s'.records, t);
      PlacesKept(s, s', t);
    }
  }

  lemma RecordBeginLease(c: Config, s: World, w: WorkerId, k: nat, t: Id)
    requires LeaseHolds(s) && w in s.workers && k !in s.records
    requires Pipeline.Enabled(s.workers[w], Pipeline.TakeResult) && s.workers[w].results[0].Waiting?
    ensures var s' := RecordBeginEffect(s, w, k); LeaseAt(s'.rows, s'.workers, s'.records, s'.lost, t)
  {
    var s' := RecordBeginEffect(s, w, k);
    assert LeaseAt(s.rows, s.workers, s.records, s.lost, t);
    hide LeaseHolds, LeaseAt, HeldBy, Pipeline.Apply;
    HoldersAfter(s, s', w, Pipeline.TakeResult, t);
    if s.workers[w].results[0].task.id == t {
      HandedOver(s, s', w, k, t);
    } else {
      assert SamePending(s.records, s'.records, t);
      PlacesKept(s, s', t);
    }
  }

  lemma CrashLease(s: World, w: WorkerId, t: Id)
    requires LeaseHolds(s) && w in s.workers
    ensures var s' := CrashEffect(s, w); LeaseAt(s'.rows, s'.workers, s'.records, s'.lost, t)
  {
    var s' := CrashEffect(s, w);
    assert LeaseAt(s.rows, s.workers, s.records, s.lost, t);
    hide LeaseHolds, Pipeline.Held;
    assert HeldBy(s'.workers, w, t) == 0;
    assert forall v :: v != w ==> HeldBy(s'.workers, v, t) == HeldBy(s.workers, v, t);
    if HeldBy(s.workers, w, t) > 0 {
      assert t in s'.lost;
    } else {
      PlacesKept(s, s', t);
    }
  }

  lemma {:induction false} CountOfDistinct(tasks: seq<Task>, t: Id)
    requires forall i, j :: 0 <= i < j < |tasks| ==> tasks[i].id != tasks[j].id
    ensures Pipeline.TaskCount(tasks, t) == if exists i :: 0 <= i < |tasks| && tasks[i].id == t then 1 else 0
  {
    if tasks != [] {
      CountOfDistinct(tasks[1..], t);
      if i :| 0 <= i < |tasks[1..]| && tasks[1..][i].id == t {
        assert tasks[i + 1].id == t;
      }
      if i :| 0 <= i < |tasks| && tasks[i].id == t {
        if i > 0 {
          assert tasks[1..][i - 1].id == t;
        }
      }
    }
  }

  lemma BootHolds(rows: Rows, w: WorkerId, max: nat, retrySum: nat, types: Option<seq<TaskType>>, backlog: seq<Task>, t: Id)
    requires IsUncompleted(rows, w, backlog)
    ensures Pipeline.Held(Pipeline.Booted(max, retrySum, types, backlog), t) == if RunningBy(rows, t, w) then 1 else 0
  {
    CountOfDistinct(backlog, t);
  }

  lemma BootLease(c: Config, s: World, step: Step, t: Id)
    requires LeaseHolds(s) && Enabled(c, s, step) && step.Boot? && !Breaks(c, s, step)
    ensures var s' := Effect(c, s, step); LeaseAt(s'.rows, s'.workers, s'.records, s'.lost, t)
  {
    var s' := Effect(c, s, step);
    var w := step.worker;
    assert LeaseAt(s.rows, s.workers, s.records, s.lost, t);
    BootHolds(s.rows, w, step.max, step.retrySum, step.types, step.backlog, t);
    hide LeaseHolds, Pipeline.Held, IsUncompleted;
    assert HeldBy(s.workers, w, t) == 0;
    assert forall v :: v != w ==> HeldBy(s'.workers, v, t) == HeldBy(s.workers, v, t);
    if RunningBy(s.rows, t, w) {
      assert t !in s'.lost;
      assert !PendingFor(s.records, t);
    } else {
      PlacesKept(s, s', t);
    }
  }

  /** A submission writes only a row that is not there. */
  lemma SubmittedLease(c: Config, s: World, k: nat, t: Id)
    requires LeaseHolds(s) && k in s.adds
    ensures var s' := AddEffect(c, s, k); LeaseAt(s'.rows, s'.workers, s'.records, s'.lost, t)
  {
    var s' := AddEffect(c, s, k);
    assert LeaseAt(s.rows, s.workers, s.records, s.lost, t);
    hide LeaseHolds, LeaseAt, HeldBy;
    PlacesKept(s, s', t);
  }

  predicate WritesRows(step: Step) {
    step.AddNext? || step.ClaimUpdate? || step.RecordNext?
  }

  predicate MovesTasks(step: Step) {
    step.Local? || step.RecordFail? || step.RecordBegin? || step.Crash? || step.Boot? || step.ClaimBegin?
  }

  predicate SetsStates(step: Step) {
    step.ReqReset? || step.Operator?
  }

  lemma PlacesUntouched(c: Config, s: World, step: Step, t: Id)
    requires Enabled(c, s, step) && !WritesRows(step) && !MovesTasks(step) && !SetsStates(step) && LeaseHolds(s)
    ensures var s' := Effect(c, s, step); LeaseAt(s'.rows, s'.workers, s'.records, s'.lost, t)
  {
  }

  lemma WriterPlaces(c: Config, s: World, step: Step, t: Id)
    requires Leased(s) && Enabled(c, s, step) && WritesRows(step)
    ensures var s' := Effect(c, s, step); LeaseAt(s'.rows, s'.workers, s'.records, s'.lost, t)
  {
    hide LeaseAt, LeaseHolds, KeyedById;
    match step
    case AddNext(k) => SubmittedLease(c, s, k, t);
    case ClaimUpdate(k, delivered) => ClaimLease(c, s, k, delivered, t);
    case RecordNext(k) => RecordLease(s, k, t);
  }

  lemma MoverPlaces(c: Config, s: World, step: Step, t: Id)
    requires LeaseHolds(s) && Enabled(c, s, step) && MovesTasks(step) && !step.Boot?
    ensures var s' := Effect(c, s, step); LeaseAt(s'.rows, s'.workers, s'.records, s'.lost, t)
  {
    hide LeaseAt, LeaseHolds, IsUncompleted, LocalEnabled;
    match step
    case Local(w, inner) => LocalLease(c, s, w, inner, t);
    case ClaimBegin(w, k) => ClaimBeginLease(c, s, w, k, t);
    case RecordFail(k) => RecordFailLease(s, k, t);
    case RecordBegin(w, k) => RecordBeginLease(c, s, w, k, t);
    case Crash(w) => CrashLease(s, w, t);
  }

  /** Whatever is submitted, claimed, computed, recorded, lost or abandoned keeps the lease. */
  lemma OthersKeepLease(c: Config, s: World, step: Step)
    requires Leased(s) && Enabled(c, s, step) && !SetsStates(step) && !step.Boot?
    ensures LeaseHolds(Effect(c, s, step)) && !Breaks(c, s, step)
  {
    var s' := Effect(c, s, step);
    assert LeaseHolds(s);
    hide LeaseAt, LeaseHolds, Leased, Enabled, Effect;
    forall t ensures LeaseAt(s'.rows, s'.workers, s'.records, s'.lost, t) {
      if WritesRows(step) {
        WriterPlaces(c, s, step, t);
      } else if MovesTasks(step) {
        MoverPlaces(c, s, step, t);
      } else {
        PlacesUntouched(c, s, step, t);
      }
    }
    LeaseKept(s');
  }

  // ---------------------------------------------------------------- what breaks a lease

  /** The three ways to break a lease: to reset a running task; to boot a worker while a record call of
      its former life is still to write; and an operator's update that makes a running task anything
      else, or anything else running. */
  ghost predicate Breaks(c: Config, s: World, step: Step) {
    match step
    case ReqReset(r, _) => r in s.reqs && IsRunning(s.rows, c.tid(s.reqs[r].sub))
    case Boot(w, _, _, _, _) => exists k :: k in s.records && Pending(s.records[k]) && s.records[k].worker == w
    case Operator(ids, state) => exists t :: t in ids && t in s.rows && !(IsRunning(s.rows, t) <==> state == Running)
    case _ => false
  }

  /** The condition on boots is exact: a boot keeps the lease if and only if no record call of the
      worker's former life is left. */
  lemma BootKeepsLeaseIff(c: Config, s: World, step: Step)
    requires LeaseHolds(s) && Enabled(c, s, step) && step.Boot?
    ensures LeaseHolds(Effect(c, s, step))
            <==> forall k :: k in s.records && Pending(s.records[k]) ==> s.records[k].worker != step.worker
  {
    var s' := Effect(c, s, step);
    if k :| k in s.records && Pending(s.records[k]) && s.records[k].worker == step.worker {
      var t := s.records[k].tid;
      assert PendingCall(s.records, k, t) && LeaseAt(s.rows, s.workers, s.records, s.lost, t);
      BootHolds(s.rows, step.worker, step.max, step.retrySum, step.types, step.backlog, t);
      hide LeaseHolds, Pipeline.Held, IsUncompleted;
      assert HeldBy(s'.workers, step.worker, t) == 1 && PendingCall(s'.records, k, t);
      assert !LeaseAt(s'.rows, s'.workers, s'.records, s'.lost, t);
      LeaseBroken(s', t);
    } else {
      hide LeaseAt, LeaseHolds;
      forall t ensures LeaseAt(s'.rows, s'.workers, s'.records, s'.lost, t) {
        BootLease(c, s, step, t);
      }
      LeaseKept(s');
    }
  }

  lemma LeaseBroken(s: World, t: Id)
    requires !LeaseAt(s.rows, s.workers, s.records, s.lost, t)
    ensures !LeaseHolds(s)
  {
  }

  lemma LeaseKept(s: World)
    requires forall t :: LeaseAt(s.rows, s.workers, s.records, s.lost, t)
    ensures LeaseHolds(s)
  {
  }

  /** What a stale reset may hit: it keeps the lease if and only if its task is not running. */
  lemma ResetKeepsLeaseIff(c: Config, s: World, r: nat, delivered: bool)
    requires LeaseHolds(s) && r in s.reqs
    ensures LeaseHolds(ResetEffect(c, s, r, delivered)) <==> !IsRunning(s.rows, c.tid(s.reqs[r].sub))
  {
    var s' := ResetEffect(c, s, r, delivered);
    var t := c.tid(s.reqs[r].sub);
    if IsRunning(s.rows, t) {
      assert LeaseAt(s.rows, s.workers, s.records, s.lost, t);
      hide LeaseHolds, HeldBy;
      assert !LeaseAt(s'.rows, s'.workers, s'.records, s'.lost, t) by {
        assert !IsRunning(s'.rows, t);
        if PendingFor(s.records, t) {
          var k :| PendingCall(s.records, k, t);
          assert PendingCall(s'.records, k, t);
        } else if t !in s.lost {
          assert HeldBy(s'.workers, s.rows[t].workerId, t) > 0;
        }
      }
      LeaseBroken(s', t);
    } else {
      forall u ensures LeaseAt(s'.rows, s'.workers, s'.records, s'.lost, u) {
        assert LeaseAt(s.rows, s.workers, s.records, s.lost, u);
        hide LeaseHolds, LeaseAt, HeldBy;
        PlacesKept(s, s', u);
      }
      hide LeaseAt;
      LeaseKept(s');
    }
  }

  /** What an operator may do: setting the state of tasks keeps the lease if and only if it turns none
      of them from running to something else, or from something else to running. */
  lemma OperatorKeepsLeaseIff(s: World, ids: seq<Id>, state: TaskState)
    requires LeaseHolds(s)
    ensures LeaseHolds(s.(rows := SetState(s.rows, ids, state)))
            <==> forall t :: t in ids && t in s.rows ==> (IsRunning(s.rows, t) <==> state == Running)
  {
    var s' := s.(rows := SetState(s.rows, ids, state));
    if t :| t in ids && t in s.rows && !(IsRunning(s.rows, t) <==> state == Running) {
      assert LeaseAt(s.rows, s.workers, s.records, s.lost, t);
      hide LeaseHolds, HeldBy;
      assert IsRunning(s'.rows, t) <==> !IsRunning(s.rows, t);
      LeaseNeedsSameRunning(s, s', t);
      LeaseBroken(s', t);
    } else {
      forall u ensures LeaseAt(s'.rows, s'.workers, s'.records, s'.lost, u) {
        assert LeaseAt(s.rows, s.workers, s.records, s.lost, u);
        hide LeaseHolds, LeaseAt, HeldBy;
        PlacesKept(s, s', u);
      }
      hide LeaseAt;
      LeaseKept(s');
    }
  }

  /** The places of a task tell whether it is running. */
  lemma LeaseNeedsSameRunning(s: World, s': World, t: Id)
    requires LeaseAt(s.rows, s.workers, s.records, s.lost, t)
    requires s'.workers == s.workers && s'.records == s.records && s'.lost == s.lost
    requires IsRunning(s'.rows, t) <==> !IsRunning(s.rows, t)
    ensures !LeaseAt(s'.rows, s'.workers, s'.records, s'.lost, t)
  {
    hide HeldBy;
    if PendingFor(s.records, t) {
      var k :| PendingCall(s.records, k, t);
    }
  }

  lemma KeysStay(c: Config, s: World, step: Step)
    requires KeyedById(s.rows) && Enabled(c, s, step)
    ensures KeyedById(Apply(c, s, step).rows)
  {
    RowsAreWritten(c, s, step);
    hide Apply, IsUncompleted, IsOldest, LocalEnabled;
  }

  lemma TickKeepsLease(s: World, tick: nat)
    ensures LeaseHolds(s.(tick := tick)) <==> LeaseHolds(s)
  {
    hide LeaseAt;
  }

  lemma SetterKeepsLeaseIff(c: Config, s: World, step: Step)
    requires LeaseHolds(s) && Enabled(c, s, step) && (SetsStates(step) || step.Boot?)
    ensures LeaseHolds(Effect(c, s, step)) <==> !Breaks(c, s, step)
  {
    hide LeaseHolds, IsUncompleted;
    match step
    case ReqReset(r, delivered) => ResetKeepsLeaseIff(c, s, r, delivered);
    case Operator(ids, state) => OperatorKeepsLeaseIff(s, ids, state);
    case Boot(_, _, _, _, _) => BootKeepsLeaseIff(c, s, step);
  }

  /** Every single step, of whatever kind, keeps the lease if and only if it is none of the three. */
  lemma StepKeepsLeaseIff(c: Config, s: World, step: Step)
    requires Leased(s) && Enabled(c, s, step)
    ensures KeyedById(Apply(c, s, step).rows)
    ensures LeaseHolds(Apply(c, s, step)) <==> !Breaks(c, s, step)
  {
    hide LeaseHolds, KeyedById, Breaks, Enabled, Effect;
    KeysStay(c, s, step);
    TickKeepsLease(Effect(c, s, step), s.tick + 1);
    if SetsStates(step) || step.Boot? {
      SetterKeepsLeaseIff(c, s, step);
    } else {
      OthersKeepLease(c, s, step);
    }
  }

  // ---------------------------------------------------------------- every run

  ghost predicate NeverBreaks(c: Config, s: World, steps: seq<Step>)
    requires IsRun(c, s, steps)
    decreases |steps|
  {
    steps == [] || (!Breaks(c, s, steps[0]) && NeverBreaks(c, Apply(c, s, steps[0]), steps[1..]))
  }

  /** The lease holds at every moment of the run. */
  ghost predicate AlwaysLeased(c: Config, s: World, steps: seq<Step>)
    requires IsRun(c, s, steps)
    decreases |steps|
  {
    LeaseHolds(s) && (steps == [] || AlwaysLeased(c, Apply(c, s, steps[0]), steps[1..]))
  }

  /** Over every run the lease holds at every moment if and only if no step breaks it. */
  lemma {:induction false} AlwaysLeasedIff(c: Config, s: World, steps: seq<Step>)
    requires Leased(s) && IsRun(c, s, steps)
    ensures AlwaysLeased(c, s, steps) <==> NeverBreaks(c, s, steps)
    ensures NeverBreaks(c, s, steps) ==> Leased(After(c, s, steps))
    decreases |steps|
  {
    hide LeaseHolds, KeyedById, Breaks, Enabled, Apply;
    if steps != [] {
      var next := Apply(c, s, steps[0]);
      StepKeepsLeaseIff(c, s, steps[0]);
      if LeaseHolds(next) {
        AlwaysLeasedIff(c, next, steps[1..]);
      } else {
        assert !AlwaysLeased(c, next, steps[1..]);
      }
    }
  }

  /** Exclusive lease, over every run that breaks no lease: a task is held in at most one copy by at most
      one worker, the table says that this worker runs it, and nobody else is about to record it. */
  lemma ExclusiveLease(c: Config, now: int, steps: seq<Step>, w: WorkerId, t: Id)
    requires IsRun(c, Start(now), steps) && NeverBreaks(c, Start(now), steps)
    requires HeldBy(After(c, Start(now), steps).workers, w, t) > 0
    ensures var s := After(c, Start(now), steps);
            && HeldBy(s.workers, w, t) == 1
            && t in s.rows && s.rows[t].state == Running && s.rows[t].workerId == w
            && !PendingFor(s.records, t)
            && (forall v :: HeldBy(s.workers, v, t) > 0 ==> v == w)
  {
    AlwaysLeasedIff(c, Start(now), steps);
    var s := After(c, Start(now), steps);
    assert LeaseAt(s.rows, s.workers, s.records, s.lost, t);
  }

  // ---------------------------------------------------------------- completed tasks

  /** The two kinds of steps that can write a completed row. */
  predicate Revives(c: Config, s: World, step: Step, t: Id) {
    || (step.ReqReset? && step.req in s.reqs && c.tid(s.reqs[step.req].sub) == t)
    || (step.Operator? && t in step.ids && step.state != Completed)
  }

  lemma RecordLeavesRow(s: World, k: nat, t: Id)
    requires k in s.records && t in s.rows && !PendingCall(s.records, k, t)
    ensures t in RecordRows(s, s.records[k]) && RecordRows(s, s.records[k])[t] == s.rows[t]
  {
  }

  /** Where the lease holds, nobody is about to record a completed task, so a step leaves its row as it is
      if and only if it is no reset of it and no operator's update of it. */
  lemma StepKeepsCompletedIff(c: Config, s: World, step: Step, t: Id)
    requires LeaseHolds(s) && Enabled(c, s, step) && t in s.rows && s.rows[t].state == Completed
    ensures t in Apply(c, s, step).rows
    ensures Apply(c, s, step).rows[t] == s.rows[t] <==> !Revives(c, s, step, t)
  {
    assert LeaseAt(s.rows, s.workers, s.records, s.lost, t);
    RowsAreWritten(c, s, step);
    if step.RecordNext? {
      RecordLeavesRow(s, step.call, t);
    }
    hide Apply, LeaseHolds, LeaseAt, RecordRows, IsUncompleted, IsOldest, LocalEnabled;
  }

  ghost predicate NeverRevived(c: Config, s: World, steps: seq<Step>, t: Id)
    requires IsRun(c, s, steps)
    decreases |steps|
  {
    steps == [] || (!Revives(c, s, steps[0], t) && NeverRevived(c, Apply(c, s, steps[0]), steps[1..], t))
  }

  /** The row is the same at every moment of the run. */
  ghost predicate AlwaysSame(c: Config, s: World, steps: seq<Step>, t: Id, row: Task)
    requires IsRun(c, s, steps)
    decreases |steps|
  {
    t in s.rows && s.rows[t] == row && (steps == [] || AlwaysSame(c, Apply(c, s, steps[0]), steps[1..], t, row))
  }

  lemma {:induction false} AlwaysSameIff(c: Config, s: World, steps: seq<Step>, t: Id)
    requires Leased(s) && IsRun(c, s, steps) && NeverBreaks(c, s, steps)
    requires t in s.rows && s.rows[t].state == Completed
    ensures AlwaysSame(c, s, steps, t, s.rows[t]) <==> NeverRevived(c, s, steps, t)
    ensures NeverRevived(c, s, steps, t) ==> t in After(c, s, steps).rows && After(c, s, steps).rows[t] == s.rows[t]
    decreases |steps|
  {
    hide LeaseHolds, KeyedById, Breaks, Revives, Enabled, Apply;
    if steps != [] {
      var next := Apply(c, s, steps[0]);
      StepKeepsLeaseIff(c, s, steps[0]);
      StepKeepsCompletedIff(c, s, steps[0], t);
      if next.rows[t] == s.rows[t] {
        AlwaysSameIff(c, next, steps[1..], t);
      }
    }
  }

  /** Completed is absorbing: over every continuation of a run, both breaking no lease, a completed row,
      its proof included, is the same at every moment if and only if nobody resets the task and no
      operator gives it another state. */
  lemma CompletedIsAbsorbing(c: Config, now: int, before: seq<Step>, steps: seq<Step>, t: Id)
    requires IsRun(c, Start(now), before) && NeverBreaks(c, Start(now), before)
    requires var s := After(c, Start(now), before);
             && IsRun(c, s, steps) && NeverBreaks(c, s, steps)
             && t in s.rows && s.rows[t].state == Completed
    ensures var s := After(c, Start(now), before);
            && (AlwaysSame(c, s, steps, t, s.rows[t]) <==> NeverRevived(c, s, steps, t))
            && (NeverRevived(c, s, steps, t) ==> t in After(c, s, steps).rows && After(c, s, steps).rows[t] == s.rows[t])
  {
    AlwaysLeasedIff(c, Start(now), before);
    AlwaysSameIff(c, After(c, Start(now), before), steps, t);
  }

  // ---------------------------------------------------------------- running tasks

  predicate LostBy(s: World, t: Id, w: WorkerId) {
    t in s.lost && t in s.rows && s.rows[t].workerId == w
  }

  ghost predicate PendingBy(records: map<nat, RecordCall>, t: Id, w: WorkerId) {
    exists k :: PendingCall(records, k, t) && records[k].worker == w
  }

  /** The rows a worker runs according to the table are, over every run that breaks no lease, those it holds,
      those it is recording and those it lost, and no row is in two of these. */
  lemma RunningRowsAreAccountedFor(c: Config, now: int, steps: seq<Step>, w: WorkerId, t: Id)
    requires IsRun(c, Start(now), steps) && NeverBreaks(c, Start(now), steps)
    ensures var s := After(c, Start(now), steps);
            && (t in s.rows && s.rows[t].state == Running && s.rows[t].workerId == w
                <==> HeldBy(s.workers, w, t) > 0 || PendingBy(s.records, t, w) || LostBy(s, t, w))
            && !(HeldBy(s.workers, w, t) > 0 && PendingBy(s.records, t, w))
            && !(HeldBy(s.workers, w, t) > 0 && LostBy(s, t, w))
            && !(PendingBy(s.records, t, w) && LostBy(s, t, w))
  {
    AlwaysLeasedIff(c, Start(now), steps);
    var s := After(c, Start(now), steps);
    assert LeaseAt(s.rows, s.workers, s.records, s.lost, t);
    hide HeldBy, LeaseHolds, NeverBreaks, IsRun, After;
    if PendingFor(s.records, t) {
      var k :| PendingCall(s.records, k, t);
      assert PendingBy(s.records, t, s.records[k].worker);
    }
    if PendingBy(s.records, t, w) {
      assert PendingFor(s.records, t);
    }
  }

  /** Crash recovery: a worker that boots takes up one copy of each of its lost tasks, of nothing
      else, and nothing of its own remains lost. */
  lemma BootRecovers(c: Config, now: int, steps: seq<Step>, boot: Step, t: Id)
    requires IsRun(c, Start(now), steps) && NeverBreaks(c, Start(now), steps)
    requires var s := After(c, Start(now), steps); Enabled(c, s, boot) && boot.Boot? && !Breaks(c, s, boot)
    ensures var s := After(c, Start(now), steps);
            var s' := Apply(c, s, boot);
            && HeldBy(s'.workers, boot.worker, t) == (if LostBy(s, t, boot.worker) then 1 else 0)
            && !LostBy(s', t, boot.worker)
  {
    var s := After(c, Start(now), steps);
    RunningRowsAreAccountedFor(c, now, steps, boot.worker, t);
    hide NeverBreaks, IsRun, After;
    BootHolds(s.rows, boot.worker, boot.max, boot.retrySum, boot.types, boot.backlog, t);
    assert !PendingBy(s.records, t, boot.worker);
  }

  // ---------------------------------------------------------------- lost tasks

  predicate Boots(step: Step, w: WorkerId) {
    step.Boot? && step.worker == w
  }

  /** Only a boot finds lost tasks again. */
  lemma LostIsFoundByBoot(c: Config, s: World, step: Step, t: Id)
    requires Enabled(c, s, step) && t in s.lost
    ensures t in Apply(c, s, step).lost <==> !(step.Boot? && RunningBy(s.rows, t, step.worker))
  {
    hide IsUncompleted, IsOldest, LocalEnabled, Pipeline.Apply, SetState, AddRows, RecordRows;
  }

  /** Nobody writes the row of a lost task: nobody has it. */
  lemma LostRowIsLeft(c: Config, s: World, step: Step, t: Id)
    requires LeaseHolds(s) && Enabled(c, s, step) && !Breaks(c, s, step) && t in s.lost
    ensures t in s.rows && s.rows[t].state == Running
    ensures t in Apply(c, s, step).rows && Apply(c, s, step).rows[t] == s.rows[t]
  {
    assert LeaseAt(s.rows, s.workers, s.records, s.lost, t);
    RowsAreWritten(c, s, step);
    if step.RecordNext? {
      RecordLeavesRow(s, step.call, t);
    }
    hide Apply, LeaseHolds, LeaseAt, RecordRows, IsUncompleted, IsOldest, LocalEnabled;
  }

  /** A lost task stays lost, and its row as it is, over every step but the boot of its own worker. */
  lemma StepKeepsLost(c: Config, s: World, step: Step, t: Id, w: WorkerId)
    requires LeaseHolds(s) && Enabled(c, s, step) && !Breaks(c, s, step) && LostBy(s, t, w)
    ensures LostBy(Apply(c, s, step), t, w) <==> !Boots(step, w)
    ensures t in Apply(c, s, step).rows && Apply(c, s, step).rows[t] == s.rows[t]
  {
    LostRowIsLeft(c, s, step, t);
    LostIsFoundByBoot(c, s, step, t);
    hide Enabled, Apply, Breaks, LeaseHolds;
  }

  ghost predicate NeverBoots(steps: seq<Step>, w: WorkerId) {
    forall i :: 0 <= i < |steps| ==> !Boots(steps[i], w)
  }

  lemma {:induction false} LostStays(c: Config, s: World, steps: seq<Step>, t: Id, w: WorkerId)
    requires Leased(s) && IsRun(c, s, steps) && NeverBreaks(c, s, steps)
    requires LostBy(s, t, w) && NeverBoots(steps, w)
    ensures LostBy(After(c, s, steps), t, w) && After(c, s, steps).rows[t] == s.rows[t]
    decreases |steps|
  {
    hide LeaseHolds, KeyedById, LostBy, Enabled, Apply, Breaks;
    if steps != [] {
      StepKeepsLost(c, s, steps[0], t, w);
      StepKeepsLeaseIff(c, s, steps[0]);
      assert NeverBoots(steps[1..], w);
      LostStays(c, Apply(c, s, steps[0]), steps[1..], t, w);
    }
  }

  /** A task its worker has lost, be it by a crash, a lost reply, a failed record call or for want of its
      input while the worker lives on, is stuck until that worker boots again: over every run
      that breaks no lease and has no such boot it stays lost, and its row as it is. */
  lemma LostUntilBoot(c: Config, now: int, before: seq<Step>, steps: seq<Step>, t: Id, w: WorkerId)
    requires IsRun(c, Start(now), before) && NeverBreaks(c, Start(now), before)
    requires var s := After(c, Start(now), before);
             IsRun(c, s, steps) && NeverBreaks(c, s, steps) && LostBy(s, t, w) && NeverBoots(steps, w)
    ensures var s := After(c, Start(now), before);
            LostBy(After(c, s, steps), t, w) && After(c, s, steps).rows[t] == s.rows[t]
  {
    AlwaysLeasedIff(c, Start(now), before);
    LostStays(c, After(c, Start(now), before), steps, t, w);
  }
}
