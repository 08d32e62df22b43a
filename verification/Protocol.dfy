/** The whole system: the two stores, the server calls in flight, the plugin's requests and the
    worker processes. A step of the system is one statement of one of them, so the steps of
    different calls interleave freely. */
module Protocol {
  import opened Entities
  import opened TaskTable
  import opened Resources
  import Pipeline

  type Pipe = Pipeline.Pipe
  type PipeStep = Pipeline.PipeStep

  /** What the system is run with: the two id functions, which proofs the computation may yield on
      which bytes, the kind of resource store, and the submissions ever made. */
  datatype Config = Config(
    tid: Submission -> Id, rid: Bytes -> Id, computes: (Bytes, Bytes) -> bool, kind: StoreKind, subs: set<Submission>)

  // ---------------------------------------------------------------- server calls in flight

  /** A submission call, before its next statement; `StampTask` is about to read the clock for the
      row, and `InsertTask` to insert the row with what it read. */
  datatype AddPc =
    | CheckResource
    | StoreResource
    | CheckTask
    | StampTask
    | InsertTask(at: int)
    | Returned(id: Option<Id>)

  datatype AddCall = AddCall(sub: Submission, comment: string, pc: AddPc)

  /** A claim call: before its select, or between the select and the guarded update. */
  datatype ClaimPc = SelectTodo | GuardedUpdate(tid: Id)

  datatype ClaimCall = ClaimCall(worker: WorkerId, types: Option<seq<TaskType>>, pc: ClaimPc)

  /** A record call, before its next statement. */
  datatype RecordPc =
    | ReadRow(proof: Bytes)
    | WriteProof(proof: Bytes, rid: Id)
    | DeleteResource(rid: Id)
    | WriteError(msg: string)

  datatype RecordCall = RecordCall(worker: WorkerId, tid: Id, pc: RecordPc)

  /** A record call that has not written the row yet. */
  predicate Pending(call: RecordCall) {
    !call.pc.DeleteResource?
  }

  function NewRecordCall(worker: WorkerId, tid: Id, outcome: Outcome): RecordCall {
    RecordCall(worker, tid, if outcome.Proof? then ReadRow(outcome.proof) else WriteError(outcome.msg))
  }

  // ---------------------------------------------------------------- the plugin's requests

  datatype Answer = GotProof(proof: Bytes) | GotError(msg: string) | GaveUp

  /** `ResetAbandoned` is a request whose client has given up on a reset call, or has died during it,
      and the server may still execute the call. */
  datatype RequestPc = Looking | Resetting | ResetAbandoned | Adding(call: nat) | Polling | Finished(answer: Answer)

  /** `since` is the moment of the request's own lookup of its task, and then of its reset. */
  datatype Request = Request(sub: Submission, since: nat, pc: RequestPc)

  predicate Outstanding(req: Request) {
    !req.pc.Finished?
  }

  // ---------------------------------------------------------------- the state

  /** The last error recorded on a task, and when. */
  datatype Stamp = Stamp(at: nat, msg: string)

  /** `tick` counts the steps; `lost` names the running tasks nobody works on any more; `errors`
      remembers the last error recorded on each task. These three are history: no step reads them. */
  datatype World = World(
    now: int, rows: Rows, files: Files,
    adds: map<nat, AddCall>, claims: map<nat, ClaimCall>, records: map<nat, RecordCall>,
    reqs: map<nat, Request>, workers: map<WorkerId, Pipe>,
    tick: nat, lost: set<Id>, errors: map<Id, Stamp>)

  function Start(now: int): World {
    World(now, map[], map[], map[], map[], map[], map[], map[], 0, {}, map[])
  }

  datatype Step =
    | Clock(time: int)
    // submissions
    | AddBegin(call: nat, sub: Submission, comment: string)
    | AddNext(call: nat)
    | AddFail(call: nat)
    // the plugin; a request fails when one of its calls does, and at any time when its process dies
    | ReqBegin(req: nat, sub: Submission)
    | ReqLookup(req: nat, call: nat, comment: string)
    | ReqReset(req: nat, delivered: bool)
    | ReqAdded(req: nat)
    | ReqPoll(req: nat)
    | ReqFail(req: nat)
    // workers
    | Boot(worker: WorkerId, max: nat, retrySum: nat, types: Option<seq<TaskType>>, backlog: seq<Task>)
    | Crash(worker: WorkerId)
    | Local(worker: WorkerId, inner: PipeStep)
    | ClaimBegin(worker: WorkerId, call: nat)
    | ClaimSelect(call: nat, tid: Id)
    | ClaimUpdate(call: nat, delivered: bool)
    | ClaimFail(call: nat)
    | RecordBegin(worker: WorkerId, call: nat)
    | RecordNext(call: nat)
    | RecordFail(call: nat)
    // the operator's command line
    | Operator(ids: seq<Id>, state: TaskState)

  // ---------------------------------------------------------------- which steps are possible

  /** A step inside a worker process. It reads its input from the resource store, and a computation
      that succeeds yields a proof of its input. */
  predicate LocalEnabled(c: Config, s: World, w: WorkerId, inner: PipeStep) {
    && w in s.workers
    && Pipeline.Enabled(s.workers[w], inner)
    && !inner.CallClaim? && !inner.ClaimOk? && !inner.TakeResult?
    && (inner.GetOk? ==>
          var rid := s.workers[w].consumer.task.resourceId;
          rid in s.files && inner.input == s.files[rid])
    && (inner.Compute? && inner.outcome.Proof? ==>
          c.computes(s.workers[w].jobs[inner.index].input, inner.outcome.proof))
  }

  ghost predicate Enabled(c: Config, s: World, step: Step) {
    match step
    case Clock(_) => true
    case AddBegin(k, sub, _) => k !in s.adds && sub in c.subs
    case AddNext(k) => k in s.adds && !s.adds[k].pc.Returned?
    case AddFail(k) => k in s.adds && !s.adds[k].pc.Returned?
    case ReqBegin(r, sub) => r !in s.reqs && sub in c.subs
    case ReqLookup(r, k, _) => r in s.reqs && s.reqs[r].pc.Looking? && k !in s.adds
    case ReqReset(r, _) => r in s.reqs && (s.reqs[r].pc.Resetting? || s.reqs[r].pc.ResetAbandoned?)
    case ReqAdded(r) =>
      && r in s.reqs && s.reqs[r].pc.Adding?
      && s.reqs[r].pc.call in s.adds && s.adds[s.reqs[r].pc.call].pc.Returned?
    case ReqPoll(r) => r in s.reqs && s.reqs[r].pc.Polling?
    case ReqFail(r) => r in s.reqs && Outstanding(s.reqs[r])
    case Boot(w, max, retrySum, _, backlog) =>
      && w !in s.workers && 1 <= max < Pipeline.WORD && retrySum < Pipeline.RETRY_LIMIT
      && IsUncompleted(s.rows, w, backlog)
    case Crash(w) => w in s.workers
    case Local(w, inner) => LocalEnabled(c, s, w, inner)
    case ClaimBegin(w, k) => w in s.workers && k !in s.claims && Pipeline.Enabled(s.workers[w], Pipeline.CallClaim(k))
    case ClaimSelect(k, t) => k in s.claims && s.claims[k].pc.SelectTodo? && IsOldest(s.rows, s.claims[k].types, t)
    case ClaimUpdate(k, delivered) =>
      && k in s.claims && s.claims[k].pc.GuardedUpdate?
      && (delivered ==> s.claims[k].worker in s.workers
                        && s.workers[s.claims[k].worker].fetcher == Pipeline.Claiming(k))
    case ClaimFail(k) => k in s.claims
    case RecordBegin(w, k) =>
      && w in s.workers && k !in s.records
      && Pipeline.Enabled(s.workers[w], Pipeline.TakeResult) && s.workers[w].results[0].Waiting?
    case RecordNext(k) => k in s.records
    case RecordFail(k) => k in s.records
    case Operator(_, _) => true
  }

  // ---------------------------------------------------------------- what the steps do

  /** Where the next statement of a submission call leads. */
  function AddNextPc(c: Config, s: World, call: AddCall): AddPc {
    match call.pc
    case CheckResource => if c.rid(call.sub.bytes) in s.files then CheckTask else StoreResource
    case StoreResource =>
      if Stored(c.kind, s.files, c.rid(call.sub.bytes), call.sub.bytes).Some? then CheckTask else Returned(None)
    case CheckTask => if c.tid(call.sub) in s.rows then Returned(Some(c.tid(call.sub))) else StampTask
    case StampTask => InsertTask(s.now)
    case InsertTask(_) => Returned(if c.tid(call.sub) in s.rows then None else Some(c.tid(call.sub)))
    case Returned(id) => Returned(id)
  }

  function AddFiles(c: Config, s: World, call: AddCall): Files {
    if call.pc.StoreResource? && Stored(c.kind, s.files, c.rid(call.sub.bytes), call.sub.bytes).Some?
    then Stored(c.kind, s.files, c.rid(call.sub.bytes), call.sub.bytes).value
    else s.files
  }

  function AddRows(c: Config, s: World, call: AddCall): Rows {
    if call.pc.InsertTask? && c.tid(call.sub) !in s.rows
    then s.rows[c.tid(call.sub) := SubmittedRow(c, call, call.pc.at)]
    else s.rows
  }

  function SubmittedRow(c: Config, call: AddCall, at: int): Task {
    NewRow(c.tid(call.sub), call.sub.miner, call.sub.taskType, c.rid(call.sub.bytes), call.comment, at)
  }

  /** The next statement of a submission call. */
  function AddEffect(c: Config, s: World, k: nat): World
    requires k in s.adds
  {
    var call := s.adds[k];
    s.(files := AddFiles(c, s, call), rows := AddRows(c, s, call),
       adds := s.adds[k := call.(pc := AddNextPc(c, s, call))])
  }

  function SetReq(s: World, r: nat, pc: RequestPc): World
    requires r in s.reqs
  {
    s.(reqs := s.reqs[r := s.reqs[r].(pc := pc)])
  }

  /** The plugin's lookup: reset a failed task, trace any other, submit one that is not there. */
  function LookupPc(rows: Rows, t: Id, k: nat): RequestPc {
    if t !in rows then Adding(k) else if rows[t].state == TaskState.Error then Resetting else Polling
  }

  function LookupEffect(c: Config, s: World, r: nat, k: nat, comment: string): World
    requires r in s.reqs
  {
    var sub := s.reqs[r].sub;
    s.(reqs := s.reqs[r := Request(sub, s.tick, LookupPc(s.rows, c.tid(sub), k))],
       adds := if c.tid(sub) in s.rows then s.adds else s.adds[k := AddCall(sub, comment, CheckResource)])
  }

  /** The reset is executed; its reply reaches the client or not. */
  function ResetEffect(c: Config, s: World, r: nat, delivered: bool): World
    requires r in s.reqs
  {
    var req := s.reqs[r];
    s.(rows := SetState(s.rows, [c.tid(req.sub)], Init),
       reqs := s.reqs[r := Request(req.sub, s.tick, if delivered && req.pc.Resetting? then Polling else Finished(GaveUp))])
  }

  /** The polling loop ends on a failed or a finished task and goes on otherwise. */
  function PollPc(rows: Rows, t: Id): RequestPc {
    if t !in rows then Polling
    else match rows[t].state
      case Error => Finished(GotError(rows[t].errorMsg))
      case Completed => Finished(GotProof(rows[t].proof))
      case _ => Polling
  }

  /** A crash loses what the process holds; the table still says the worker runs it. */
  function CrashEffect(s: World, w: WorkerId): World
    requires w in s.workers
  {
    s.(workers := s.workers - {w},
       lost := s.lost + set t | t in s.rows && Pipeline.Held(s.workers[w], t) > 0)
  }

  function LocalEffect(s: World, w: WorkerId, inner: PipeStep): World
    requires w in s.workers && Pipeline.Enabled(s.workers[w], inner)
  {
    var p := s.workers[w];
    s.(workers := s.workers[w := Pipeline.Apply(p, inner)],
       lost := if Pipeline.GivesUp(p, inner) then s.lost + {p.consumer.task.id} else s.lost)
  }

  /** The guard of the claim's update: the selected row is still initial. */
  predicate Wins(s: World, k: nat)
    requires k in s.claims && s.claims[k].pc.GuardedUpdate?
  {
    var t := s.claims[k].pc.tid;
    t in s.rows && s.rows[t].state == Init
  }

  function WonRow(s: World, k: nat): Task
    requires k in s.claims && s.claims[k].pc.GuardedUpdate? && Wins(s, k)
  {
    ClaimedBy(s.rows[s.claims[k].pc.tid], s.claims[k].worker, s.now)
  }

  /** The guarded update of a claim. A won row whose reply does not reach the fetcher is running
      with nobody working on it. */
  function ClaimEffect(s: World, k: nat, delivered: bool): World
    requires k in s.claims && s.claims[k].pc.GuardedUpdate?
    requires delivered ==> s.claims[k].worker in s.workers
                           && s.workers[s.claims[k].worker].fetcher == Pipeline.Claiming(k)
  {
    var w := s.claims[k].worker;
    var t := s.claims[k].pc.tid;
    s.(claims := s.claims - {k},
       rows := if Wins(s, k) then s.rows[t := WonRow(s, k)] else s.rows,
       workers := if Wins(s, k) && delivered
                  then s.workers[w := Pipeline.Apply(s.workers[w], Pipeline.ClaimOk(WonRow(s, k)))]
                  else s.workers,
       lost := if Wins(s, k) && !delivered then s.lost + {t} else s.lost)
  }

  function RecordBeginEffect(s: World, w: WorkerId, k: nat): World
    requires w in s.workers && Pipeline.Enabled(s.workers[w], Pipeline.TakeResult) && s.workers[w].results[0].Waiting?
  {
    var p := s.workers[w];
    s.(records := s.records[k := NewRecordCall(w, p.results[0].task.id, p.results[0].outcome)],
       workers := s.workers[w := Pipeline.Apply(p, Pipeline.TakeResult)])
  }

  /** What the next statement of a record call does to the rows. */
  function RecordRows(s: World, call: RecordCall): Rows {
    match call.pc
    case WriteProof(proof, _) => CompleteRow(s.rows, call.tid, call.worker, proof, s.now)
    case WriteError(msg) => FailRow(s.rows, call.tid, call.worker, msg)
    case _ => s.rows
  }

  /** The call after that statement, unless it has ended. */
  function RecordCalls(s: World, k: nat): map<nat, RecordCall>
    requires k in s.records
  {
    var call := s.records[k];
    match call.pc
    case ReadRow(proof) =>
      if call.tid in s.rows then s.records[k := call.(pc := WriteProof(proof, s.rows[call.tid].resourceId))]
      else s.records - {k}
    case WriteProof(_, rid) => s.records[k := call.(pc := DeleteResource(rid))]
    case _ => s.records - {k}
  }

  /** The next statement of a record call. */
  function RecordEffect(s: World, k: nat): World
    requires k in s.records
  {
    var call := s.records[k];
    s.(rows := RecordRows(s, call),
       files := if call.pc.DeleteResource? then s.files - {call.pc.rid} else s.files,
       records := RecordCalls(s, k),
       errors := if call.pc.WriteError? then s.errors[call.tid := Stamp(s.tick, call.pc.msg)] else s.errors)
  }

  /** A record call that ends without another statement. */
  function RecordFailEffect(s: World, k: nat): World
    requires k in s.records
  {
    s.(records := s.records - {k}, lost := if Pending(s.records[k]) then s.lost + {s.records[k].tid} else s.lost)
  }

  function Effect(c: Config, s: World, step: Step): World
    requires Enabled(c, s, step)
  {
    match step
    case Clock(time) => s.(now := time)
    case AddBegin(k, sub, comment) => s.(adds := s.adds[k := AddCall(sub, comment, CheckResource)])
    case AddNext(k) => AddEffect(c, s, k)
    case AddFail(k) => s.(adds := s.adds[k := s.adds[k].(pc := Returned(None))])
    case ReqBegin(r, sub) => s.(reqs := s.reqs[r := Request(sub, s.tick, Looking)])
    case ReqLookup(r, k, comment) => LookupEffect(c, s, r, k, comment)
    case ReqReset(r, delivered) => ResetEffect(c, s, r, delivered)
    case ReqAdded(r) => SetReq(s, r, if s.adds[s.reqs[r].pc.call].pc.id.Some? then Polling else Finished(GaveUp))
    case ReqPoll(r) => SetReq(s, r, PollPc(s.rows, c.tid(s.reqs[r].sub)))
    case ReqFail(r) => SetReq(s, r, if s.reqs[r].pc.Resetting? then ResetAbandoned else Finished(GaveUp))
    case Boot(w, max, retrySum, types, backlog) =>
      s.(workers := s.workers[w := Pipeline.Booted(max, retrySum, types, backlog)],
         lost := s.lost - set t | t in s.rows && RunningBy(s.rows, t, w))
    case Crash(w) => CrashEffect(s, w)
    case Local(w, inner) => LocalEffect(s, w, inner)
    case ClaimBegin(w, k) =>
      s.(claims := s.claims[k := ClaimCall(w, s.workers[w].types, SelectTodo)],
         workers := s.workers[w := Pipeline.Apply(s.workers[w], Pipeline.CallClaim(k))])
    case ClaimSelect(k, t) => s.(claims := s.claims[k := s.claims[k].(pc := GuardedUpdate(t))])
    case ClaimUpdate(k, delivered) => ClaimEffect(s, k, delivered)
    case ClaimFail(k) => s.(claims := s.claims - {k})
    case RecordBegin(w, k) => RecordBeginEffect(s, w, k)
    case RecordNext(k) => RecordEffect(s, k)
    case RecordFail(k) => RecordFailEffect(s, k)
    case Operator(ids, state) => s.(rows := SetState(s.rows, ids, state))
  }

  function Apply(c: Config, s: World, step: Step): World
    requires Enabled(c, s, step)
  {
    Effect(c, s, step).(tick := s.tick + 1)
  }

  /** The rows after a step: five statements write rows, no other step does. */
  function RowsWritten(c: Config, s: World, step: Step): Rows
    requires Enabled(c, s, step)
  {
    match step
    case AddNext(k) => AddRows(c, s, s.adds[k])
    case ReqReset(r, _) => SetState(s.rows, [c.tid(s.reqs[r].sub)], Init)
    case ClaimUpdate(k, _) => if Wins(s, k) then s.rows[s.claims[k].pc.tid := WonRow(s, k)] else s.rows
    case RecordNext(k) => RecordRows(s, s.records[k])
    case Operator(ids, state) => SetState(s.rows, ids, state)
    case _ => s.rows
  }

  lemma RowsAreWritten(c: Config, s: World, step: Step)
    requires Enabled(c, s, step)
    ensures Apply(c, s, step).rows == RowsWritten(c, s, step)
  {
    hide IsUncompleted, IsOldest, LocalEnabled, Pipeline.Apply, SetState, AddRows, RecordRows, Wins;
  }

  /** The submission calls after a step, and the clock. */
  function AddsWritten(c: Config, s: World, step: Step): map<nat, AddCall>
    requires Enabled(c, s, step)
  {
    match step
    case AddBegin(k, sub, comment) => s.adds[k := AddCall(sub, comment, CheckResource)]
    case AddNext(k) => s.adds[k := s.adds[k].(pc := AddNextPc(c, s, s.adds[k]))]
    case AddFail(k) => s.adds[k := s.adds[k].(pc := Returned(None))]
    case ReqLookup(r, k, comment) =>
      if c.tid(s.reqs[r].sub) in s.rows then s.adds else s.adds[k := AddCall(s.reqs[r].sub, comment, CheckResource)]
    case _ => s.adds
  }

  lemma AddsAreWritten(c: Config, s: World, step: Step)
    requires Enabled(c, s, step)
    ensures Apply(c, s, step).adds == AddsWritten(c, s, step)
    ensures Apply(c, s, step).now == if step.Clock? then step.time else s.now
  {
    hide IsUncompleted, IsOldest, LocalEnabled, Pipeline.Apply, SetState, AddRows, AddFiles, AddNextPc, RecordRows, Wins;
  }

  // ---------------------------------------------------------------- runs

  ghost predicate IsRun(c: Config, s: World, steps: seq<Step>)
    decreases |steps|
  {
    steps == [] || (Enabled(c, s, steps[0]) && IsRun(c, Apply(c, s, steps[0]), steps[1..]))
  }

  ghost function After(c: Config, s: World, steps: seq<Step>): World
    requires IsRun(c, s, steps)
    decreases |steps|
  {
    if steps == [] then s else After(c, Apply(c, s, steps[0]), steps[1..])
  }
}
