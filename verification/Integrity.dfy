/** End to end: the proof a request is answered with was computed from that request's own bytes. */
module Integrity {
  import opened Entities
  import opened TaskTable
  import opened Resources
  import opened Protocol
  import opened Submissions
  import Pipeline

  /** Among the submissions of the run, equal ids mean equal bytes. */
  ghost predicate NoCollision(c: Config) {
    forall a, b :: a in c.subs && b in c.subs ==>
      && (c.tid(a) == c.tid(b) ==> a.bytes == b.bytes)
      && (c.rid(a.bytes) == c.rid(b.bytes) ==> a.bytes == b.bytes)
  }

  /** `proof` may be computed from the bytes of every submission whose task is `t`. */
  ghost predicate ProofOf(c: Config, t: Id, proof: Bytes) {
    forall a :: a in c.subs && c.tid(a) == t ==> c.computes(a.bytes, proof)
  }

  /** `rid` is the resource of every submission whose task is `t`. */
  ghost predicate ResourceOf(c: Config, t: Id, rid: Id) {
    forall a :: a in c.subs && c.tid(a) == t ==> c.rid(a.bytes) == rid
  }

  /** `content` is the input of every submission whose task is `t`. */
  ghost predicate InputOf(c: Config, t: Id, content: Bytes) {
    forall a :: a in c.subs && c.tid(a) == t ==> a.bytes == content
  }

  /** Whatever a row shows as a proof is one, and a completed row shows one. A proof stays in its row
      when the row is reset. */
  ghost predicate RowSound(c: Config, row: Task) {
    && ResourceOf(c, row.id, row.resourceId)
    && (row.state == Completed || row.proof != [] ==> ProofOf(c, row.id, row.proof))
  }

  ghost predicate RowsSound(c: Config, rows: Rows) {
    forall t :: t in rows ==> rows[t].id == t && RowSound(c, rows[t])
  }

  ghost predicate FilesSound(c: Config, files: Files) {
    forall a :: a in c.subs && c.rid(a.bytes) in files ==> files[c.rid(a.bytes)] == a.bytes
  }

  ghost predicate TaskSound(c: Config, task: Task) {
    ResourceOf(c, task.id, task.resourceId)
  }

  ghost predicate JobSound(c: Config, job: Pipeline.Job) {
    match job
    case Computing(task, input) => InputOf(c, task.id, input)
    case Waiting(task, outcome) => outcome.Proof? ==> ProofOf(c, task.id, outcome.proof)
  }

  ghost predicate PipeSound(c: Config, p: Pipe) {
    && (forall i :: 0 <= i < |p.backlog| ==> TaskSound(c, p.backlog[i]))
    && (p.fetcher.Hand? ==> TaskSound(c, p.fetcher.task))
    && (forall i :: 0 <= i < |p.chan| ==> TaskSound(c, p.chan[i]))
    && (p.consumer.Preparing? ==> TaskSound(c, p.consumer.task))
    && (forall i :: 0 <= i < |p.jobs| ==> JobSound(c, p.jobs[i]))
    && (forall i :: 0 <= i < |p.results| ==> JobSound(c, p.results[i]))
  }

  ghost predicate CallSound(c: Config, call: RecordCall) {
    (call.pc.ReadRow? || call.pc.WriteProof?) ==> ProofOf(c, call.tid, call.pc.proof)
  }

  ghost predicate RequestSound(c: Config, req: Request) {
    req.sub in c.subs
    && (req.pc.Finished? && req.pc.answer.GotProof? ==> c.computes(req.sub.bytes, req.pc.answer.proof))
  }

  ghost predicate AddsSound(c: Config, adds: map<nat, AddCall>) {
    forall k :: k in adds ==> adds[k].sub in c.subs
  }

  ghost predicate RequestsSound(c: Config, reqs: map<nat, Request>) {
    forall r :: r in reqs ==> RequestSound(c, reqs[r])
  }

  ghost predicate PipesSound(c: Config, workers: map<WorkerId, Pipe>) {
    forall w :: w in workers ==> PipeSound(c, workers[w])
  }

  ghost predicate CallsSound(c: Config, records: map<nat, RecordCall>) {
    forall k :: k in records ==> CallSound(c, records[k])
  }

  ghost predicate Sound(c: Config, s: World) {
    && RowsSound(c, s.rows)
    && FilesSound(c, s.files)
    && AddsSound(c, s.adds)
    && RequestsSound(c, s.reqs)
    && PipesSound(c, s.workers)
    && CallsSound(c, s.records)
  }

  /** The operator marks a task completed whose proof column is empty. */
  ghost predicate Forges(rows: Rows, step: Step) {
    step.Operator? && step.state == Completed && exists t :: t in step.ids && t in rows && rows[t].proof == []
  }

  // ---------------------------------------------------------------- one change

  lemma StateSet(c: Config, rows: Rows, ids: seq<Id>, state: TaskState)
    requires RowsSound(c, rows) && !Forges(rows, Operator(ids, state))
    ensures RowsSound(c, SetState(rows, ids, state))
  {
    var after := SetState(rows, ids, state);
    forall t | t in after ensures after[t].id == t && RowSound(c, after[t]) {
      assert RowSound(c, rows[t]);
    }
  }

  lemma PipeWritten(c: Config, workers: map<WorkerId, Pipe>, w: WorkerId, p: Pipe)
    requires PipesSound(c, workers) && PipeSound(c, p)
    ensures PipesSound(c, workers[w := p])
  {
  }

  lemma CallWritten(c: Config, records: map<nat, RecordCall>, k: nat, call: RecordCall)
    requires CallsSound(c, records) && CallSound(c, call)
    ensures CallsSound(c, records[k := call])
  {
  }

  // ---------------------------------------------------------------- one step

  lemma PipeStepSound(c: Config, p: Pipe, step: PipeStep)
    requires PipeSound(c, p) && Pipeline.Enabled(p, step)
    requires step.ClaimOk? ==> TaskSound(c, step.task)
    requires step.GetOk? ==> InputOf(c, p.consumer.task.id, step.input)
    requires step.Compute? && step.outcome.Proof? ==> ProofOf(c, p.jobs[step.index].task.id, step.outcome.proof)
    ensures PipeSound(c, Pipeline.Apply(p, step))
  {
  }

  /** What is read for a task is the input of its submissions. */
  lemma InputRead(c: Config, files: Files, task: Task)
    requires FilesSound(c, files) && TaskSound(c, task) && task.resourceId in files
    ensures InputOf(c, task.id, files[task.resourceId])
  {
  }

  lemma LocalSound(c: Config, s: World, w: WorkerId, inner: PipeStep)
    requires Sound(c, s) && LocalEnabled(c, s, w, inner)
    ensures Sound(c, LocalEffect(s, w, inner))
  {
    var p := s.workers[w];
    assert PipeSound(c, p);
    hide RowsSound, AddsSound, RequestsSound, PipesSound, CallsSound;
    if inner.GetOk? {
      InputRead(c, s.files, p.consumer.task);
    }
    if inner.Compute? && inner.outcome.Proof? {
      assert JobSound(c, p.jobs[inner.index]);
    }
    hide FilesSound;
    PipeStepSound(c, p, inner);
    hide PipeSound;
    PipeWritten(c, s.workers, w, Pipeline.Apply(p, inner));
  }

  lemma AddSound(c: Config, s: World, k: nat)
    requires NoCollision(c) && Sound(c, s) && k in s.adds
    ensures Sound(c, AddEffect(c, s, k))
  {
  }

  lemma ClaimSound(c: Config, s: World, k: nat, delivered: bool)
    requires Sound(c, s) && Enabled(c, s, ClaimUpdate(k, delivered))
    ensures Sound(c, ClaimEffect(s, k, delivered))
  {
  }

  lemma RecordSound(c: Config, s: World, k: nat)
    requires Sound(c, s) && k in s.records
    ensures Sound(c, RecordEffect(s, k))
  {
  }

  lemma LookupSound(c: Config, s: World, r: nat, k: nat, comment: string)
    requires Sound(c, s) && r in s.reqs
    ensures Sound(c, LookupEffect(c, s, r, k, comment))
  {
  }

  lemma ResetSound(c: Config, s: World, r: nat, delivered: bool)
    requires Sound(c, s) && r in s.reqs
    ensures Sound(c, ResetEffect(c, s, r, delivered))
  {
  }

  lemma PollSound(c: Config, s: World, r: nat)
    requires Sound(c, s) && r in s.reqs
    ensures Sound(c, SetReq(s, r, PollPc(s.rows, c.tid(s.reqs[r].sub))))
  {
  }

  lemma BootSound(c: Config, s: World, step: Step)
    requires Sound(c, s) && Enabled(c, s, step) && step.Boot?
    ensures Sound(c, Effect(c, s, step))
  {
  }

  lemma RecordBeginSound(c: Config, s: World, w: WorkerId, k: nat)
    requires Sound(c, s) && Enabled(c, s, RecordBegin(w, k))
    ensures Sound(c, RecordBeginEffect(s, w, k))
  {
    var p := s.workers[w];
    assert PipeSound(c, p);
    assert JobSound(c, p.results[0]);
    hide RowsSound, PipeSound, FilesSound, AddsSound, RequestsSound, PipesSound, CallsSound;
    CallWritten(c, s.records, k, NewRecordCall(w, p.results[0].task.id, p.results[0].outcome));
    PipeStepSound(c, p, Pipeline.TakeResult);
    PipeWritten(c, s.workers, w, Pipeline.Apply(p, Pipeline.TakeResult));
  }

  lemma ClaimBeginSound(c: Config, s: World, w: WorkerId, k: nat)
    requires Sound(c, s) && Enabled(c, s, ClaimBegin(w, k))
    ensures Sound(c, Effect(c, s, ClaimBegin(w, k)))
  {
  }

  /** The steps that only open or close a call, a request or a process. */
  lemma BookkeepingSound(c: Config, s: World, step: Step)
    requires Sound(c, s) && Enabled(c, s, step)
    requires step.AddBegin? || step.AddFail? || step.ReqBegin? || step.ReqAdded? || step.ReqFail? || step.Crash?
             || step.RecordFail?
    ensures Sound(c, Effect(c, s, step))
  {
    hide RowsSound, FilesSound, RowSound, PipeSound;
  }

  predicate OfRequester(step: Step) {
    || step.AddBegin? || step.AddNext? || step.AddFail? || step.ReqBegin? || step.ReqLookup? || step.ReqReset?
    || step.ReqAdded? || step.ReqPoll? || step.ReqFail?
  }

  lemma RequesterSound(c: Config, s: World, step: Step)
    requires NoCollision(c) && Sound(c, s) && Enabled(c, s, step) && OfRequester(step)
    ensures Sound(c, Effect(c, s, step))
  {
    hide NoCollision, Sound;
    match step
    case AddNext(k) => AddSound(c, s, k);
    case ReqLookup(r, k, comment) => LookupSound(c, s, r, k, comment);
    case ReqReset(r, delivered) => ResetSound(c, s, r, delivered);
    case ReqPoll(r) => PollSound(c, s, r);
    case _ => BookkeepingSound(c, s, step);
  }

  lemma WorkerSound(c: Config, s: World, step: Step)
    requires Sound(c, s) && Enabled(c, s, step) && !OfRequester(step) && !step.Operator?
    ensures Sound(c, Effect(c, s, step))
  {
    hide RowsSound, FilesSound, AddsSound, RequestsSound, PipesSound, CallsSound;
    match step
    case Clock(_) =>
    case Boot(_, _, _, _, _) => BootSound(c, s, step);
    case Local(w, inner) => LocalSound(c, s, w, inner);
    case ClaimBegin(w, k) => ClaimBeginSound(c, s, w, k);
    case ClaimSelect(_, _) =>
    case ClaimUpdate(k, delivered) => ClaimSound(c, s, k, delivered);
    case ClaimFail(_) =>
    case RecordBegin(w, k) => RecordBeginSound(c, s, w, k);
    case RecordNext(k) => RecordSound(c, s, k);
    case _ => BookkeepingSound(c, s, step);
  }

  lemma StepSound(c: Config, s: World, step: Step)
    requires NoCollision(c) && Sound(c, s) && Enabled(c, s, step) && !Forges(s.rows, step)
    ensures Sound(c, Apply(c, s, step))
  {
    hide NoCollision, RowsSound, FilesSound, AddsSound, RequestsSound, PipesSound, CallsSound, Forges;
    if OfRequester(step) {
      RequesterSound(c, s, step);
    } else if step.Operator? {
      StateSet(c, s.rows, step.ids, step.state);
    } else {
      WorkerSound(c, s, step);
    }
    hide Enabled, Effect;
  }

  // ---------------------------------------------------------------- every run

  ghost predicate NoForgery(c: Config, s: World, steps: seq<Step>)
    requires IsRun(c, s, steps)
    decreases |steps|
  {
    steps == [] || (!Forges(s.rows, steps[0]) && NoForgery(c, Apply(c, s, steps[0]), steps[1..]))
  }

  lemma {:induction false} RunSound(c: Config, s: World, steps: seq<Step>)
    requires NoCollision(c) && Sound(c, s) && IsRun(c, s, steps) && NoForgery(c, s, steps)
    ensures Sound(c, After(c, s, steps))
    decreases |steps|
  {
    hide Sound, NoCollision, Enabled, Apply, Forges;
    if steps != [] {
      StepSound(c, s, steps[0]);
      RunSound(c, Apply(c, s, steps[0]), steps[1..]);
    }
  }

  /** Over every interleaving of submissions, requests, workers, crashes, lost replies, abandoned
      calls, stale resets and operator updates, other than marking a task completed that has no proof:
      the proof a request is answered with is one the computation yields on exactly the bytes of that
      request. Neither the exclusive lease nor a single live request is needed for this. */
  lemma EndToEnd(c: Config, now: int, steps: seq<Step>, r: nat)
    requires NoCollision(c) && IsRun(c, Start(now), steps) && NoForgery(c, Start(now), steps)
    requires r in After(c, Start(now), steps).reqs
    ensures var req := After(c, Start(now), steps).reqs[r];
            req.pc.Finished? && req.pc.answer.GotProof? ==> c.computes(req.sub.bytes, req.pc.answer.proof)
  {
    RunSound(c, Start(now), steps);
    assert RequestSound(c, After(c, Start(now), steps).reqs[r]);
  }

  /** The condition on the operator is exact: where the empty string is no proof of anything, marking
      tasks completed keeps the table sound, at any moment of such a run, if and only if the proof
      column of none of them is empty. */
  lemma CompletingIsSoundIff(c: Config, now: int, steps: seq<Step>, ids: seq<Id>)
    requires NoCollision(c) && IsRun(c, Start(now), steps) && NoForgery(c, Start(now), steps)
    requires forall a :: a in c.subs ==> !c.computes(a.bytes, [])
    ensures var rows := After(c, Start(now), steps).rows;
            RowsSound(c, SetState(rows, ids, Completed)) <==> forall t :: t in ids && t in rows ==> rows[t].proof != []
  {
    RunSound(c, Start(now), steps);
    RunKnown(c, Start(now), steps);
    var rows := After(c, Start(now), steps).rows;
    if t :| t in ids && t in rows && rows[t].proof == [] {
      var a :| a in c.subs && c.tid(a) == t;
      assert !RowSound(c, SetState(rows, ids, Completed)[t]);
    } else {
      StateSet(c, rows, ids, Completed);
    }
  }
}
