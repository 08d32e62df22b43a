/** The server object: its calls as sequences of reads and writes on the two stores. What each call
    does when nothing interrupts it is what its statements do one by one in `Protocol`. */
module Server {
  import opened Entities
  import opened TaskTable
  import opened Resources
  import opened Protocol
  import opened Addressing

  // ---------------------------------------------------------------- whole calls

  /** What a whole call leaves behind: the two stores, and whether it succeeded. */
  datatype Stores = Stores(files: Files, rows: Rows, ok: bool)

  /** A whole submission call. */
  function SubmitWhole(c: Config, files: Files, rows: Rows, sub: Submission, comment: string, now: int): Stores {
    var files' := if c.rid(sub.bytes) in files then files else files[c.rid(sub.bytes) := sub.bytes];
    if c.tid(sub) in rows then Stores(files', rows, true)
    else
      var row := SubmittedRow(c, AddCall(sub, comment, StampTask), now);
      Stores(files', rows[c.tid(sub) := row], true)
  }

  /** A whole record call of a proof. */
  function RecordWhole(kind: StoreKind, files: Files, rows: Rows, worker: WorkerId, t: Id, proof: Bytes, now: int): Stores {
    if t !in rows then Stores(files, rows, false)
    else
      var rid := rows[t].resourceId;
      Stores(files - {rid}, CompleteRow(rows, t, worker, proof, now), Removable(kind, files, rid))
  }

  // ---------------------------------------------------------------- the object

  class Proxy {
    const uuid5: Bytes -> Id
    const resource: ResourceStore
    const pool: DbOps

    constructor (uuid5: Bytes -> Id, resource: ResourceStore, pool: DbOps)
      ensures this.uuid5 == uuid5 && this.resource == resource && this.pool == pool
    {
      this.uuid5 := uuid5;
      this.resource := resource;
      this.pool := pool;
    }

    ghost function Ids(): Config {
      Addressed(uuid5, (_, _) => true, resource.kind, {})
    }

    /** Has, store, has, insert. On its own the call always succeeds. */
    method AddTaskInner(miner: Address, taskType: TaskType, content: Bytes, comment: string, now: int)
      returns (id: Option<Id>)
      requires pool.Valid()
      modifies resource`files, pool`rows
      ensures pool.Valid()
      ensures id == Some(TaskId(uuid5, Submission(miner, taskType, content)))
      ensures var whole := SubmitWhole(Ids(), old(resource.files), old(pool.rows), Submission(miner, taskType, content), comment, now);
              resource.files == whole.files && pool.rows == whole.rows
      ensures var rid := uuid5(content);
              resource.files == if rid in old(resource.files) then old(resource.files) else old(resource.files)[rid := content]
      ensures var t := TaskId(uuid5, Submission(miner, taskType, content));
              && t in pool.rows
              && (t in old(pool.rows) ==> pool.rows == old(pool.rows))
              && (t !in old(pool.rows) ==>
                    && pool.rows == old(pool.rows)[t := pool.rows[t]]
                    && pool.rows[t].id == t && pool.rows[t].miner == miner.noPrefix
                    && pool.rows[t].resourceId == uuid5(content) && pool.rows[t].taskType == taskType
                    && pool.rows[t].comment == comment && pool.rows[t].state == Init && pool.rows[t].createAt == now
                    && pool.rows[t].startAt == 0 && pool.rows[t].completeAt == 0 && pool.rows[t].workerId == ""
                    && pool.rows[t].proof == [] && pool.rows[t].errorMsg == "")
    {
      var rid := uuid5(content);
      var known := resource.HasResource(rid);
      if !known {
        var stored := resource.StoreResourceInfo(rid, content);
        if !stored {
          return None;
        }
      }
      var tid := GenTaskId(uuid5, miner, taskType, content);
      var present := pool.HasTask(tid);
      if !present {
        var added := pool.AddTask(tid, miner, taskType, rid, comment, now);
        if !added {
          return None;
        }
      }
      id := Some(tid);
    }

    /** Read, update, delete. */
    method RecordProof(worker: WorkerId, tid: Id, proof: Bytes, now: int) returns (ok: bool)
      requires pool.Valid()
      modifies resource`files, pool`rows
      ensures pool.Valid()
      ensures Stores(resource.files, pool.rows, ok)
              == RecordWhole(resource.kind, old(resource.files), old(pool.rows), worker, tid, proof, now)
      ensures tid !in old(pool.rows) ==> !ok && pool.rows == old(pool.rows) && resource.files == old(resource.files)
      ensures tid in old(pool.rows) ==>
                var row := old(pool.rows)[tid];
                && pool.rows == old(pool.rows)[tid := row.(state := Completed, workerId := worker, proof := proof,
                                                           errorMsg := "", completeAt := now)]
                && resource.files == old(resource.files) - {row.resourceId}
                && (ok <==> resource.kind.DbStore? || row.resourceId in old(resource.files))
    {
      var task := pool.Fetch(tid);
      if task.None? {
        return false;
      }
      pool.RecordProof(worker, tid, proof, now);
      ok := resource.DeleteResource(task.value.resourceId);
    }

    method RecordError(worker: WorkerId, tid: Id, msg: string)
      requires pool.Valid()
      modifies pool`rows
      ensures pool.Valid() && pool.rows == FailRow(old(pool.rows), tid, worker, msg)
      ensures pool.rows == if tid !in old(pool.rows) then old(pool.rows)
                           else old(pool.rows)[tid := old(pool.rows)[tid].(state := TaskState.Error, workerId := worker,
                                                                          errorMsg := msg)]
    {
      pool.RecordError(worker, tid, msg);
    }
  }

  // ---------------------------------------------------------------- whole calls and their statements

  /** How many statements a submission call has left at most. */
  function StatementsLeft(pc: AddPc): nat {
    match pc
    case CheckResource => 5
    case StoreResource => 4
    case CheckTask => 3
    case StampTask => 2
    case InsertTask(_) => 1
    case Returned(_) => 0
  }

  /** A submission call run to its end without interruption. */
  function AddToEnd(c: Config, s: World, k: nat): (r: World)
    requires k in s.adds
    ensures k in r.adds && r.adds[k].pc.Returned?
    decreases StatementsLeft(s.adds[k].pc)
  {
    if s.adds[k].pc.Returned? then s else AddToEnd(c, AddEffect(c, s, k), k)
  }

  /** The statements of a submission call, run without interruption, are the whole call. */
  lemma StatementsMakeSubmission(c: Config, s: World, k: nat)
    requires k in s.adds && s.adds[k].pc.CheckResource?
    ensures var whole := SubmitWhole(c, s.files, s.rows, s.adds[k].sub, s.adds[k].comment, s.now);
            var end := AddToEnd(c, s, k);
            end.files == whole.files && end.rows == whole.rows && end.adds[k].pc == Returned(Some(c.tid(s.adds[k].sub)))
  {
    var s1 := AddEffect(c, s, k);
    var s2 := AddEffect(c, s1, k);
    if c.rid(s.adds[k].sub.bytes) in s.files {
      EndsFromCheck(c, s1, k);
      assert AddToEnd(c, s, k) == AddToEnd(c, s1, k);
    } else {
      EndsFromCheck(c, s2, k);
      assert AddToEnd(c, s, k) == AddToEnd(c, s1, k) == AddToEnd(c, s2, k);
    }
  }

  /** The second half of a submission call: the row is there, or it is inserted. */
  lemma EndsFromCheck(c: Config, s: World, k: nat)
    requires k in s.adds && s.adds[k].pc.CheckTask?
    ensures var end := AddToEnd(c, s, k);
            && end.files == s.files
            && end.rows == (if c.tid(s.adds[k].sub) in s.rows then s.rows
                            else s.rows[c.tid(s.adds[k].sub) := SubmittedRow(c, s.adds[k], s.now)])
            && end.adds[k].pc == Returned(Some(c.tid(s.adds[k].sub)))
  {
    var s1 := AddEffect(c, s, k);
    assert AddToEnd(c, s, k) == AddToEnd(c, s1, k);
    if c.tid(s.adds[k].sub) !in s.rows {
      var s2 := AddEffect(c, s1, k);
      var s3 := AddEffect(c, s2, k);
      assert AddToEnd(c, s1, k) == AddToEnd(c, s2, k) == AddToEnd(c, s3, k);
    }
  }

  /** The statements of a record call, run without interruption, are the whole call. */
  lemma StatementsMakeRecord(s: World, k: nat)
    requires k in s.records && s.records[k].pc.ReadRow? && s.records[k].tid in s.rows
    ensures var call := s.records[k];
            var whole := RecordWhole(FileStore, s.files, s.rows, call.worker, call.tid, call.pc.proof, s.now);
            var s1 := RecordEffect(s, k);
            && k in s1.records
            && var s2 := RecordEffect(s1, k);
            && k in s2.records
            && var s3 := RecordEffect(s2, k);
            && s3.files == whole.files && s3.rows == whole.rows && k !in s3.records
  {
  }

  /** A second submission of the same task, whoever made the first, changes neither store. */
  lemma SubmittingTwice(c: Config, files: Files, rows: Rows, sub: Submission, comment: string, now: int,
                        comment': string, now': int)
    ensures var once := SubmitWhole(c, files, rows, sub, comment, now);
            var twice := SubmitWhole(c, once.files, once.rows, sub, comment', now');
            twice == once
  {
  }

  /** A record call on its own takes exactly the input of its task and completes exactly its row. */
  lemma RecordingOnce(kind: StoreKind, files: Files, rows: Rows, worker: WorkerId, t: Id, proof: Bytes, now: int)
    requires t in rows
    ensures var after := RecordWhole(kind, files, rows, worker, t, proof, now);
            && after.rows.Keys == rows.Keys
            && after.rows[t].state == Completed && after.rows[t].proof == proof && after.rows[t].errorMsg == ""
            && (forall u :: u in rows && u != t ==> after.rows[u] == rows[u])
            && after.files.Keys == files.Keys - {rows[t].resourceId}
            && (after.ok <==> kind.DbStore? || rows[t].resourceId in files)
  {
  }

  // ---------------------------------------------------------------- calls that end early

  /** Until it has returned, a submission call may execute its next statement, or end with an error after any
      statement it has executed, which stays as it is. */
  lemma SubmissionsMayEnd(c: Config, s: World, k: nat)
    requires k in s.adds && !s.adds[k].pc.Returned?
    ensures Enabled(c, s, AddNext(k)) && Enabled(c, s, AddFail(k))
    ensures var s' := Apply(c, s, AddFail(k));
            s'.adds == s.adds[k := s.adds[k].(pc := Returned(None))] && s'.rows == s.rows && s'.files == s.files
  {
  }

  /** A claim call may end before its update, and its update may be executed without its reply reaching
      anybody, whether the worker still runs or not. */
  lemma ClaimsMayEnd(c: Config, s: World, k: nat)
    requires k in s.claims
    ensures Enabled(c, s, ClaimFail(k))
    ensures var s' := Apply(c, s, ClaimFail(k)); s'.claims == s.claims - {k} && s'.rows == s.rows && s'.workers == s.workers
    ensures s.claims[k].pc.GuardedUpdate? ==>
              Enabled(c, s, ClaimUpdate(k, false)) && Apply(c, s, ClaimUpdate(k, false)).workers == s.workers
  {
  }

  /** A record call may execute its next statement, whether its worker still runs or not, or end before
      it. */
  lemma RecordsMayEnd(c: Config, s: World, k: nat)
    requires k in s.records
    ensures Enabled(c, s, RecordNext(k)) && Enabled(c, s, RecordFail(k))
    ensures var s' := Apply(c, s, RecordFail(k)); s'.records == s.records - {k} && s'.rows == s.rows && s'.files == s.files
  {
  }
}
