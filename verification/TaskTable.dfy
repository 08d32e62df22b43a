/** The task table: what each SQL statement reads and writes, and the repository object whose
    methods run those statements. */
module TaskTable {
  import opened Entities

  type Rows = map<Id, Task>

  // ---------------------------------------------------------------- statements

  function NewRow(id: Id, miner: Address, taskType: TaskType, resourceId: Id, comment: string, now: int): Task {
    Task(id, miner.noPrefix, resourceId, [], "", taskType, "", comment, Init, now, 0, 0)
  }

  function ClaimedBy(row: Task, worker: WorkerId, now: int): Task {
    row.(state := Running, workerId := worker, startAt := now)
  }

  /** The update that records an error; it touches nothing when there is no such row. */
  function FailRow(rows: Rows, t: Id, worker: WorkerId, msg: string): Rows {
    if t in rows then rows[t := rows[t].(state := TaskState.Error, workerId := worker, errorMsg := msg)] else rows
  }

  /** The update that records a proof; it touches nothing when there is no such row. */
  function CompleteRow(rows: Rows, t: Id, worker: WorkerId, proof: Bytes, now: int): Rows {
    if t in rows then
      rows[t := rows[t].(state := Completed, workerId := worker, proof := proof, errorMsg := "", completeAt := now)]
    else rows
  }

  /** The unguarded update of the state column of the listed rows. */
  function SetState(rows: Rows, ids: seq<Id>, state: TaskState): (r: Rows)
    ensures r.Keys == rows.Keys
  {
    map t | t in rows :: if t in ids then rows[t].(state := state) else rows[t]
  }

  predicate Allows(types: Option<seq<TaskType>>, taskType: TaskType) {
    types.None? || taskType in types.value
  }

  predicate Eligible(rows: Rows, types: Option<seq<TaskType>>, t: Id) {
    t in rows && rows[t].state == Init && Allows(types, rows[t].taskType)
  }

  /** The selected row: eligible, and no eligible row was created earlier. */
  ghost predicate IsOldest(rows: Rows, types: Option<seq<TaskType>>, t: Id) {
    Eligible(rows, types, t) && forall u :: Eligible(rows, types, u) ==> rows[t].createAt <= rows[u].createAt
  }

  predicate RunningBy(rows: Rows, t: Id, worker: WorkerId) {
    t in rows && rows[t].state == Running && rows[t].workerId == worker
  }

  /** The rows a worker has to take up again, oldest first. */
  ghost predicate IsUncompleted(rows: Rows, worker: WorkerId, tasks: seq<Task>) {
    && (forall i :: 0 <= i < |tasks| ==> RunningBy(rows, tasks[i].id, worker) && tasks[i] == rows[tasks[i].id])
    && (forall t :: RunningBy(rows, t, worker) ==> exists i :: 0 <= i < |tasks| && tasks[i].id == t)
    && (forall i, j :: 0 <= i < j < |tasks| ==> tasks[i].id != tasks[j].id && tasks[i].createAt <= tasks[j].createAt)
  }

  ghost predicate KeyedById(rows: Rows) {
    forall t :: t in rows ==> rows[t].id == t
  }

  /** A nonempty set of rows has an oldest one. */
  lemma {:induction false} OldestExists(rows: Rows, ids: set<Id>)
    requires ids != {} && ids <= rows.Keys
    ensures exists t :: t in ids && forall u :: u in ids ==> rows[t].createAt <= rows[u].createAt
    decreases |ids|
  {
    var x :| x in ids;
    if ids == {x} {
      assert x in ids;
    } else {
      OldestExists(rows, ids - {x});
      var y :| y in ids - {x} && forall u :: u in ids - {x} ==> rows[y].createAt <= rows[u].createAt;
      var z := if rows[x].createAt <= rows[y].createAt then x else y;
      forall u | u in ids ensures rows[z].createAt <= rows[u].createAt {
        assert u == x || u in ids - {x};
      }
      assert z in ids;
    }
  }

  /** The part of the uncompleted rows that has been listed, and the part that has not. */
  ghost predicate Collected(rows: Rows, worker: WorkerId, tasks: seq<Task>, rest: set<Id>) {
    && rest <= rows.Keys
    && (forall t :: t in rest ==> RunningBy(rows, t, worker))
    && (forall i :: 0 <= i < |tasks| ==>
          RunningBy(rows, tasks[i].id, worker) && tasks[i] == rows[tasks[i].id] && tasks[i].id !in rest)
    && (forall t :: RunningBy(rows, t, worker) ==> t in rest || exists i :: 0 <= i < |tasks| && tasks[i].id == t)
    && (forall i, j :: 0 <= i < j < |tasks| ==> tasks[i].id != tasks[j].id && tasks[i].createAt <= tasks[j].createAt)
    && (forall i, t :: 0 <= i < |tasks| && t in rest ==> tasks[i].createAt <= rows[t].createAt)
  }

  lemma CollectedGrows(rows: Rows, worker: WorkerId, tasks: seq<Task>, rest: set<Id>, t: Id)
    requires KeyedById(rows) && Collected(rows, worker, tasks, rest)
    requires t in rest && forall u :: u in rest ==> rows[t].createAt <= rows[u].createAt
    ensures Collected(rows, worker, tasks + [rows[t]], rest - {t})
  {
    var more := tasks + [rows[t]];
    forall u | RunningBy(rows, u, worker)
      ensures u in rest - {t} || exists i :: 0 <= i < |more| && more[i].id == u
    {
      if u == t {
        assert more[|tasks|].id == u;
      } else if u !in rest {
        var i :| 0 <= i < |tasks| && tasks[i].id == u;
        assert more[i].id == u;
      }
    }
  }

  // ---------------------------------------------------------------- the repository

  class DbOps {
    var rows: Rows
    var workerInfo: Option<WorkerId>

    ghost predicate Valid()
      reads this
    {
      KeyedById(rows)
    }

    constructor ()
      ensures Valid() && rows == map[] && workerInfo == None
    {
      rows := map[];
      workerInfo := None;
    }

    /** The stored worker id if there is one; otherwise the fresh id, which is stored. */
    method GetWorkerId(newId: WorkerId) returns (id: WorkerId)
      requires Valid()
      modifies this`workerInfo
      ensures workerInfo == Some(id)
      ensures id == if old(workerInfo).Some? then old(workerInfo).value else newId
    {
      if workerInfo.Some? {
        id := workerInfo.value;
      } else {
        workerInfo := Some(newId);
        id := newId;
      }
    }

    /** Inserts a row; the primary key refuses a second row of the same id. */
    method AddTask(id: Id, miner: Address, taskType: TaskType, resourceId: Id, comment: string, now: int)
      returns (ok: bool)
      requires Valid()
      modifies this`rows
      ensures Valid()
      ensures ok == (id !in old(rows))
      ensures rows == if ok then old(rows)[id := NewRow(id, miner, taskType, resourceId, comment, now)] else old(rows)
      ensures ok ==>
                && rows[id].id == id && rows[id].miner == miner.noPrefix && rows[id].resourceId == resourceId
                && rows[id].taskType == taskType && rows[id].comment == comment && rows[id].state == Init
                && rows[id].createAt == now && rows[id].startAt == 0 && rows[id].completeAt == 0
                && rows[id].workerId == "" && rows[id].proof == [] && rows[id].errorMsg == ""
    {
      ok := id !in rows;
      if ok {
        rows := rows[id := NewRow(id, miner, taskType, resourceId, comment, now)];
      }
    }

    method HasTask(id: Id) returns (found: bool)
      ensures found == (id in rows)
    {
      found := id in rows;
    }

    method Fetch(id: Id) returns (task: Option<Task>)
      ensures task == if id in rows then Some(rows[id]) else None
    {
      task := if id in rows then Some(rows[id]) else None;
    }

    method UpdateStatusById(ids: seq<Id>, state: TaskState)
      requires Valid()
      modifies this`rows
      ensures Valid()
      ensures rows == SetState(old(rows), ids, state)
      ensures rows.Keys == old(rows).Keys
      ensures forall t :: t in rows ==> rows[t] == old(rows)[t].(state := if t in ids then state else old(rows)[t].state)
    {
      rows := map t | t in rows :: if t in ids then rows[t].(state := state) else rows[t];
    }

    /** One transaction: select an oldest eligible row, update it under the guard that it is still
        initial, read it back. */
    method FetchOneTodo(worker: WorkerId, types: Option<seq<TaskType>>, now: int) returns (task: Option<Task>)
      requires Valid()
      modifies this`rows
      ensures Valid()
      ensures task.None? <==> forall t :: t in old(rows) ==>
                !(old(rows)[t].state == Init && (types.None? || old(rows)[t].taskType in types.value))
      ensures task.None? ==> rows == old(rows)
      ensures task.Some? ==>
                var t := task.value.id;
                && t in old(rows) && old(rows)[t].state == Init && (types.None? || old(rows)[t].taskType in types.value)
                && (forall u :: u in old(rows) && old(rows)[u].state == Init
                                && (types.None? || old(rows)[u].taskType in types.value)
                                ==> old(rows)[t].createAt <= old(rows)[u].createAt)
                && task.value == old(rows)[t].(state := Running, workerId := worker, startAt := now)
                && rows == old(rows)[t := task.value]
    {
      var todo := set t | t in rows && Eligible(rows, types, t);
      if todo == {} {
        assert forall t :: t in rows && rows[t].state == Init && (types.None? || rows[t].taskType in types.value) ==> t in todo;
        return None;
      }
      OldestExists(rows, todo);
      var t :| t in todo && forall u :: u in todo ==> rows[t].createAt <= rows[u].createAt;
      assert forall u :: u in rows && rows[u].state == Init && (types.None? || rows[u].taskType in types.value) ==> u in todo;
      if rows[t].state == Init {
        rows := rows[t := ClaimedBy(rows[t], worker, now)];
        task := Some(rows[t]);
      } else {
        task := None;
      }
    }

    /** The rows the worker left running, in the order of their creation. */
    method FetchUncompleted(worker: WorkerId) returns (tasks: seq<Task>)
      requires Valid()
      ensures IsUncompleted(rows, worker, tasks)
      ensures forall i :: 0 <= i < |tasks| ==>
                && tasks[i].id in rows && tasks[i] == rows[tasks[i].id]
                && tasks[i].state == Running && tasks[i].workerId == worker
      ensures forall t :: t in rows && rows[t].state == Running && rows[t].workerId == worker
                ==> exists i :: 0 <= i < |tasks| && tasks[i].id == t
      ensures forall i, j :: 0 <= i < j < |tasks| ==> tasks[i].id != tasks[j].id && tasks[i].createAt <= tasks[j].createAt
    {
      var rest := set t | t in rows && RunningBy(rows, t, worker);
      tasks := [];
      while rest != {}
        invariant Collected(rows, worker, tasks, rest)
        decreases |rest|
      {
        OldestExists(rows, rest);
        var t :| t in rest && forall u :: u in rest ==> rows[t].createAt <= rows[u].createAt;
        CollectedGrows(rows, worker, tasks, rest, t);
        tasks := tasks + [rows[t]];
        rest := rest - {t};
      }
      assert forall t :: t in rows && rows[t].state == Running && rows[t].workerId == worker ==> RunningBy(rows, t, worker);
    }

    method RecordError(worker: WorkerId, id: Id, msg: string)
      requires Valid()
      modifies this`rows
      ensures Valid()
      ensures rows == FailRow(old(rows), id, worker, msg)
      ensures rows.Keys == old(rows).Keys && forall t :: t in rows && t != id ==> rows[t] == old(rows)[t]
      ensures id in rows ==>
                rows[id] == old(rows)[id].(state := TaskState.Error, workerId := worker, errorMsg := msg)
    {
      if id in rows {
        rows := rows[id := rows[id].(state := TaskState.Error, workerId := worker, errorMsg := msg)];
      }
    }

    method RecordProof(worker: WorkerId, id: Id, proof: Bytes, now: int)
      requires Valid()
      modifies this`rows
      ensures Valid()
      ensures rows == CompleteRow(old(rows), id, worker, proof, now)
      ensures rows.Keys == old(rows).Keys && forall t :: t in rows && t != id ==> rows[t] == old(rows)[t]
      ensures id in rows ==>
                rows[id] == old(rows)[id].(state := Completed, workerId := worker, proof := proof, errorMsg := "",
                                           completeAt := now)
    {
      if id in rows {
        rows := rows[id := rows[id].(state := Completed, workerId := worker, proof := proof, errorMsg := "", completeAt := now)];
      }
    }
  }

  // ---------------------------------------------------------------- what the statements keep

  /** An unguarded reset leaves every finished row finished if and only if it lists none. */
  lemma ResetIsSafeIff(rows: Rows, ids: seq<Id>)
    ensures (forall t :: t in rows && rows[t].state == Completed ==> SetState(rows, ids, Init)[t] == rows[t])
            <==> (forall t :: t in ids && t in rows ==> rows[t].state != Completed)
  {
  }
}
