/** The cluster plugin: how a request is turned into a task, and how its answer is found. */
module Plugin {
  import opened Entities
  import opened TaskTable
  import opened Protocol
  import opened Addressing
  import opened Server

  /** The poll loop, on the replies of as many polls as were made: a failed poll, and a row that is neither
      failed nor completed, decide nothing; the first row that is either decides the answer, with its own
      error text or proof. */
  method TraceTaskResult(replies: seq<Option<Task>>) returns (answer: Option<Answer>)
    ensures answer.None? <==> forall i :: 0 <= i < |replies| && replies[i].Some? ==>
              replies[i].value.state != TaskState.Error && replies[i].value.state != Completed
    ensures forall i ::
              && 0 <= i < |replies| && replies[i].Some?
              && (replies[i].value.state == TaskState.Error || replies[i].value.state == Completed)
              && (forall j :: 0 <= j < i && replies[j].Some? ==>
                    replies[j].value.state != TaskState.Error && replies[j].value.state != Completed)
              ==> answer == Some(if replies[i].value.state == Completed then GotProof(replies[i].value.proof)
                                 else GotError(replies[i].value.errorMsg))
  {
    var i := 0;
    while i < |replies|
      invariant 0 <= i <= |replies|
      invariant forall j :: 0 <= j < i && replies[j].Some? ==>
                  replies[j].value.state != TaskState.Error && replies[j].value.state != Completed
    {
      if replies[i].Some? {
        var task := replies[i].value;
        if task.state == TaskState.Error {
          return Some(GotError(task.errorMsg));
        } else if task.state == Completed {
          return Some(GotProof(task.proof));
        }
      }
      i := i + 1;
    }
    answer := None;
  }

  // ---------------------------------------------------------------- the same in the whole system

  /** A poll ends its request if and only if the row is there and is failed or completed, and then with the
      error text or the proof of the row; otherwise the request goes on polling. */
  lemma PollsDecide(c: Config, s: World, r: nat)
    requires r in s.reqs && s.reqs[r].pc.Polling?
    ensures Enabled(c, s, ReqPoll(r))
    ensures var t := c.tid(s.reqs[r].sub);
            var s' := Apply(c, s, ReqPoll(r));
            && s'.rows == s.rows && s'.reqs.Keys == s.reqs.Keys && s'.reqs[r].sub == s.reqs[r].sub
            && (s'.reqs[r].pc == Polling
                <==> !(t in s.rows && (s.rows[t].state == TaskState.Error || s.rows[t].state == Completed)))
            && (t in s.rows && s.rows[t].state == TaskState.Error ==> s'.reqs[r].pc == Finished(GotError(s.rows[t].errorMsg)))
            && (t in s.rows && s.rows[t].state == Completed ==> s'.reqs[r].pc == Finished(GotProof(s.rows[t].proof)))
  {
  }

  /** A lookup submits a task that is missing, under its own bytes, miner and comment; sets about to reset
      one that has failed; traces any other; and changes no row. */
  lemma LookupDecides(c: Config, s: World, r: nat, k: nat, comment: string)
    requires Enabled(c, s, ReqLookup(r, k, comment))
    ensures var sub := s.reqs[r].sub;
            var t := c.tid(sub);
            var s' := Apply(c, s, ReqLookup(r, k, comment));
            && s'.rows == s.rows && s'.files == s.files && r in s'.reqs && s'.reqs[r].sub == sub
            && (t !in s.rows ==> s'.reqs[r].pc == Adding(k) && s'.adds == s.adds[k := AddCall(sub, comment, CheckResource)])
            && (t in s.rows ==> s'.adds == s.adds
                                && s'.reqs[r].pc == if s.rows[t].state == TaskState.Error then Resetting else Polling)
  {
  }

  /** A reset makes its own task initial, whatever it was, and nothing else; the request goes on to trace it
      if the reply arrives, and ends otherwise. A reset that has been given up on may be executed as well. */
  lemma ResetReopens(c: Config, s: World, r: nat, delivered: bool)
    requires r in s.reqs && (s.reqs[r].pc.Resetting? || s.reqs[r].pc.ResetAbandoned?)
    ensures Enabled(c, s, ReqReset(r, delivered))
    ensures var t := c.tid(s.reqs[r].sub);
            var s' := Apply(c, s, ReqReset(r, delivered));
            && s'.rows == (if t in s.rows then s.rows[t := s.rows[t].(state := Init)] else s.rows)
            && s'.reqs[r].pc == if delivered && s.reqs[r].pc.Resetting? then Polling else Finished(GaveUp)
  {
    var t := c.tid(s.reqs[r].sub);
    assert forall u :: u in [t] <==> u == t;
  }

  /** A request traces the task it has submitted once its call has returned an id; an error ends it. */
  lemma AddedDecides(c: Config, s: World, r: nat)
    requires r in s.reqs && s.reqs[r].pc.Adding? && s.reqs[r].pc.call in s.adds && s.adds[s.reqs[r].pc.call].pc.Returned?
    ensures Enabled(c, s, ReqAdded(r))
    ensures Apply(c, s, ReqAdded(r)).reqs[r].pc
            == if s.adds[s.reqs[r].pc.call].pc.id.Some? then Polling else Finished(GaveUp)
  {
  }

  /** A request may fail, or its process die, at any time before it is answered; only a reset it has called
      for outlives it. */
  lemma RequestsMayFail(c: Config, s: World, r: nat)
    requires r in s.reqs && !s.reqs[r].pc.Finished?
    ensures Enabled(c, s, ReqFail(r))
    ensures Apply(c, s, ReqFail(r)).reqs[r].pc == if s.reqs[r].pc.Resetting? then ResetAbandoned else Finished(GaveUp)
    ensures Apply(c, s, ReqFail(r)).rows == s.rows
  {
  }

  // ---------------------------------------------------------------- a request undisturbed

  /** The first part of a request, with nothing in between: look the task up, then reset it if it has
      failed, leave it if it is there, and submit it if it is not. In the end the task is there and
      not failed; a task that had not failed is untouched. */
  method SubmitOrReset(proxy: Proxy, sub: Submission, comment: string, now: int) returns (id: Option<Id>)
    requires proxy.pool.Valid()
    modifies proxy.resource`files, proxy.pool`rows
    ensures proxy.pool.Valid()
    ensures var t := TaskId(proxy.uuid5, sub);
            && id == Some(t)
            && t in proxy.pool.rows && proxy.pool.rows[t].state != TaskState.Error
            && (forall u :: u in old(proxy.pool.rows) && u != t ==>
                  u in proxy.pool.rows && proxy.pool.rows[u] == old(proxy.pool.rows)[u])
    ensures var t := TaskId(proxy.uuid5, sub);
            var rows, files := old(proxy.pool.rows), old(proxy.resource.files);
            && (t in rows ==> proxy.resource.files == files)
            && (t in rows && rows[t].state != TaskState.Error ==> proxy.pool.rows == rows)
            && (t in rows && rows[t].state == TaskState.Error ==> proxy.pool.rows == rows[t := rows[t].(state := Init)])
            && (t !in rows ==>
                  && proxy.pool.rows[t].id == t && proxy.pool.rows[t].miner == sub.miner.noPrefix
                  && proxy.pool.rows[t].taskType == sub.taskType && proxy.pool.rows[t].comment == comment
                  && proxy.pool.rows[t].state == Init && proxy.pool.rows[t].createAt == now
                  && proxy.pool.rows[t].resourceId == proxy.uuid5(sub.bytes)
                  && proxy.pool.rows.Keys == rows.Keys + {t}
                  && proxy.resource.files == if proxy.uuid5(sub.bytes) in files then files
                                             else files[proxy.uuid5(sub.bytes) := sub.bytes])
  {
    var t := GenTaskId(proxy.uuid5, sub.miner, sub.taskType, sub.bytes);
    assert sub == Submission(sub.miner, sub.taskType, sub.bytes);
    var task := proxy.pool.Fetch(t);
    id := Some(t);
    if task.Some? {
      if task.value.state == TaskState.Error {
        proxy.pool.UpdateStatusById([t], Init);
      }
    } else {
      id := proxy.AddTaskInner(sub.miner, sub.taskType, sub.bytes, comment, now);
    }
  }
}
