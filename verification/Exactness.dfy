/** The two conditions on ids are exact: where one fails, some run goes wrong for some computation. */
module Exactness {
  import opened Entities
  import opened TaskTable
  import opened Resources
  import opened Protocol
  import opened Integrity
  import opened Lease
  import opened Discipline
  import opened Availability
  import opened Reachability
  import opened Witnesses
  import Pipeline

  // ---------------------------------------------------------------- wrong answers

  ghost predicate RightAnswer(c: Config, req: Request) {
    req.pc.Finished? && req.pc.answer.GotProof? ==> c.computes(req.sub.bytes, req.pc.answer.proof)
  }

  /** Whatever happens, short of a forgery, every proof answered with is one of the request's own bytes. */
  ghost predicate AlwaysRight(c: Config) {
    forall steps, r :: IsRun(c, Start(0), steps) && NoForgery(c, Start(0), steps) && r in After(c, Start(0), steps).reqs
                       ==> RightAnswer(c, After(c, Start(0), steps).reqs[r])
  }

  lemma ReachedIsRight(c: Config, s: World, r: nat)
    requires AlwaysRight(c) && Reaches(c, Start(0), s) && r in s.reqs
    ensures RightAnswer(c, s.reqs[r])
  {
    var steps :| IsRun(c, Start(0), steps) && IsProper(c, Start(0), steps) && After(c, Start(0), steps) == s;
    DisciplinedForgesNothing(c, Start(0), steps);
  }

  /** A request for a task that has been completed is answered with its proof. */
  lemma CompletedIsAnswered(c: Config, s: World, b: Submission, proof: Bytes)
    requires b in c.subs && s.reqs == map[] && s.adds.Keys <= {0, 1}
    requires c.tid(b) in s.rows && s.rows[c.tid(b)].state == Completed && s.rows[c.tid(b)].proof == proof
    ensures Reaches(c, s, Answered(LookedUp(c, s, 0, b), 0, proof))
  {
    hide Reaches;
    TaskCanBeLookedUp(c, s, 0, b, 2);
    PollMove(c, LookedUp(c, s, 0, b), 0, proof);
    hide Enabled, Apply, LookedUp;
    Then(c, s, LookedUp(c, s, 0, b), ReqPoll(0));
  }

  /** Two submissions share a task: the second is answered with a proof of the first. */
  lemma SharedTaskGivesForeignProof(c: Config, w: WorkerId, a: Submission, b: Submission, proof: Bytes) returns (s: World)
    requires a in c.subs && b in c.subs && c.tid(a) == c.tid(b) && c.computes(a.bytes, proof)
    ensures Reaches(c, Start(0), s) && 0 in s.reqs && s.reqs[0].sub == b && s.reqs[0].pc == Finished(GotProof(proof))
  {
    var first := WithTask(c, w, a);
    var done := Served(first, w, c.tid(a), proof);
    s := Answered(LookedUp(c, done, 0, b), 0, proof);
    TaskWaits(c, w, a);
    hide Reaches;
    TaskCanBeCompleted(c, first, w, c.tid(a), 0, proof);
    hide CanServe;
    CompletedIsAnswered(c, done, b, proof);
    ReachesTransitive(c, Start(0), first, done);
    ReachesTransitive(c, Start(0), done, s);
  }

  /** Two tasks share a resource: the second is computed from the bytes of the first. */
  lemma SharedResourceGivesForeignProof(c: Config, w: WorkerId, a: Submission, b: Submission, proof: Bytes) returns (s: World)
    requires a in c.subs && b in c.subs && c.tid(a) != c.tid(b) && c.rid(a.bytes) == c.rid(b.bytes)
    requires c.computes(a.bytes, proof)
    ensures Reaches(c, Start(0), s) && 0 in s.reqs && s.reqs[0].sub == b && s.reqs[0].pc == Finished(GotProof(proof))
  {
    var first := WithTask(c, w, a);
    var both := Submitted(c, first, 1, b);
    var done := Served(both, w, c.tid(b), proof);
    s := Answered(LookedUp(c, done, 0, b), 0, proof);
    TaskWaits(c, w, a);
    hide Reaches;
    TaskCanBeSubmitted(c, first, 1, b);
    assert CanServe(both, w, c.tid(b), 0);
    TaskCanBeCompleted(c, both, w, c.tid(b), 0, proof);
    hide CanServe;
    CompletedIsAnswered(c, done, b, proof);
    ReachesTransitive(c, Start(0), first, both);
    ReachesTransitive(c, Start(0), both, done);
    ReachesTransitive(c, Start(0), done, s);
  }

  /** The computation that succeeds on `content` alone. */
  function Only(content: Bytes): (Bytes, Bytes) -> bool {
    (input, proof) => input == content
  }

  lemma CollisionGivesWrongAnswer(c: Config, a: Submission, b: Submission)
    requires a in c.subs && b in c.subs && a.bytes != b.bytes
    requires c.tid(a) == c.tid(b) || c.rid(a.bytes) == c.rid(b.bytes)
    ensures !AlwaysRight(c.(computes := Only(a.bytes)))
  {
    var d := c.(computes := Only(a.bytes));
    var s: World;
    hide Reaches, AlwaysRight;
    if c.tid(a) == c.tid(b) {
      s := SharedTaskGivesForeignProof(d, "", a, b, []);
    } else {
      s := SharedResourceGivesForeignProof(d, "", a, b, []);
    }
    if AlwaysRight(d) {
      ReachedIsRight(d, s, 0);
    }
  }

  /** End to end, both ways: every run answers every request with a proof of its own bytes, whatever the
      computation is, if and only if the ids of the submissions do not collide. */
  lemma AlwaysRightIff(c: Config)
    ensures NoCollision(c) <==> forall f: (Bytes, Bytes) -> bool :: AlwaysRight(c.(computes := f))
  {
    if NoCollision(c) {
      forall f: (Bytes, Bytes) -> bool ensures AlwaysRight(c.(computes := f)) {
        var d := c.(computes := f);
        forall steps, r | IsRun(d, Start(0), steps) && NoForgery(d, Start(0), steps) && r in After(d, Start(0), steps).reqs
          ensures RightAnswer(d, After(d, Start(0), steps).reqs[r])
        {
          EndToEnd(d, 0, steps, r);
        }
      }
    } else {
      var a, b :| a in c.subs && b in c.subs && a.bytes != b.bytes
                  && (c.tid(a) == c.tid(b) || c.rid(a.bytes) == c.rid(b.bytes));
      CollisionGivesWrongAnswer(c, a, b);
    }
  }

  // ---------------------------------------------------------------- missing inputs

  /** On every disciplined run every input that is still needed is there. */
  ghost predicate AlwaysAvailable(c: Config) {
    forall steps :: IsRun(c, Start(0), steps) && IsDisciplined(c, Start(0), steps)
                    ==> InputsPresent(After(c, Start(0), steps).rows, After(c, Start(0), steps).files)
  }

  lemma ReachedIsAvailable(c: Config, s: World)
    requires AlwaysAvailable(c) && Reaches(c, Start(0), s)
    ensures InputsPresent(s.rows, s.files)
  {
    var steps :| IsRun(c, Start(0), steps) && IsProper(c, Start(0), steps) && After(c, Start(0), steps) == s;
  }

  /** Availability, both ways: on every disciplined run every needed input is there, whatever the
      computation is, if and only if equal resources mean equal tasks. */
  lemma AlwaysAvailableIff(c: Config)
    ensures BytesDetermineTask(c) <==> forall f: (Bytes, Bytes) -> bool :: AlwaysAvailable(c.(computes := f))
  {
    if BytesDetermineTask(c) {
      forall f: (Bytes, Bytes) -> bool ensures AlwaysAvailable(c.(computes := f)) {
        var d := c.(computes := f);
        assert BytesDetermineTask(d);
        forall steps | IsRun(d, Start(0), steps) && IsDisciplined(d, Start(0), steps)
          ensures InputsPresent(After(d, Start(0), steps).rows, After(d, Start(0), steps).files)
        {
          DisciplinedInputsAreAvailable(d, 0, steps);
        }
      }
    } else {
      var a, b :| a in c.subs && b in c.subs && c.rid(a.bytes) == c.rid(b.bytes) && c.tid(a) != c.tid(b);
      var d := c.(computes := Only(a.bytes));
      var s := SharedBytesLoseInput(d, "", a, b, []);
      if AlwaysAvailable(d) {
        ReachedIsAvailable(d, s);
      }
    }
  }
}
