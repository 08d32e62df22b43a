/** Content addressing: how resource ids and task ids are formed, and why equal ids mean equal tasks.
    `uuid5` stands for the text of the version 5 UUID (section 4.3 of RFC 4122) of a byte string in
    the OID name space. */
module Addressing {
  import opened Entities
  import opened Resources
  import opened Protocol
  import opened Submissions
  import opened Lease
  import opened Integrity
  import opened Availability

  /** The length of the text form of a UUID (section 3 of RFC 4122). */
  const TEXT_LENGTH: nat := 36

  predicate Is32Bit(code: int) {
    -0x8000_0000 <= code < 0x8000_0000
  }

  // ---------------------------------------------------------------- framing

  /** A 32-bit number as four bytes, the most significant first, negative numbers as their complement. */
  function BigEndian(code: int): (r: Bytes)
    requires Is32Bit(code)
    ensures |r| == 4
  {
    var u := if code < 0 then code + 0x1_0000_0000 else code;
    [(u / 0x100_0000) as byte, (u / 0x1_0000 % 0x100) as byte, (u / 0x100 % 0x100) as byte, (u % 0x100) as byte]
  }

  function FromBigEndian(b: Bytes): int
    requires |b| == 4
  {
    var u := b[0] as int * 0x100_0000 + b[1] as int * 0x1_0000 + b[2] as int * 0x100 + b[3] as int;
    if u >= 0x8000_0000 then u - 0x1_0000_0000 else u
  }

  lemma BigEndianRoundTrip(code: int)
    requires Is32Bit(code)
    ensures FromBigEndian(BigEndian(code)) == code
  {
    var u := if code < 0 then code + 0x1_0000_0000 else code;
    assert u / 0x1_0000 == u / 0x100_0000 * 0x100 + u / 0x1_0000 % 0x100;
    assert u / 0x100 == u / 0x1_0000 * 0x100 + u / 0x100 % 0x100;
  }

  /** What is hashed into a task id. */
  function Frame(payload: Bytes, code: int, rid: Id): Bytes
    requires Is32Bit(code)
  {
    payload + BigEndian(code) + rid
  }

  datatype Parts = Parts(payload: Bytes, code: int, rid: Id)

  /** Reads a frame back from its end. */
  function Unframe(buf: Bytes): Parts
    requires |buf| >= 4 + TEXT_LENGTH
  {
    var mid := |buf| - TEXT_LENGTH;
    Parts(buf[..mid - 4], FromBigEndian(buf[mid - 4..mid]), buf[mid..])
  }

  /** The payload has no fixed length and nothing separates it from the rest; still every frame reads
      back as what was put in, because the two parts behind it have a fixed length. */
  lemma FrameRoundTrip(payload: Bytes, code: int, rid: Id)
    requires Is32Bit(code) && |rid| == TEXT_LENGTH
    ensures Unframe(Frame(payload, code, rid)) == Parts(payload, code, rid)
  {
    var buf := Frame(payload, code, rid);
    var mid := |buf| - TEXT_LENGTH;
    assert buf[..mid - 4] == payload;
    assert buf[mid - 4..mid] == BigEndian(code);
    assert buf[mid..] == rid;
    BigEndianRoundTrip(code);
  }

  lemma FrameInjective(p: Bytes, c: int, r: Id, p': Bytes, c': int, r': Id)
    requires Is32Bit(c) && Is32Bit(c') && |r| == TEXT_LENGTH && |r'| == TEXT_LENGTH
    ensures Frame(p, c, r) == Frame(p', c', r') <==> p == p' && c == c' && r == r'
  {
    FrameRoundTrip(p, c, r);
    FrameRoundTrip(p', c', r');
  }

  /** The fixed length is needed: without it two different tasks could be hashed from the same bytes. */
  lemma FrameAmbiguousOtherwise()
    ensures exists p: Bytes, r: Id, p': Bytes, r': Id :: (p != p' || r != r') && Frame(p, 0, r) == Frame(p', 0, r')
  {
    var p, r := [], [0, 7];
    var p', r' := [0], [7];
    assert Frame(p, 0, r) == [0, 0, 0, 0, 0, 7];
    assert Frame(p', 0, r') == [0, 0, 0, 0, 0, 7];
    assert r != r';
  }

  // ---------------------------------------------------------------- ids

  function ResourceId(uuid5: Bytes -> Id, content: Bytes): Id {
    uuid5(content)
  }

  function TaskBuffer(uuid5: Bytes -> Id, sub: Submission): Bytes {
    Frame(sub.miner.payload, TypeCode(sub.taskType), ResourceId(uuid5, sub.bytes))
  }

  function TaskId(uuid5: Bytes -> Id, sub: Submission): Id {
    uuid5(TaskBuffer(uuid5, sub))
  }

  /** What is hashed for a task of the only type there is: the address payload, four zero bytes, and the id
      of the bytes, in this order and nothing else. */
  lemma TaskBufferLayout(uuid5: Bytes -> Id, sub: Submission)
    ensures var buf := TaskBuffer(uuid5, sub);
            var n := |sub.miner.payload|;
            && buf[..n] == sub.miner.payload
            && |buf| >= n + 4 && buf[n..n + 4] == [0, 0, 0, 0]
            && buf[n + 4..] == uuid5(sub.bytes)
            && TaskId(uuid5, sub) == uuid5(sub.miner.payload + [0, 0, 0, 0] + uuid5(sub.bytes))
  {
    assert TaskBuffer(uuid5, sub) == sub.miner.payload + [0, 0, 0, 0] + uuid5(sub.bytes);
  }

  /** The four bytes of a code are its digits to the base 256, the highest first; a negative code is read
      as its complement. */
  lemma BigEndianDigits(code: int)
    requires Is32Bit(code)
    ensures var b := BigEndian(code);
            b[0] as int * 0x100_0000 + b[1] as int * 0x1_0000 + b[2] as int * 0x100 + b[3] as int
            == if code < 0 then code + 0x1_0000_0000 else code
  {
    BigEndianRoundTrip(code);
  }

  /** The id of a task, as the program builds it: a buffer appended to three times, then hashed. */
  method GenTaskId(uuid5: Bytes -> Id, miner: Address, taskType: TaskType, content: Bytes) returns (id: Id)
    ensures id == TaskId(uuid5, Submission(miner, taskType, content))
    ensures id == uuid5(miner.payload + [0, 0, 0, 0] + uuid5(content))
  {
    var rid := uuid5(content);
    var buf: Bytes := [];
    buf := buf + miner.payload;
    buf := buf + BigEndian(TypeCode(taskType));
    buf := buf + rid;
    assert buf == TaskBuffer(uuid5, Submission(miner, taskType, content));
    TaskBufferLayout(uuid5, Submission(miner, taskType, content));
    id := uuid5(buf);
  }

  /** The system run with the program's own ids. */
  function Addressed(uuid5: Bytes -> Id, computes: (Bytes, Bytes) -> bool, kind: StoreKind, subs: set<Submission>): Config {
    Config(sub => TaskId(uuid5, sub), content => ResourceId(uuid5, content), computes, kind, subs)
  }

  /** Every byte string that is hashed for the submissions of a run. */
  function Hashed(uuid5: Bytes -> Id, subs: set<Submission>): set<Bytes> {
    (set a | a in subs :: a.bytes) + (set a | a in subs :: TaskBuffer(uuid5, a))
  }

  /** On the byte strings of the run the hash has the length of a UUID text and does not collide. */
  ghost predicate CollisionFree(uuid5: Bytes -> Id, subs: set<Submission>) {
    && (forall x :: x in Hashed(uuid5, subs) ==> |uuid5(x)| == TEXT_LENGTH)
    && (forall x, y :: x in Hashed(uuid5, subs) && y in Hashed(uuid5, subs) && uuid5(x) == uuid5(y) ==> x == y)
  }

  /** A task id stands for the address payload, the type and the bytes, and for nothing else: two
      addresses with the same payload share their tasks. */
  lemma TaskIdsEqualIff(uuid5: Bytes -> Id, subs: set<Submission>, a: Submission, b: Submission)
    requires CollisionFree(uuid5, subs) && a in subs && b in subs
    ensures ResourceId(uuid5, a.bytes) == ResourceId(uuid5, b.bytes) <==> a.bytes == b.bytes
    ensures TaskId(uuid5, a) == TaskId(uuid5, b)
            <==> a.miner.payload == b.miner.payload && a.taskType == b.taskType && a.bytes == b.bytes
  {
    assert a.bytes in Hashed(uuid5, subs) && b.bytes in Hashed(uuid5, subs);
    assert TaskBuffer(uuid5, a) in Hashed(uuid5, subs) && TaskBuffer(uuid5, b) in Hashed(uuid5, subs);
    FrameInjective(a.miner.payload, TypeCode(a.taskType), uuid5(a.bytes),
                   b.miner.payload, TypeCode(b.taskType), uuid5(b.bytes));
  }

  lemma AddressedNoCollision(uuid5: Bytes -> Id, computes: (Bytes, Bytes) -> bool, kind: StoreKind, subs: set<Submission>)
    requires CollisionFree(uuid5, subs)
    ensures NoCollision(Addressed(uuid5, computes, kind, subs))
  {
    var c := Addressed(uuid5, computes, kind, subs);
    forall a, b | a in c.subs && b in c.subs
      ensures (c.tid(a) == c.tid(b) ==> a.bytes == b.bytes) && (c.rid(a.bytes) == c.rid(b.bytes) ==> a.bytes == b.bytes)
    {
      TaskIdsEqualIff(uuid5, subs, a, b);
    }
  }

  /** The bytes determine the task exactly when they name the miner, as the plugin's input does. */
  lemma BytesDetermineTaskIff(uuid5: Bytes -> Id, computes: (Bytes, Bytes) -> bool, kind: StoreKind, subs: set<Submission>)
    requires CollisionFree(uuid5, subs)
    ensures BytesDetermineTask(Addressed(uuid5, computes, kind, subs))
            <==> forall a, b :: a in subs && b in subs && a.bytes == b.bytes ==> a.miner.payload == b.miner.payload
  {
    var c := Addressed(uuid5, computes, kind, subs);
    forall a, b | a in subs && b in subs
      ensures c.rid(a.bytes) == c.rid(b.bytes) <==> a.bytes == b.bytes
      ensures c.tid(a) == c.tid(b) <==> a.miner.payload == b.miner.payload && a.taskType == b.taskType && a.bytes == b.bytes
    {
      TaskIdsEqualIff(uuid5, subs, a, b);
    }
  }

  /** End to end with the program's own ids: on every run the operator forges no proof in, a request
      is answered with a proof computed from exactly its own bytes. */
  lemma AddressedEndToEnd(uuid5: Bytes -> Id, computes: (Bytes, Bytes) -> bool, kind: StoreKind, subs: set<Submission>,
                          now: int, steps: seq<Step>, r: nat)
    requires CollisionFree(uuid5, subs)
    requires var c := Addressed(uuid5, computes, kind, subs);
             IsRun(c, Start(now), steps) && NoForgery(c, Start(now), steps) && r in After(c, Start(now), steps).reqs
    ensures var req := After(Addressed(uuid5, computes, kind, subs), Start(now), steps).reqs[r];
            req.pc.Finished? && req.pc.answer.GotProof? ==> computes(req.sub.bytes, req.pc.answer.proof)
  {
    AddressedNoCollision(uuid5, computes, kind, subs);
    EndToEnd(Addressed(uuid5, computes, kind, subs), now, steps, r);
  }

  /** Inputs with the program's own ids: where equal bytes come with equal address payloads, over
      every run that breaks no lease and starves no task, every task that is not completed finds in the store the very bytes of whoever
      submitted it. */
  lemma AddressedInputsAreRight(uuid5: Bytes -> Id, computes: (Bytes, Bytes) -> bool, kind: StoreKind, subs: set<Submission>,
                                now: int, steps: seq<Step>, a: Submission)
    requires CollisionFree(uuid5, subs) && a in subs
    requires forall x, y :: x in subs && y in subs && x.bytes == y.bytes ==> x.miner.payload == y.miner.payload
    requires var c := Addressed(uuid5, computes, kind, subs);
             IsRun(c, Start(now), steps) && NeverBreaks(c, Start(now), steps) && NeverStarves(c, Start(now), steps)
    ensures var s := After(Addressed(uuid5, computes, kind, subs), Start(now), steps);
            var t := TaskId(uuid5, a);
            t in s.rows && s.rows[t].state != Completed ==>
              s.rows[t].resourceId == ResourceId(uuid5, a.bytes)
              && s.rows[t].resourceId in s.files && s.files[s.rows[t].resourceId] == a.bytes
  {
    var c := Addressed(uuid5, computes, kind, subs);
    AddressedNoCollision(uuid5, computes, kind, subs);
    BytesDetermineTaskIff(uuid5, computes, kind, subs);
    InputsAreRight(c, now, steps, a);
  }

  /** Submissions with the program's own ids: over every run, two submissions that succeed are answered
      with the same id if and only if their address payloads, types and bytes are the same. */
  lemma AddressedSubmissionsAgree(uuid5: Bytes -> Id, computes: (Bytes, Bytes) -> bool, kind: StoreKind, subs: set<Submission>,
                                  now: int, steps: seq<Step>, j: nat, k: nat)
    requires CollisionFree(uuid5, subs)
    requires var c := Addressed(uuid5, computes, kind, subs);
             IsRun(c, Start(now), steps)
             && var s := After(c, Start(now), steps);
             && j in s.adds && s.adds[j].pc.Returned? && s.adds[j].pc.id.Some?
             && k in s.adds && s.adds[k].pc.Returned? && s.adds[k].pc.id.Some?
    ensures var s := After(Addressed(uuid5, computes, kind, subs), Start(now), steps);
            var a, b := s.adds[j].sub, s.adds[k].sub;
            && s.adds[k].pc.id.value in s.rows
            && (s.adds[j].pc.id == s.adds[k].pc.id
                <==> a.miner.payload == b.miner.payload && a.taskType == b.taskType && a.bytes == b.bytes)
  {
    var c := Addressed(uuid5, computes, kind, subs);
    SubmissionsAgree(c, now, steps, j, k);
    RunKnown(c, Start(now), steps);
    var s := After(c, Start(now), steps);
    TaskIdsEqualIff(uuid5, subs, s.adds[j].sub, s.adds[k].sub);
  }
}
