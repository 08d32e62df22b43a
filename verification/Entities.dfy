/** The values the task queue stores and passes around. */
module Entities {

  newtype byte = x: int | 0 <= x < 256

  type Bytes = seq<byte>

  /** The text of a UUID, as the bytes the program hashes and compares. */
  type Id = Bytes

  type WorkerId = string

  datatype Option<+T> = None | Some(value: T)

  datatype TaskState = Undefined | Init | Running | Error | Completed

  datatype TaskType = C2

  /** The number a task type is written as, both in the table and in a task id. */
  function TypeCode(taskType: TaskType): int {
    match taskType
    case C2 => 0
  }

  /** A miner address: its text without the network letter, and the payload that is hashed. */
  datatype Address = Address(noPrefix: string, payload: Bytes)

  /** What identifies a task: who asks, for what kind of work, on which bytes. */
  datatype Submission = Submission(miner: Address, taskType: TaskType, bytes: Bytes)

  /** One row of the task table. */
  datatype Task = Task(
    id: Id, miner: string, resourceId: Id, proof: Bytes, workerId: WorkerId, taskType: TaskType,
    errorMsg: string, comment: string, state: TaskState, createAt: int, startAt: int, completeAt: int)

  /** What the computation of a task ends in. */
  datatype Outcome = Proof(proof: Bytes) | Failure(msg: string)
}
