/** How a worker turns what the store told it into the fate of a delivery. */
module Settlement {
  import opened Option
  import opened Records
  import opened AtomicStore

  datatype Settlement = Ack | Reject | NackRequeue

  /** What a caller of the store sees: an answer, or an error that leaves the outcome open. */
  datatype Reply = Heard(answer: Answer) | StoreError

  /** None: the job is accepted, go on with the processing attempt. */
  function AfterInspection(reply: Reply): Option<Settlement> {
    match reply
    case Heard(JobFound(row)) => if Terminal(row) then Some(Ack) else None
    case Heard(JobNotFound) => Some(Reject)
    case Heard(JobMismatch) => Some(Reject)
    case _ => Some(NackRequeue)
  }

  function AfterCompletion(reply: Reply): Settlement {
    match reply
    case Heard(CompletedNow(_)) => Ack
    case Heard(AlreadyTerminal(_)) => Ack
    case Heard(ItemNotPending) => Reject
    case Heard(JobNotFound) => Reject
    case Heard(JobMismatch) => Reject
    case _ => NackRequeue
  }

  function AfterFailure(reply: Reply): Settlement {
    match reply
    case Heard(Exhausted(_)) => Ack
    case Heard(AlreadyTerminal(_)) => Ack
    case Heard(JobNotFound) => Reject
    case Heard(JobMismatch) => Reject
    case _ => NackRequeue
  }
}
