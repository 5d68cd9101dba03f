/** The specification: every store operation as one indivisible step on the committed tables.
    A log of steps replays to the tables that any correct execution must end with. */
module AtomicStore {
  import opened Option
  import opened Records

  datatype Operation =
    | CreateItem(title: string)
    | AcceptJob(item: Id)
    | InspectJob(job: Id, item: Id)
    | CompleteJob(job: Id, item: Id)
    | RecordFailure(job: Id, item: Id, code: string, limit: int)
    | BeginPublish
    | MarkPublished(row: Id)
    | RecordPublishFailure(row: Id, code: string)

  datatype Answer =
    | ItemCreated(item: Id)
    | JobAccepted(job: Id, row: Id) | AlreadyActive(job: Id) | ItemDone | ItemNotFound
    | JobNotFound | JobMismatch | JobFound(record: Job)
    | CompletedNow(record: Job) | AlreadyTerminal(record: Job) | ItemNotPending | ItemRowMissing
    | Retryable(record: Job) | Exhausted(record: Job) | BadArguments
    | RowTaken(row: Id, payload: Message) | NothingToPublish
    | RowUpdated | RowMissing

  datatype Entry = Entry(op: Operation, answer: Answer)

  type Log = seq<Entry>

  /** GetProcessingJob. */
  function Inspection(t: Tables, job: Id, item: Id): Answer {
    if job !in t.jobs then JobNotFound
    else if t.jobs[job].item != item then JobMismatch
    else JobFound(t.jobs[job])
  }

  ghost predicate Acceptance(t: Tables, item: Id, answer: Answer) {
    if item !in t.items then answer == ItemNotFound
    else if t.items[item].status == Done then answer == ItemDone
    else match answer
      case AlreadyActive(job) => Active(t, item, job)
      case JobAccepted(job, row) => job !in t.jobs && row !in t.outbox && !HasActive(t, item)
      case _ => false
  }

  /** CompleteProcessingJob. A missing item row is a plain database error to the caller. */
  function Completion(t: Tables, job: Id, item: Id): Answer {
    match Inspection(t, job, item)
    case JobFound(row) =>
      if Terminal(row) then AlreadyTerminal(row)
      else if item !in t.items then ItemRowMissing
      else if t.items[item].status != Pending then ItemNotPending
      else CompletedNow(CompletedRow(row))
    case refusal => refusal
  }

  /** RecordProcessingFailure. */
  function FailureRecording(t: Tables, job: Id, item: Id, code: string, limit: int): Answer {
    if limit <= 0 || code == "" then BadArguments
    else match Inspection(t, job, item)
      case JobFound(row) =>
        var failed := FailedRow(row, code, limit);
        if Terminal(row) then AlreadyTerminal(row)
        else if failed.state == Failed then Exhausted(failed)
        else Retryable(failed)
      case refusal => refusal
  }

  /** SKIP LOCKED may overlook a row, so "nothing to publish" is always a possible answer. */
  predicate PublishBeginning(t: Tables, answer: Answer) {
    match answer
    case RowTaken(row, payload) => IsUnpublished(t, row) && payload == t.outbox[row].payload
    case NothingToPublish => true
    case _ => false
  }

  /** The answer is a correct one for the operation in these tables. */
  ghost predicate Allowed(t: Tables, e: Entry) {
    match e.op
    case CreateItem(_) => e.answer.ItemCreated? && e.answer.item !in t.items
    case AcceptJob(item) => Acceptance(t, item, e.answer)
    case InspectJob(job, item) => e.answer == Inspection(t, job, item)
    case CompleteJob(job, item) => e.answer == Completion(t, job, item)
    case RecordFailure(job, item, code, limit) => e.answer == FailureRecording(t, job, item, code, limit)
    case BeginPublish => PublishBeginning(t, e.answer)
    case MarkPublished(row) => e.answer == if IsUnpublished(t, row) then RowUpdated else RowMissing
    case RecordPublishFailure(row, _) => e.answer == if IsUnpublished(t, row) then RowUpdated else RowMissing
  }

  /** The tables after the operation has answered. */
  ghost function Effect(t: Tables, e: Entry): Tables
    requires Allowed(t, e)
  {
    match (e.op, e.answer)
    case (CreateItem(title), ItemCreated(item)) =>
      t.(items := t.items[item := Item(title, Pending)])
    case (AcceptJob(item), JobAccepted(job, row)) =>
      t.(jobs := t.jobs[job := NewJob(item)], outbox := t.outbox[row := NewRow(job, item)])
    case (CompleteJob(job, item), CompletedNow(record)) =>
      t.(items := t.items[item := t.items[item].(status := Done)],
         jobs := t.jobs[job := record],
         results := t.results + [ResultFor(item, job, t.items[item].title)])
    case (RecordFailure(job, _, _, _), Retryable(record)) => t.(jobs := t.jobs[job := record])
    case (RecordFailure(job, _, _, _), Exhausted(record)) => t.(jobs := t.jobs[job := record])
    case (BeginPublish, RowTaken(row, _)) =>
      t.(outbox := t.outbox[row := t.outbox[row].(attempts := t.outbox[row].attempts + 1)])
    case (MarkPublished(row), RowUpdated) =>
      t.(outbox := t.outbox[row := t.outbox[row].(published := true, lastError := None)])
    case (RecordPublishFailure(row, code), RowUpdated) =>
      t.(outbox := t.outbox[row := t.outbox[row].(lastError := Some(code))])
    case _ => t
  }

  /** Every answer of the log was correct when it was given. */
  ghost predicate Faithful(log: Log)
    decreases |log|, 0
  {
    log == [] ||
    (var init := log[..|log| - 1]; Faithful(init) && Allowed(Replay(init), log[|log| - 1]))
  }

  /** The tables that executing the log, one whole operation after the other, produces. */
  ghost function Replay(log: Log): Tables
    requires Faithful(log)
    decreases |log|, 1
  {
    if log == [] then EMPTY
    else
      var init := log[..|log| - 1];
      Effect(Replay(init), log[|log| - 1])
  }

  lemma FaithfulExtend(log: Log, e: Entry)
    requires Faithful(log) && Allowed(Replay(log), e)
    ensures Faithful(log + [e]) && Replay(log + [e]) == Effect(Replay(log), e)
  {
    assert (log + [e])[..|log + [e]| - 1] == log;
  }

  lemma {:induction false} FaithfulPrefix(log: Log, n: nat)
    requires Faithful(log) && n <= |log|
    ensures Faithful(log[..n])
    decreases |log| - n
  {
    if n < |log| {
      FaithfulPrefix(log, n + 1);
      assert log[..n + 1][..n] == log[..n];
    } else {
      assert log[..n] == log;
    }
  }

  /** The tables just before entry n of the log. */
  ghost function Before(log: Log, n: nat): Tables
    requires Faithful(log) && n <= |log|
  {
    FaithfulPrefix(log, n);
    Replay(log[..n])
  }

  lemma EntryAt(log: Log, n: nat)
    requires Faithful(log) && n < |log|
    ensures Allowed(Before(log, n), log[n])
    ensures Before(log, n + 1) == Effect(Before(log, n), log[n])
  {
    FaithfulPrefix(log, n + 1);
    assert log[..n + 1][..n] == log[..n];
  }
}
