/** The four tables of the Work Items database, as committed values. */
module Records {
  import opened Option
  import TitleAnalysis

  type Id = int

  datatype ItemStatus = Pending | Done

  datatype Item = Item(title: string, status: ItemStatus)

  datatype JobState = Accepted | Succeeded | Failed

  /** finished stands for "finished_at is not null". */
  datatype Job = Job(item: Id, state: JobState, attempts: nat, lastError: Option<string>, finished: bool)

  /** The two identities a work_item.process message carries. */
  datatype Message = Message(job: Id, item: Id)

  /** published stands for "published_at is not null". */
  datatype OutboxRow = OutboxRow(job: Id, payload: Message, attempts: nat, lastError: Option<string>, published: bool)

  datatype Result = Result(item: Id, job: Id, title: string, version: nat, characters: nat, words: nat)

  /** Results form a sequence: nothing here makes a result unique, the protocol has to. */
  datatype Tables = Tables(
    items: map<Id, Item>,
    jobs: map<Id, Job>,
    outbox: map<Id, OutboxRow>,
    results: seq<Result>)

  const EMPTY := Tables(map[], map[], map[], [])

  const MAX_ATTEMPTS := 3
  const FAILURE_CODE := "processing_failed"
  const PUBLISH_FAILURE_CODE := "broker_publish_failed"

  function NewJob(item: Id): Job {
    Job(item, Accepted, 0, None, false)
  }

  function NewRow(job: Id, item: Id): OutboxRow {
    OutboxRow(job, Message(job, item), 0, None, false)
  }

  function ResultFor(item: Id, job: Id, title: string): Result {
    var (characters, words) := TitleAnalysis.Analyze(title);
    Result(item, job, title, 1, characters, words)
  }

  function CompletedRow(row: Job): Job {
    row.(state := Succeeded, attempts := row.attempts + 1, lastError := None, finished := true)
  }

  function FailedRow(row: Job, code: string, limit: int): Job {
    if row.attempts + 1 >= limit
    then row.(attempts := row.attempts + 1, lastError := Some(code), state := Failed, finished := true)
    else row.(attempts := row.attempts + 1, lastError := Some(code), state := Accepted, finished := false)
  }

  predicate Terminal(row: Job) {
    row.state == Succeeded || row.state == Failed
  }

  predicate HasJob(t: Tables, job: Id, state: JobState) {
    job in t.jobs && t.jobs[job].state == state
  }

  /** The job is an accepted job of the item. */
  predicate Active(t: Tables, item: Id, job: Id) {
    HasJob(t, job, Accepted) && t.jobs[job].item == item
  }

  ghost predicate HasActive(t: Tables, item: Id) {
    exists job :: Active(t, item, job)
  }

  predicate IsPending(t: Tables, item: Id) {
    item in t.items && t.items[item].status == Pending
  }

  predicate IsUnpublished(t: Tables, row: Id) {
    row in t.outbox && !t.outbox[row].published
  }
}
