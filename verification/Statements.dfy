/** The store as PostgreSQL executes it: one SQL statement at a time, many transactions at once.
    Reads see committed rows; a guarded update re-evaluates its guard on the committed row, waits for the
    row's lock, and stays invisible until its transaction commits; advisory and row locks last to the end. */
module Statements {
  import opened Option
  import opened Records
  import opened AtomicStore

  datatype Client = Worker(worker: int) | Publisher(publisher: int) | Api(request: int)

  /** An open transaction: where it stands, what it has read, and what it will write at commit. */
  datatype Transaction =
    // CreateWorkItem
    | CreateBegun(title: string)
    | CreateInserted(title: string, item: Id)
    // AcceptProcessingJob
    | AcceptBegun(item: Id)
    | AcceptLocked(item: Id)
    | AcceptPending(item: Id)
    | AcceptFree(item: Id)
    | AcceptJobAdded(item: Id, job: Id)
    | AcceptRowAdded(item: Id, job: Id, row: Id)
    // GetProcessingJob
    | InspectBegun(job: Id, item: Id)
    // CompleteProcessingJob
    | CompleteBegun(job: Id, item: Id)
    | CompleteLocked(job: Id, item: Id)
    | CompleteInspected(job: Id, item: Id)
    | CompleteRead(job: Id, item: Id, title: string)
    | CompleteResultAdded(job: Id, item: Id, result: Result)
    | CompleteItemDone(job: Id, item: Id, result: Result, doneItem: Item)
    | CompleteJobDone(job: Id, item: Id, result: Result, doneItem: Item, record: Job)
    // RecordProcessingFailure
    | FailureBegun(job: Id, item: Id, code: string, limit: int)
    | FailureMissed(job: Id, item: Id, code: string, limit: int)
    | FailureWritten(job: Id, item: Id, code: string, limit: int, record: Job)
    // BeginOutboxPublishAttempt, MarkOutboxPublished, RecordOutboxPublishFailure
    | RowBegun(op: Operation)
    | RowWritten(op: Operation, row: Id, update: OutboxRow)

  /** Identity sequences: the next value each will hand out. They never roll back with a transaction. */
  datatype Sequences = Sequences(item: Id, job: Id, row: Id)

  /** What a backup captured: the tables, and the history that led to them. */
  datatype Snapshot = Snapshot(tables: Tables, log: Log)

  /** log is history only: the committed operations and their answers, in the order they took effect. */
  datatype State = State(
    tables: Tables, log: Log, open: map<Client, Transaction>, next: Sequences, backups: set<Snapshot>)

  const START := State(EMPTY, [], map[], Sequences(1, 1, 1), {})

  predicate IsOutbox(op: Operation) {
    op.BeginPublish? || op.MarkPublished? || op.RecordPublishFailure?
  }

  function Open(op: Operation): Transaction {
    match op
    case CreateItem(title) => CreateBegun(title)
    case AcceptJob(item) => AcceptBegun(item)
    case InspectJob(job, item) => InspectBegun(job, item)
    case CompleteJob(job, item) => CompleteBegun(job, item)
    case RecordFailure(job, item, code, limit) => FailureBegun(job, item, code, limit)
    case _ => RowBegun(op)
  }

  /** The operation a transaction carries out. */
  function Purpose(tx: Transaction): Operation {
    match tx
    case CreateBegun(title) => CreateItem(title)
    case CreateInserted(title, _) => CreateItem(title)
    case AcceptBegun(item) => AcceptJob(item)
    case AcceptLocked(item) => AcceptJob(item)
    case AcceptPending(item) => AcceptJob(item)
    case AcceptFree(item) => AcceptJob(item)
    case AcceptJobAdded(item, _) => AcceptJob(item)
    case AcceptRowAdded(item, _, _) => AcceptJob(item)
    case InspectBegun(job, item) => InspectJob(job, item)
    case CompleteBegun(job, item) => CompleteJob(job, item)
    case CompleteLocked(job, item) => CompleteJob(job, item)
    case CompleteInspected(job, item) => CompleteJob(job, item)
    case CompleteRead(job, item, _) => CompleteJob(job, item)
    case CompleteResultAdded(job, item, _) => CompleteJob(job, item)
    case CompleteItemDone(job, item, _, _) => CompleteJob(job, item)
    case CompleteJobDone(job, item, _, _, _) => CompleteJob(job, item)
    case FailureBegun(job, item, code, limit) => RecordFailure(job, item, code, limit)
    case FailureMissed(job, item, code, limit) => RecordFailure(job, item, code, limit)
    case FailureWritten(job, item, code, limit, _) => RecordFailure(job, item, code, limit)
    case RowBegun(op) => op
    case RowWritten(op, _, _) => op
  }

  // ----- Locks -----

  /** Holds the advisory lock of its item from the lock statement to the end of the transaction. */
  predicate HoldsAdvisory(tx: Transaction) {
    || tx.AcceptLocked? || tx.AcceptPending? || tx.AcceptFree? || tx.AcceptJobAdded? || tx.AcceptRowAdded?
    || tx.CompleteLocked? || tx.CompleteInspected? || tx.CompleteRead? || tx.CompleteResultAdded?
    || tx.CompleteItemDone? || tx.CompleteJobDone?
  }

  predicate HoldsItemRow(tx: Transaction, item: Id) {
    (tx.CompleteItemDone? || tx.CompleteJobDone?) && tx.item == item
  }

  predicate HoldsJobRow(tx: Transaction, job: Id) {
    (tx.CompleteJobDone? || tx.FailureWritten?) && tx.job == job
  }

  predicate HoldsOutboxRow(tx: Transaction, row: Id) {
    tx.RowWritten? && tx.row == row
  }

  /** Two transactions want the same advisory key: hash is any function of the item ID. */
  predicate SameKey(hash: Id -> int, a: Transaction, b: Transaction)
    requires (a.AcceptBegun? || a.CompleteBegun? || HoldsAdvisory(a)) && HoldsAdvisory(b)
  {
    hash(a.item) == hash(b.item)
  }

  ghost predicate KeyTaken(hash: Id -> int, s: State, c: Client)
    requires c in s.open && (s.open[c].AcceptBegun? || s.open[c].CompleteBegun?)
  {
    exists d :: d in s.open && d != c && HoldsAdvisory(s.open[d]) && SameKey(hash, s.open[c], s.open[d])
  }

  ghost predicate ItemRowTaken(s: State, c: Client, item: Id) {
    exists d :: d in s.open && d != c && HoldsItemRow(s.open[d], item)
  }

  ghost predicate JobRowTaken(s: State, c: Client, job: Id) {
    exists d :: d in s.open && d != c && HoldsJobRow(s.open[d], job)
  }

  ghost predicate OutboxRowTaken(s: State, c: Client, row: Id) {
    exists d :: d in s.open && d != c && HoldsOutboxRow(s.open[d], row)
  }

  /** ORDER BY id FOR UPDATE SKIP LOCKED LIMIT 1: the first unpublished row nobody has locked. */
  ghost predicate NextRow(s: State, c: Client, row: Id) {
    && IsUnpublished(s.tables, row) && !OutboxRowTaken(s, c, row)
    && forall other :: IsUnpublished(s.tables, other) && other < row ==> OutboxRowTaken(s, c, other)
  }

  // ----- Statements -----

  datatype Outcome =
    | Waits                                         // for a lock
    | Proceeds(tx: Transaction, next: Sequences)    // the statement is done, the transaction stays open
    | Answers(answer: Answer, tables: Tables)       // the transaction ends with an answer
    | Errs                                          // the transaction rolls back with an error

  /** What the next statement of client c does. */
  ghost function Statement(hash: Id -> int, s: State, c: Client): Outcome
    requires c in s.open
  {
    match s.open[c]
    case CreateBegun(title) =>
      Proceeds(CreateInserted(title, s.next.item), s.next.(item := s.next.item + 1))
    case CreateInserted(title, item) =>
      Answers(ItemCreated(item), s.tables.(items := s.tables.items[item := Item(title, Pending)]))
    case AcceptBegun(item) => if KeyTaken(hash, s, c) then Waits else Proceeds(AcceptLocked(item), s.next)
    case CompleteBegun(job, item) => if KeyTaken(hash, s, c) then Waits else Proceeds(CompleteLocked(job, item), s.next)
    case InspectBegun(job, item) => Answers(Inspection(s.tables, job, item), s.tables)
    case FailureBegun(_, _, _, _) => RecordFailureStatement(s, c)
    case FailureMissed(_, _, _, _) => RecordFailureStatement(s, c)
    case FailureWritten(_, _, _, _, _) => RecordFailureStatement(s, c)
    case RowBegun(_) => OutboxStatement(s, c)
    case RowWritten(_, _, _) => OutboxStatement(s, c)
    case tx => if tx.AcceptLocked? || tx.AcceptPending? || tx.AcceptFree? || tx.AcceptJobAdded? || tx.AcceptRowAdded?
               then AcceptStatement(s, c) else CompleteStatement(s, c)
  }

  ghost function AcceptStatement(s: State, c: Client): Outcome
    requires c in s.open
  {
    match s.open[c]
    case AcceptLocked(item) =>
      if item !in s.tables.items then Answers(ItemNotFound, s.tables)
      else if s.tables.items[item].status == Done then Answers(ItemDone, s.tables)
      else Proceeds(AcceptPending(item), s.next)
    case AcceptPending(item) =>
      if HasActive(s.tables, item) then
        var job :| Active(s.tables, item, job);
        Answers(AlreadyActive(job), s.tables)
      else Proceeds(AcceptFree(item), s.next)
    case AcceptFree(item) =>
      // INSERT ... SELECT id FROM work_items: no row when the item is gone.
      if item !in s.tables.items then Answers(ItemNotFound, s.tables)
      else Proceeds(AcceptJobAdded(item, s.next.job), s.next.(job := s.next.job + 1))
    case AcceptJobAdded(item, job) =>
      Proceeds(AcceptRowAdded(item, job, s.next.row), s.next.(row := s.next.row + 1))
    case AcceptRowAdded(item, job, row) =>
      Answers(JobAccepted(job, row),
              s.tables.(jobs := s.tables.jobs[job := NewJob(item)],
                        outbox := s.tables.outbox[row := NewRow(job, item)]))
    case _ => Errs
  }

  ghost function CompleteStatement(s: State, c: Client): Outcome
    requires c in s.open
  {
    match s.open[c]
    case CompleteLocked(job, item) =>
      (match Inspection(s.tables, job, item)
       case JobFound(row) =>
         if Terminal(row) then Answers(AlreadyTerminal(row), s.tables)
         else Proceeds(CompleteInspected(job, item), s.next)
       case refusal => Answers(refusal, s.tables))
    case CompleteInspected(job, item) =>
      if item !in s.tables.items then Answers(ItemRowMissing, s.tables)
      else if s.tables.items[item].status != Pending then Answers(ItemNotPending, s.tables)
      else Proceeds(CompleteRead(job, item, s.tables.items[item].title), s.next)
    case CompleteRead(job, item, title) =>
      Proceeds(CompleteResultAdded(job, item, ResultFor(item, job, title)), s.next)
    case CompleteResultAdded(job, item, result) =>
      if !IsPending(s.tables, item) then Errs  // no row affected: job conflict
      else if ItemRowTaken(s, c, item) then Waits
      else Proceeds(CompleteItemDone(job, item, result, s.tables.items[item].(status := Done)), s.next)
    case CompleteItemDone(job, item, result, doneItem) =>
      if !Active(s.tables, item, job) then Errs  // no row returned: guarded job completion
      else if JobRowTaken(s, c, job) then Waits
      else Proceeds(CompleteJobDone(job, item, result, doneItem, CompletedRow(s.tables.jobs[job])), s.next)
    case CompleteJobDone(job, item, result, doneItem, record) =>
      Answers(CompletedNow(record),
              s.tables.(items := s.tables.items[item := doneItem],
                        jobs := s.tables.jobs[job := record],
                        results := s.tables.results + [result]))
    case _ => Errs
  }

  ghost function RecordFailureStatement(s: State, c: Client): Outcome
    requires c in s.open
  {
    match s.open[c]
    case FailureBegun(job, item, code, limit) =>
      if limit <= 0 || code == "" then Answers(BadArguments, s.tables)
      else if !Active(s.tables, item, job) then Proceeds(FailureMissed(job, item, code, limit), s.next)
      else if JobRowTaken(s, c, job) then Waits
      else Proceeds(FailureWritten(job, item, code, limit, FailedRow(s.tables.jobs[job], code, limit)), s.next)
    case FailureWritten(job, item, code, limit, record) =>
      Answers(if record.state == Failed then Exhausted(record) else Retryable(record),
              s.tables.(jobs := s.tables.jobs[job := record]))
    case FailureMissed(job, item, code, limit) =>
      // The lookup statement: a row that is accepted by now is a conflict.
      (match Inspection(s.tables, job, item)
       case JobFound(row) => if Terminal(row) then Answers(AlreadyTerminal(row), s.tables) else Errs
       case refusal => Answers(refusal, s.tables))
    case _ => Errs
  }

  ghost function OutboxStatement(s: State, c: Client): Outcome
    requires c in s.open
  {
    match s.open[c]
    case RowBegun(BeginPublish) =>
      if exists row :: NextRow(s, c, row) then
        var row :| NextRow(s, c, row);
        Proceeds(RowWritten(BeginPublish, row, s.tables.outbox[row].(attempts := s.tables.outbox[row].attempts + 1)),
            s.next)
      else Answers(NothingToPublish, s.tables)
    case RowBegun(MarkPublished(row)) =>
      if !IsUnpublished(s.tables, row) then Answers(RowMissing, s.tables)
      else if OutboxRowTaken(s, c, row) then Waits
      else Proceeds(RowWritten(MarkPublished(row), row, s.tables.outbox[row].(published := true, lastError := None)),
          s.next)
    case RowBegun(RecordPublishFailure(row, code)) =>
      if !IsUnpublished(s.tables, row) then Answers(RowMissing, s.tables)
      else if OutboxRowTaken(s, c, row) then Waits
      else Proceeds(RowWritten(RecordPublishFailure(row, code), row, s.tables.outbox[row].(lastError := Some(code))),
          s.next)
    case RowWritten(op, row, update) =>
      Answers(if op.BeginPublish? then RowTaken(row, update.payload) else RowUpdated,
              s.tables.(outbox := s.tables.outbox[row := update]))
    case _ => Errs
  }

  // ----- Steps -----

  datatype Action =
    | Begin(client: Client, op: Operation)
    | Run(client: Client)                          // the client's next statement
    | Drop(client: Client)                         // error, rollback or crash: the transaction leaves no trace
    | Backup
    | Restore(backup: Snapshot, restored: Sequences)    // tables and sequences go back, every transaction is gone

  /** Every identity in the tables lies below the sequences. */
  ghost predicate Below(t: Tables, next: Sequences) {
    && (forall item :: item in t.items ==> item < next.item)
    && (forall job :: job in t.jobs ==> job < next.job)
    && (forall row :: row in t.outbox ==> row < next.row)
  }

  ghost predicate Next(hash: Id -> int, s: State, action: Action, s': State) {
    match action
    case Begin(c, op) => c !in s.open && s' == s.(open := s.open[c := Open(op)])
    case Run(c) =>
      c in s.open &&
      (match Statement(hash, s, c)
       case Waits => false
       case Proceeds(tx, next) => s' == s.(open := s.open[c := tx], next := next)
       case Answers(answer, tables) =>
         s' == s.(tables := tables, log := s.log + [Entry(Purpose(s.open[c]), answer)], open := s.open - {c})
       case Errs => s' == s.(open := s.open - {c}))
    case Drop(c) => c in s.open && s' == s.(open := s.open - {c})
    case Backup => s' == s.(backups := s.backups + {Snapshot(s.tables, s.log)})
    case Restore(backup, restored) =>
      backup in s.backups && Below(backup.tables, restored)
      && s' == s.(tables := backup.tables, log := backup.log, open := map[], next := restored)
  }

  /** A finite run from the empty database. */
  ghost predicate Execution(hash: Id -> int, states: seq<State>, actions: seq<Action>) {
    && |states| == |actions| + 1 && states[0] == START
    && forall k :: 0 <= k < |actions| ==> Next(hash, states[k], actions[k], states[k + 1])
  }
}
