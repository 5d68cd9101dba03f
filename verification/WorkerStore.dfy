/** The worker's store, statement by statement as the code issues them, with other clients committing in between. */
module WorkerStore {
  import opened Option
  import opened Records
  import opened AtomicStore
  import opened History
  import opened Settlement
  import opened Database
  import opened SuccessInvariant

  /** The SELECT of GetProcessingJob. */
  method ReadJob(db: Database, job: Id, item: Id) returns (answer: Answer)
    ensures answer == Inspection(db.tables, job, item)
  {
    if job !in db.tables.jobs {
      return JobNotFound;
    }
    var row := db.tables.jobs[job];
    if row.item != item {
      return JobMismatch;
    }
    return JobFound(row);
  }

  method GetProcessingJob(db: Database, job: Id, item: Id, glitch: Glitch) returns (reply: Reply)
    requires db.Valid()
    modifies db
    ensures db.Valid() && db.Did(InspectJob(job, item), reply, glitch) && db.tables == old(db.tables)
    ensures glitch == Clear ==> reply.Heard?
    ensures reply.Heard? ==> reply.answer == if job !in db.tables.jobs then JobNotFound
                                             else if db.tables.jobs[job].item != item then JobMismatch
                                             else JobFound(db.tables.jobs[job])
  {
    ghost var op := InspectJob(job, item);
    if glitch == StatementFails {
      reply := db.Abort(op);
      return;
    }
    var answer := ReadJob(db, job, item);
    reply := db.Finish(op, answer, db.tables, glitch);
  }

  /** The two reads of a completion: its refusal, or the title of the pending item. */
  method ReadForCompletion(db: Database, job: Id, item: Id) returns (refusal: Option<Answer>, title: string)
    ensures refusal == if Completion(db.tables, job, item).CompletedNow?
            then None else Some(Completion(db.tables, job, item))
    ensures refusal.None? ==>
              Active(db.tables, item, job) && IsPending(db.tables, item) && db.tables.items[item].title == title
  {
    title := "";
    var inspection := ReadJob(db, job, item);
    if !inspection.JobFound? {
      return Some(inspection), title;
    }
    var row := inspection.record;
    if row.state == Succeeded || row.state == Failed {
      return Some(AlreadyTerminal(row)), title;
    }
    if item !in db.tables.items {
      return Some(ItemRowMissing), title;
    }
    title := db.tables.items[item].title;
    if db.tables.items[item].status != Pending {
      return Some(ItemNotPending), title;
    }
    return None, title;
  }

  /** CompleteProcessingJob. Holding the item's lock it has the atomic effect of its last statement, or none. Without a
      glitch it errs only if its job failed under its hands. */
  method CompleteProcessingJob(db: Database, job: Id, item: Id, glitch: Glitch) returns (reply: Reply)
    requires db.Valid()
    modifies db
    ensures db.Valid() && db.Did(CompleteJob(job, item), reply, glitch)
    ensures glitch == Clear && reply == StoreError ==>
              HasJob(db.tables, job, Failed) && db.tables.jobs[job].item == item
    ensures reply.Heard? ==> db.log != [] && CompletionSays(db.Previous(), db.tables, job, item, reply.answer)
  {
    ghost var op := CompleteJob(job, item);
    if glitch == StatementFails {
      reply := db.Abort(op);
      return;
    }
    db.Interference();  // until the lock is granted
    var refusal, title := ReadForCompletion(db, job, item);
    if refusal.Some? {
      reply := db.Finish(op, refusal.value, db.tables, glitch);
      LastCompletion(db.log, job, item);
      return;
    }
    ghost var read := db.log;
    reply := WriteCompletion(db, job, item, title, glitch);
    if reply.Heard? {
      LastCompletion(db.log, job, item);
    }
    if glitch == Clear && reply == StoreError {
      UntouchedItem(read, db.log, item);
    }
  }

  /** What a completion did, field by field: the job counted one more attempt and succeeded, its item is done, and one
      result was added, with the title, its characters and its words. Or the job was terminal, or was not there. */
  ghost predicate CompletionSays(t: Tables, t': Tables, job: Id, item: Id, answer: Answer) {
    match answer
    case CompletedNow(record) =>
      && job in t.jobs && t.jobs[job].item == item && t.jobs[job].state == Accepted
      && item in t.items && t.items[item].status == Pending
      && record == Job(item, Succeeded, t.jobs[job].attempts + 1, None, true)
      && var title := t.items[item].title;
         t' == Tables(t.items[item := Item(title, Done)], t.jobs[job := record], t.outbox,
                      t.results + [Result(item, job, title, 1, |title|, TitleAnalysis.WordStarts(title, true))])
    case AlreadyTerminal(record) =>
      t' == t && job in t.jobs && record == t.jobs[job] && record.item == item && record.state != Accepted
    case JobNotFound => t' == t && job !in t.jobs
    case JobMismatch => t' == t && job in t.jobs && t.jobs[job].item != item
    case _ => false
  }

  lemma LastCompletion(log: Log, job: Id, item: Id)
    requires Faithful(log) && log != [] && log[|log| - 1].op == CompleteJob(job, item)
    ensures CompletionSays(Before(log, |log| - 1), Replay(log), job, item, log[|log| - 1].answer)
  {
    var t := Before(log, |log| - 1);
    FaithfulIsSound(log[..|log| - 1]);
    if Active(t, item, job) {
      AcceptedMeansPending(t, job);
      TitleAnalysis.FieldsCountTransitions(t.items[item].title);
    }
  }

  /** The guarded update of the job, its row found and locked, and the commit that makes all three writes visible. */
  method CommitCompletion(db: Database, job: Id, item: Id, result: Result, doneItem: Item, glitch: Glitch)
    returns (reply: Reply)
    requires db.Valid() && glitch != StatementFails && Active(db.tables, item, job) && IsPending(db.tables, item)
    requires result == ResultFor(item, job, db.tables.items[item].title)
    requires doneItem == db.tables.items[item].(status := Done)
    modifies db
    ensures db.Valid() && db.Did(CompleteJob(job, item), reply, glitch)
    ensures glitch == Clear ==> reply.Heard?
  {
    var row := db.tables.jobs[job];
    var completed := Job(row.item, Succeeded, row.attempts + 1, None, true);
    var staged := db.tables.(results := db.tables.results + [result]);
    staged := staged.(items := staged.items[item := doneItem]);
    staged := staged.(jobs := staged.jobs[job := completed]);
    reply := db.Finish(CompleteJob(job, item), CompletedNow(completed), staged, glitch);
  }

  lemma StillPending(log: Log, log': Log, item: Id)
    requires Faithful(log) && Faithful(log') && Untouched(log, log', item) && IsPending(Replay(log), item)
    ensures IsPending(Replay(log'), item) && Replay(log').items[item] == Replay(log).items[item]
  {
    UntouchedItem(log, log', item);
  }

  /** The three writes of a completion, visible together at the commit. Both updates are guarded: each re-reads its row,
      and locks it until the commit. */
  method WriteCompletion(db: Database, job: Id, item: Id, title: string, glitch: Glitch) returns (reply: Reply)
    requires db.Valid() && glitch != StatementFails
    requires Active(db.tables, item, job) && IsPending(db.tables, item) && db.tables.items[item].title == title
    modifies db
    ensures db.Valid() && db.Did(CompleteJob(job, item), reply, glitch)
    ensures glitch == Clear && reply == StoreError ==>
              Untouched(old(db.log), db.log, item) && !(Active(db.tables, item, job) && IsPending(db.tables, item))
  {
    ghost var read := db.log;
    var result := ResultFor(item, job, title);
    db.InterferenceBut(item);
    if item !in db.tables.items || db.tables.items[item].status != Pending {
      reply := db.Abort(CompleteJob(job, item));
      return;
    }
    var doneItem := db.tables.items[item].(status := Done);
    ghost var updated := db.log;
    db.InterferenceBut(item);
    StillPending(read, updated, item);
    StillPending(updated, db.log, item);
    if job !in db.tables.jobs || db.tables.jobs[job].item != item || db.tables.jobs[job].state != Accepted {
      reply := db.Abort(CompleteJob(job, item));
    } else {
      reply := CommitCompletion(db, job, item, result, doneItem, glitch);
    }
  }

  /** The guarded update that finds its row, committed by itself. */
  method CountFailure(db: Database, job: Id, item: Id, code: string, maxAttempts: int, glitch: Glitch)
    returns (reply: Reply)
    requires db.Valid() && maxAttempts > 0 && code != "" && glitch != StatementFails && Active(db.tables, item, job)
    modifies db
    ensures db.Valid() && db.Did(RecordFailure(job, item, code, maxAttempts), reply, glitch)
    ensures glitch == Clear ==> reply.Heard?
  {
    var row := db.tables.jobs[job];
    var last := row.attempts + 1 >= maxAttempts;
    row := row.(attempts := row.attempts + 1, lastError := Some(code),
                state := if last then Failed else Accepted, finished := last);
    reply := db.Finish(RecordFailure(job, item, code, maxAttempts), if last then Exhausted(row) else Retryable(row),
                       db.tables.(jobs := db.tables.jobs[job := row]), glitch);
  }

  /** The lookup after a guarded update that found no row, others having committed in between. */
  method ExplainMiss(db: Database, job: Id, item: Id, code: string, maxAttempts: int, glitch: Glitch)
    returns (reply: Reply)
    requires db.Valid() && maxAttempts > 0 && code != "" && glitch != StatementFails && !Active(db.tables, item, job)
    modifies db
    ensures db.Valid() && db.Did(RecordFailure(job, item, code, maxAttempts), reply, glitch)
    ensures glitch == Clear && reply == StoreError ==> job !in old(db.tables).jobs && Active(db.tables, item, job)
  {
    ghost var op, missed := RecordFailure(job, item, code, maxAttempts), db.log;
    db.Interference();
    var lookup := ReadJob(db, job, item);
    if lookup.JobFound? && lookup.record.state == Accepted {
      LaterTables(missed, db.log);
      reply := db.Abort(op);
      return;
    }
    reply := db.Finish(op, if lookup.JobFound? then AlreadyTerminal(lookup.record) else lookup, db.tables, glitch);
  }

  /** RecordProcessingFailure. No lock is held before the guarded update. Without a glitch it errs only if the job was
      missing at the update and accepted at the lookup. */
  method RecordProcessingFailure(db: Database, job: Id, item: Id, code: string, maxAttempts: int, glitch: Glitch)
    returns (reply: Reply)
    requires db.Valid()
    modifies db
    ensures db.Valid()
    ensures db.Did(RecordFailure(job, item, code, maxAttempts), reply,
                   if maxAttempts <= 0 || code == "" then Clear else glitch)
    ensures glitch == Clear && reply == StoreError ==> job !in old(db.tables).jobs && Active(db.tables, item, job)
    ensures reply.Heard? ==>
              db.log != [] && FailureSays(db.Previous(), db.tables, job, item, code, maxAttempts, reply.answer)
  {
    ghost var op := RecordFailure(job, item, code, maxAttempts);
    if maxAttempts <= 0 || code == "" {
      reply := db.Finish(op, BadArguments, db.tables, Clear);
    } else if glitch == StatementFails {
      reply := db.Abort(op);
    } else if job in db.tables.jobs && db.tables.jobs[job].item == item && db.tables.jobs[job].state == Accepted {
      reply := CountFailure(db, job, item, code, maxAttempts, glitch);
    } else {
      reply := ExplainMiss(db, job, item, code, maxAttempts, glitch);
    }
    if reply.Heard? {
      LastFailure(db.log, job, item, code, maxAttempts);
    }
  }

  /** What a failure recording did, field by field: the accepted job counted one more attempt and keeps the code, and
      has failed for good if that was the last one. Or the job was terminal, or was not there. */
  ghost predicate FailureSays(
    t: Tables, t': Tables, job: Id, item: Id, code: string, maxAttempts: int, answer: Answer)
  {
    (answer == BadArguments <==> maxAttempts <= 0 || code == "") &&
    match answer
    case Retryable(record) =>
      && job in t.jobs && t.jobs[job].item == item && t.jobs[job].state == Accepted
      && t.jobs[job].attempts + 1 < maxAttempts
      && record == Job(item, Accepted, t.jobs[job].attempts + 1, Some(code), false)
      && t' == Tables(t.items, t.jobs[job := record], t.outbox, t.results)
    case Exhausted(record) =>
      && job in t.jobs && t.jobs[job].item == item && t.jobs[job].state == Accepted
      && t.jobs[job].attempts + 1 >= maxAttempts
      && record == Job(item, Failed, t.jobs[job].attempts + 1, Some(code), true)
      && t' == Tables(t.items, t.jobs[job := record], t.outbox, t.results)
    case AlreadyTerminal(record) =>
      t' == t && job in t.jobs && record == t.jobs[job] && record.item == item && record.state != Accepted
    case JobNotFound => t' == t && job !in t.jobs
    case JobMismatch => t' == t && job in t.jobs && t.jobs[job].item != item
    case _ => answer == BadArguments && t' == t
  }

  lemma LastFailure(log: Log, job: Id, item: Id, code: string, maxAttempts: int)
    requires Faithful(log) && log != [] && log[|log| - 1].op == RecordFailure(job, item, code, maxAttempts)
    ensures FailureSays(Before(log, |log| - 1), Replay(log), job, item, code, maxAttempts, log[|log| - 1].answer)
  {
  }

  lemma LaterTables(log: Log, log': Log)
    requires Faithful(log) && Faithful(log') && log <= log'
    ensures Extends(Replay(log), Replay(log'))
  {
    assert log'[..|log|] == log && log'[..|log'|] == log';
    FinalRowsStay(log', |log|, |log'|);
  }
}
