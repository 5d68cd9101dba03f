/** The API's store, statement by statement as the code issues them, with other clients committing in between. */
module ApiStore {
  import opened Option
  import opened Records
  import opened AtomicStore
  import opened Settlement
  import opened Database
  import opened Sets

  /** The INSERT of a pending item, committed by itself. */
  method InsertItem(db: Database, title: string, glitch: Glitch) returns (reply: Reply)
    requires db.Valid()
    modifies db
    ensures db.Valid() && db.Did(CreateItem(title), reply, glitch) && (glitch == Clear ==> reply.Heard?)
    ensures reply.Heard? ==> CreationSays(old(db.tables), db.tables, title, reply.answer)
  {
    if glitch == StatementFails {
      reply := db.Abort(CreateItem(title));
      return;
    }
    var item := db.next.item;
    db.next := db.next.(item := item + 1);
    reply := db.Finish(CreateItem(title), ItemCreated(item),
                       db.tables.(items := db.tables.items[item := Item(title, Pending)]), glitch);
  }

  /** A new pending item with the title, and nothing else. */
  ghost predicate CreationSays(t: Tables, t': Tables, title: string, answer: Answer) {
    && answer.ItemCreated? && answer.item !in t.items
    && t' == Tables(t.items[answer.item := Item(title, Pending)], t.jobs, t.outbox, t.results)
  }

  /** CreateWorkItem: None is the refusal of any status but pending, before the database is asked. */
  method CreateWorkItem(db: Database, title: string, status: ItemStatus, glitch: Glitch) returns (reply: Option<Reply>)
    requires db.Valid()
    modifies db
    ensures db.Valid() && (reply == None <==> status != Pending)
    ensures reply == None ==> db.log == old(db.log) && db.calls == old(db.calls)
    ensures reply.Some? ==> db.Did(CreateItem(title), reply.value, glitch) && (glitch == Clear ==> reply.value.Heard?)
    ensures reply.Some? && reply.value.Heard? ==> CreationSays(old(db.tables), db.tables, title, reply.value.answer)
  {
    if status != Pending {
      return None;
    }
    var result := InsertItem(db, title, glitch);
    return Some(result);
  }

  /** AcceptProcessingJob: the item's lock is held from before the first read to the commit. */
  method AcceptProcessingJob(db: Database, item: Id, glitch: Glitch) returns (reply: Reply)
    requires db.Valid()
    modifies db
    ensures db.Valid() && db.Did(AcceptJob(item), reply, glitch) && (glitch == Clear ==> reply.Heard?)
    ensures reply.Heard? ==> db.log != [] && AcceptanceSays(db.Previous(), db.tables, item, reply.answer)
  {
    ghost var op := AcceptJob(item);
    if glitch == StatementFails {
      reply := db.Abort(op);
      return;
    }
    db.Interference();  // until the lock is granted
    if item !in db.tables.items {
      reply := db.Finish(op, ItemNotFound, db.tables, glitch);
      LastAcceptance(db.log, item);
      return;
    }
    if db.tables.items[item].status == Done {
      reply := db.Finish(op, ItemDone, db.tables, glitch);
      LastAcceptance(db.log, item);
      return;
    }
    reply := AcceptForPending(db, item, glitch);
    if reply.Heard? {
      LastAcceptance(db.log, item);
    }
  }

  /** What an acceptance did, field by field: an item that is pending and has no accepted job got a fresh one, with a
      message that carries both identities. Or the active job, the done item or the missing item is named. */
  ghost predicate AcceptanceSays(t: Tables, t': Tables, item: Id, answer: Answer) {
    match answer
    case JobAccepted(job, row) =>
      && item in t.items && t.items[item].status == Pending && job !in t.jobs && row !in t.outbox
      && (forall other :: other in t.jobs && t.jobs[other].item == item ==> t.jobs[other].state != Accepted)
      && t' == Tables(t.items, t.jobs[job := Job(item, Accepted, 0, None, false)],
                      t.outbox[row := OutboxRow(job, Message(job, item), 0, None, false)], t.results)
    case AlreadyActive(job) =>
      t' == t && job in t.jobs && t.jobs[job].item == item && t.jobs[job].state == Accepted
    case ItemDone => t' == t && item in t.items && t.items[item].status == Done
    case ItemNotFound => t' == t && item !in t.items
    case _ => false
  }

  lemma LastAcceptance(log: Log, item: Id)
    requires Faithful(log) && log != [] && log[|log| - 1].op == AcceptJob(item)
    ensures AcceptanceSays(Before(log, |log| - 1), Replay(log), item, log[|log| - 1].answer)
  {
    var t := Before(log, |log| - 1);
    forall other | other in t.jobs && t.jobs[other].item == item && log[|log| - 1].answer.JobAccepted?
      ensures t.jobs[other].state != Accepted
    {
      assert !Active(t, item, other);
    }
  }

  /** The item was read as pending: look for an active job, with others committing meanwhile, and insert one. */
  method AcceptForPending(db: Database, item: Id, glitch: Glitch) returns (reply: Reply)
    requires db.Valid() && glitch != StatementFails && IsPending(db.tables, item)
    modifies db
    ensures db.Valid() && db.Did(AcceptJob(item), reply, glitch) && (glitch == Clear ==> reply.Heard?)
  {
    ghost var op, read := AcceptJob(item), db.log;
    db.InterferenceBut(item);
    UntouchedItem(read, db.log, item);
    if exists active :: active in db.tables.jobs && Active(db.tables, item, active) {
      var active :| active in db.tables.jobs && Active(db.tables, item, active);
      reply := db.Finish(op, AlreadyActive(active), db.tables, glitch);
      return;
    }
    reply := InsertJob(db, item, glitch);
  }

  /** Both inserts of an acceptance, visible together at the commit; others may commit between them. */
  method InsertJob(db: Database, item: Id, glitch: Glitch) returns (reply: Reply)
    requires db.Valid() && glitch != StatementFails && IsPending(db.tables, item) && !HasActive(db.tables, item)
    modifies db
    ensures db.Valid() && db.Did(AcceptJob(item), reply, glitch) && (glitch == Clear ==> reply.Heard?)
  {
    var job := db.next.job;
    db.next := db.next.(job := job + 1);
    ghost var inserted := db.log;
    db.InterferenceBut(item);
    UntouchedItem(inserted, db.log, item);
    var row := db.next.row;
    db.next := db.next.(row := row + 1);
    var staged := db.tables.(jobs := db.tables.jobs[job := NewJob(item)]);
    staged := staged.(outbox := staged.outbox[row := OutboxRow(job, Message(job, item), 0, None, false)]);
    reply := db.Finish(AcceptJob(item), JobAccepted(job, row), staged, glitch);
  }

  /** The unpublished row with the smallest ID, the locked ones aside. */
  ghost predicate IsFirst(t: Tables, row: Id, locked: set<Id>) {
    && IsUnpublished(t, row) && row !in locked
    && forall other :: IsUnpublished(t, other) && other !in locked ==> row <= other
  }

  /** BeginOutboxPublishAttempt: rows locked by other transactions are skipped. */
  method BeginOutboxPublishAttempt(db: Database, locked: set<Id>, glitch: Glitch) returns (reply: Reply)
    requires db.Valid()
    modifies db
    ensures db.Valid() && db.Did(BeginPublish, reply, glitch) && (glitch == Clear ==> reply.Heard?)
    ensures reply.Heard? ==> reply.answer.RowTaken? || reply.answer.NothingToPublish?
    ensures reply.Heard? && reply.answer.RowTaken? ==> IsFirst(old(db.tables), reply.answer.row, locked)
    ensures reply.Heard? && reply.answer.RowTaken? ==>
              var row, t := reply.answer.row, old(db.tables);
              var record := t.outbox[row];
              && !record.published && reply.answer.payload == record.payload
              && db.tables == Tables(t.items, t.jobs, t.outbox[row := OutboxRow(
                  record.job, record.payload, record.attempts + 1, record.lastError, record.published)], t.results)
    ensures reply == Heard(NothingToPublish) ==> db.tables == old(db.tables)
    ensures reply == Heard(NothingToPublish) ==> forall row :: IsUnpublished(old(db.tables), row) ==> row in locked
  {
    if glitch == StatementFails {
      reply := db.Abort(BeginPublish);
      return;
    }
    var open := set row | row in db.tables.outbox && !db.tables.outbox[row].published && row !in locked;
    if open == {} {
      forall row | IsUnpublished(db.tables, row) ensures row in locked {
        assert row !in open;
      }
      reply := db.Finish(BeginPublish, NothingToPublish, db.tables, glitch);
      return;
    }
    ThereIsAFirst(open);
    var row :| row in open && forall other :: other in open ==> row <= other;
    forall other | IsUnpublished(db.tables, other) && other !in locked ensures row <= other {
      assert other in open;
    }
    var record := db.tables.outbox[row];
    record := record.(attempts := record.attempts + 1);
    reply := db.Finish(BeginPublish, RowTaken(row, record.payload),
        db.tables.(outbox := db.tables.outbox[row := record]), glitch);
  }

  method MarkOutboxPublished(db: Database, row: Id, glitch: Glitch) returns (reply: Reply)
    requires db.Valid()
    modifies db
    ensures db.Valid() && db.Did(MarkPublished(row), reply, glitch) && (glitch == Clear ==> reply.Heard?)
    ensures reply.Heard? ==> reply.answer == if IsUnpublished(old(db.tables), row) then RowUpdated else RowMissing
    ensures reply == Heard(RowUpdated) ==>
              var t := old(db.tables);
              && row in t.outbox && !t.outbox[row].published
              && var record := t.outbox[row];
                 db.tables == Tables(t.items, t.jobs, t.outbox[row := OutboxRow(
                     record.job, record.payload, record.attempts, None, true)], t.results)
    ensures reply != Heard(RowUpdated) && glitch != CommitUnheard ==> db.tables == old(db.tables)
  {
    ghost var op := MarkPublished(row);
    if glitch == StatementFails {
      reply := db.Abort(op);
      return;
    }
    if row !in db.tables.outbox || db.tables.outbox[row].published {
      reply := db.Finish(op, RowMissing, db.tables, glitch);
      return;
    }
    var record := db.tables.outbox[row].(published := true, lastError := None);
    reply := db.Finish(op, RowUpdated, db.tables.(outbox := db.tables.outbox[row := record]), glitch);
  }

  method RecordOutboxPublishFailure(db: Database, row: Id, code: string, glitch: Glitch) returns (reply: Reply)
    requires db.Valid()
    modifies db
    ensures db.Valid() && db.Did(RecordPublishFailure(row, code), reply, glitch) && (glitch == Clear ==> reply.Heard?)
    ensures reply.Heard? ==> reply.answer == if IsUnpublished(old(db.tables), row) then RowUpdated else RowMissing
    ensures reply == Heard(RowUpdated) ==>
              var t := old(db.tables);
              && row in t.outbox && !t.outbox[row].published
              && var record := t.outbox[row];
                 db.tables == Tables(t.items, t.jobs, t.outbox[row := OutboxRow(
                     record.job, record.payload, record.attempts, Some(code), false)], t.results)
    ensures reply != Heard(RowUpdated) && glitch != CommitUnheard ==> db.tables == old(db.tables)
  {
    ghost var op := RecordPublishFailure(row, code);
    if glitch == StatementFails {
      reply := db.Abort(op);
      return;
    }
    if row !in db.tables.outbox || db.tables.outbox[row].published {
      reply := db.Finish(op, RowMissing, db.tables, glitch);
      return;
    }
    var record := db.tables.outbox[row].(lastError := Some(code));
    reply := db.Finish(op, RowUpdated, db.tables.(outbox := db.tables.outbox[row := record]), glitch);
  }
}
