/** One delivery through the worker: handleWorkerMessageWithProcessor. */
module Worker {
  import opened Records
  import opened AtomicStore
  import opened SuccessInvariant
  import opened History
  import opened Settlement
  import opened Broker
  import opened Database
  import opened WorkerStore
  import opened MessageFormat
  import opened MessageGrammar

  /** What the worker makes of a payload: decoded and validated, or of no use. */
  function BodyOf(payload: string): Body {
    match MessageFormat.Decode(payload)
    case Some(decoded) => if IsValid(decoded) then Process(Message(decoded.job, decoded.item)) else Garbage
    case None => Garbage
  }

  /** The outbox payload of a job, however its JSON is laid out and spelled, is read as the job's own message;
      with anything but blanks behind it, it is of no use. */
  lemma PayloadIsOwnMessage(lead: string, ms: seq<Member>, m: Message, tail: string)
    requires InRange(m) && Blank(lead) && AreMembers(ms) && forall k :: 0 <= k < |ms| ==> Gives(ms[k], m)
    requires Mentions(ms, "type") && Mentions(ms, "version") && Mentions(ms, "job_id") && Mentions(ms, "work_item_id")
    ensures ms != []
    ensures BodyOf(lead + PayloadText(Object(ms), tail)) == if Blank(tail) then Process(m) else Garbage
  {
    RoundTrip(lead, ms, m, tail);
  }

  /** The payload that the acceptance of a job wrote is read as that job's message. */
  lemma AcceptedPayloadIsRead(m: Message)
    requires InRange(m)
    ensures BodyOf(OwnPayload(m)) == Process(m)
  {
    OwnPayloadDecodes(m);
  }

  /** The worker processes a message if and only if the payload says so: the type and version it knows, and two positive
      identities. Everything else is rejected unseen. */
  lemma ProcessedAsSaid(payload: string, m: Message)
    ensures BodyOf(payload) == Process(m) <==>
            m.job > 0 && m.item > 0 && Says(payload, WorkerMessage("work_item.process", 1, m.job, m.item))
  {
    DecodesExactly(payload, WorkerMessage("work_item.process", 1, m.job, m.item));
  }

  /** The decision table: which calls follow which replies, and the settlement they lead to. */
  predicate Conforms(body: Body, success: bool, calls: seq<Call>, settlement: Settlement) {
    match body
    case Garbage => calls == [] && settlement == Reject
    case Process(m) =>
      |calls| > 0 && calls[0].op == InspectJob(m.job, m.item) &&
      (match AfterInspection(calls[0].reply)
       case Some(decided) => |calls| == 1 && settlement == decided
       case None =>
         |calls| == 2 &&
         if success
         then calls[1].op == CompleteJob(m.job, m.item) && settlement == AfterCompletion(calls[1].reply)
         else calls[1].op == RecordFailure(m.job, m.item, FAILURE_CODE, MAX_ATTEMPTS)
              && settlement == AfterFailure(calls[1].reply))
  }

  /** The message names an existing job of the item it names. */
  predicate IsOwn(t: Tables, m: Message) {
    m.job in t.jobs && t.jobs[m.job].item == m.item
  }

  lemma OwnStaysOwn(log: Log, log': Log, m: Message)
    requires Faithful(log) && Faithful(log') && log <= log'
    ensures IsOwn(Replay(log), m) ==> IsOwn(Replay(log'), m)
  {
    LaterTables(log, log');
  }

  /** What a settlement decided on this message says about the tables before and after the deciding call. */
  ghost predicate Justified(m: Message, settlement: Settlement, before: Tables, after: Tables) {
    && (settlement == Ack ==> IsOwn(after, m) && Terminal(after.jobs[m.job]))
    && (settlement == Reject ==> !IsOwn(before, m))
  }

  /** How a decoded message is handled, told by the tables it meets: an inspection that errs is tried again later; a
      message that is no job's own is refused; a job that has succeeded or failed is acknowledged at once and never
      processed; an accepted job gets its one attempt, which is acknowledged if it ended the job and was heard to. */
  ghost predicate Handled(
    m: Message, success: bool, first: Glitch, before: Tables, calls: seq<Call>, after: Tables, settlement: Settlement)
  {
    && calls != [] && calls[0].op == InspectJob(m.job, m.item)
    && if first != Clear then |calls| == 1 && settlement == NackRequeue
       else if m.job !in before.jobs || before.jobs[m.job].item != m.item then |calls| == 1 && settlement == Reject
       else if before.jobs[m.job].state != Accepted then |calls| == 1 && settlement == Ack
       else if success then
         && |calls| == 2 && calls[1].op == CompleteJob(m.job, m.item)
         && settlement == if calls[1].reply.Heard? then Ack else NackRequeue
       else
         && |calls| == 2 && calls[1].op == RecordFailure(m.job, m.item, "processing_failed", 3) && m.job in after.jobs
         && settlement ==
            if calls[1].reply.Heard? && after.jobs[m.job].state != Accepted then Ack else NackRequeue
  }

  ghost function LastReply(db: Database): Reply
    reads db
  {
    if db.calls == [] then StoreError else db.calls[|db.calls| - 1].reply
  }

  /** The processor failed. Without a glitch, a job that exists is requeued only if this attempt was counted. */
  method RecordAttempt(db: Database, m: Message, glitch: Glitch) returns (settlement: Settlement)
    requires db.Valid()
    modifies db
    ensures db.Valid() && old(db.log) <= db.log
    ensures db.calls == old(db.calls) + [Call(RecordFailure(m.job, m.item, FAILURE_CODE, MAX_ATTEMPTS), LastReply(db))]
    ensures settlement == AfterFailure(LastReply(db)) && Justified(m, settlement, old(db.tables), db.tables)
    ensures glitch == Clear && settlement == NackRequeue && m.job in old(db.tables).jobs ==>
              LastReply(db).Heard? && LastReply(db).answer.Retryable?
    ensures LastReply(db).Heard? ==>
              glitch == Clear && db.log != []
              && FailureSays(db.Previous(), db.tables, m.job, m.item, "processing_failed", 3, LastReply(db).answer)
  {
    ghost var start := db.log;
    var recorded := RecordProcessingFailure(db, m.job, m.item, FAILURE_CODE, MAX_ATTEMPTS, glitch);
    if recorded.StoreError? {
      return NackRequeue;
    }
    Judge(start, db.log, m);
    match recorded.answer
    case JobNotFound => return Reject;
    case JobMismatch => return Reject;
    case Retryable(_) => return NackRequeue;
    case Exhausted(_) => return Ack;
    case AlreadyTerminal(_) => return Ack;
    case _ => return NackRequeue;
  }

  /** The processor succeeded. Without a glitch, the copy is requeued only if the job failed meanwhile. */
  method CompleteAttempt(db: Database, m: Message, glitch: Glitch) returns (settlement: Settlement)
    requires db.Valid()
    modifies db
    ensures db.Valid() && old(db.log) <= db.log
    ensures db.calls == old(db.calls) + [Call(CompleteJob(m.job, m.item), LastReply(db))]
    ensures settlement == AfterCompletion(LastReply(db)) && Justified(m, settlement, old(db.tables), db.tables)
    ensures glitch == Clear && settlement == NackRequeue ==>
              LastReply(db) == StoreError && IsOwn(db.tables, m) && HasJob(db.tables, m.job, Failed)
    ensures LastReply(db).Heard? ==>
              glitch == Clear && db.log != []
              && CompletionSays(db.Previous(), db.tables, m.job, m.item, LastReply(db).answer)
  {
    ghost var start := db.log;
    var completion := CompleteProcessingJob(db, m.job, m.item, glitch);
    if completion.StoreError? {
      return NackRequeue;
    }
    Judge(start, db.log, m);
    match completion.answer
    case ItemNotPending => return Reject;
    case JobNotFound => return Reject;
    case JobMismatch => return Reject;
    case CompletedNow(_) => return Ack;
    case AlreadyTerminal(_) => return Ack;
    case _ => return NackRequeue;
  }

  /** A message that has been decoded and validated: inspect the job, and attempt it if it is accepted. */
  method HandleMessage(db: Database, m: Message, success: bool, first: Glitch, second: Glitch)
    returns (settlement: Settlement)
    requires db.Valid()
    modifies db
    ensures db.Valid() && old(db.log) <= db.log && old(db.calls) <= db.calls
    ensures Conforms(Process(m), success, db.calls[|old(db.calls)|..], settlement)
    ensures Handled(m, success, first, old(db.tables), db.calls[|old(db.calls)|..], db.tables, settlement)
    ensures Justified(m, settlement, old(db.tables), db.tables)
    ensures first == Clear && second == Clear && settlement == NackRequeue ==>
              if success then HasJob(db.tables, m.job, Failed)
              else LastReply(db).Heard? && LastReply(db).answer.Retryable?
  {
    ghost var start := db.log;
    var inspected := GetProcessingJob(db, m.job, m.item, first);
    if inspected.StoreError? {
      return NackRequeue;
    }
    Judge(start, db.log, m);
    if inspected.answer.JobNotFound? || inspected.answer.JobMismatch? {
      return Reject;
    }
    if inspected.answer.record.state == Succeeded || inspected.answer.record.state == Failed {
      return Ack;
    }

    db.Interference();
    OwnStaysOwn(start, db.log, m);
    if success {
      settlement := CompleteAttempt(db, m, second);
    } else {
      settlement := RecordAttempt(db, m, second);
      OwnStaysOwn(start, db.log, m);
    }
  }

  /** The handler, for any processor outcome and any glitches, with others committing between all its statements.
      Acknowledged means durably terminal; rejected means it never was the message of a job that existed at the start.
      Without glitches a requeue means that this very attempt was counted as a retryable failure, or that it had
      succeeded while another delivery drove the job to failure. */
  method HandleWorkerMessage(db: Database, payload: string, success: bool, first: Glitch, second: Glitch)
    returns (settlement: Settlement)
    requires db.Valid()
    modifies db
    ensures db.Valid() && old(db.log) <= db.log
    ensures old(db.calls) <= db.calls
    ensures Conforms(BodyOf(payload), success, db.calls[|old(db.calls)|..], settlement)
    ensures BodyOf(payload).Process? ==>
              Handled(BodyOf(payload).message, success, first, old(db.tables), db.calls[|old(db.calls)|..], db.tables,
                      settlement)
    ensures BodyOf(payload).Garbage? ==>
              settlement == Reject && db.calls == old(db.calls) && db.log == old(db.log)
    ensures BodyOf(payload).Process? ==>
              Justified(BodyOf(payload).message, settlement, old(db.tables), db.tables)
    ensures first == Clear && second == Clear && settlement == NackRequeue ==>
              if success
              then BodyOf(payload).Process? && HasJob(db.tables, BodyOf(payload).message.job, Failed)
              else LastReply(db).Heard? && LastReply(db).answer.Retryable?
  {
    var decoded := MessageFormat.Decode(payload);
    if decoded.None? {
      return Reject;
    }
    if !IsValid(decoded.value) {
      return Reject;
    }
    settlement := HandleMessage(db, Message(decoded.value.job, decoded.value.item), success, first, second);
  }

  /** What the last logged answer, if it is about a message's job, says about the tables before and after the call. */
  lemma Judge(start: Log, log: Log, m: Message)
    requires Faithful(start) && Faithful(log) && start <= log && |start| < |log|
    ensures var e := log[|log| - 1];
            Targets(e.op, m.job) && e.op.item == m.item ==>
              && ((e.answer.JobNotFound? || e.answer.JobMismatch?) ==> !IsOwn(Replay(start), m))
              && !e.answer.ItemNotPending? && !e.answer.ItemRowMissing?
              && (e.answer.CompletedNow? || e.answer.AlreadyTerminal? || e.answer.Exhausted?
                  || (e.answer.JobFound? && Terminal(e.answer.record)) ==>
                    IsOwn(Replay(log), m) && Terminal(Replay(log).jobs[m.job]))
              && (e.answer.JobFound? ==> IsOwn(Replay(log), m))
              && (e.op.RecordFailure? && e.op.limit > 0 && e.op.code != "" ==> !e.answer.BadArguments?)
  {
    var init := log[..|log| - 1];
    assert start <= init;
    OwnStaysOwn(start, init, m);
    FaithfulIsSound(init);
    if HasJob(Replay(init), m.job, Accepted) {
      AcceptedMeansPending(Replay(init), m.job);
    }
  }
}
