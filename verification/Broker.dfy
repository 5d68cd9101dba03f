/** The durable queue with its workers and outbox publishers.
    Assumed of RabbitMQ: a stored copy stays until it is acknowledged or rejected, an unacknowledged copy
    returns when its connection goes, and a publication is confirmed only after it was stored. */
module Broker {
  import opened Option
  import opened Records
  import opened AtomicStore
  import opened Settlement
  import opened Statements

  /** Garbage is any body that fails to decode or to validate. */
  datatype Body = Process(message: Message) | Garbage

  datatype Stage =
    | Received
    | Inspecting                       // GetProcessingJob
    | Cleared                          // the processor runs
    | Completing                       // CompleteProcessingJob
    | Recording                        // RecordProcessingFailure
    | Decided(settlement: Settlement)  // about to settle

  /** A worker with a delivery. owned: its connection, and with it the unacknowledged copy, is still there. */
  datatype Work = Work(body: Body, stage: Stage, owned: bool)

  /** A publisher inside one cycle of publishNextOutboxMessage. */
  datatype Cycle =
    | Taking
    | Carrying(row: Id, payload: Message)
    | Sent(row: Id, payload: Message)
    | Landed(row: Id, payload: Message)     // stored in the queue, not yet confirmed
    | Marking(row: Id, payload: Message)    // confirmed and not returned
    | Reporting(row: Id)                    // publication failed

  /** Idle workers and publishers are absent from the maps. limbo holds publications whose publisher gave up
      on them while they were on the wire; landed is history: how often a row's publication was stored. */
  datatype Queue = Queue(
    ready: multiset<Body>,
    workers: map<int, Work>,
    publishers: map<int, Cycle>,
    limbo: multiset<(Id, Message)>,
    landed: multiset<Id>)

  const EMPTY_QUEUE := Queue(multiset{}, map[], map[], multiset{}, multiset{})

  /** The store operation a client is waiting for. */
  function Awaited(q: Queue, c: Client): Option<Operation> {
    match c
    case Worker(w) =>
      if w in q.workers && q.workers[w].body.Process? then
        var m := q.workers[w].body.message;
        (match q.workers[w].stage
         case Inspecting => Some(InspectJob(m.job, m.item))
         case Completing => Some(CompleteJob(m.job, m.item))
         case Recording => Some(RecordFailure(m.job, m.item, FAILURE_CODE, MAX_ATTEMPTS))
         case _ => None)
      else None
    case Publisher(p) =>
      if p in q.publishers then
        (match q.publishers[p]
         case Taking => Some(BeginPublish)
         case Marking(row, _) => Some(MarkPublished(row))
         case Reporting(row) => Some(RecordPublishFailure(row, PUBLISH_FAILURE_CODE))
         case _ => None)
      else None
    case Api(_) => None
  }

  function NextStage(stage: Stage, reply: Reply): Stage {
    match stage
    case Inspecting =>
      (match AfterInspection(reply)
       case Some(settlement) => Decided(settlement)
       case None => Cleared)
    case Completing => Decided(AfterCompletion(reply))
    case Recording => Decided(AfterFailure(reply))
    case _ => stage
  }

  /** The client hears the outcome of the operation it waits for. */
  function Hear(q: Queue, c: Client, reply: Reply): Queue {
    if Awaited(q, c) == None then q
    else match c
      case Worker(w) => q.(workers := q.workers[w := q.workers[w].(stage := NextStage(q.workers[w].stage, reply))])
      case Publisher(p) =>
        if q.publishers[p].Taking? && reply.Heard? && reply.answer.RowTaken?
        then q.(publishers := q.publishers[p := Carrying(reply.answer.row, reply.answer.payload)])
        else q.(publishers := q.publishers - {p})
      case Api(_) => q
  }

  datatype Step =
    | Deliver(worker: int, body: Body)
    | Decode(worker: int)
    | Processed(worker: int, success: bool)  // the processor may do either
    | Settle(worker: int)
    | Disconnect(worker: int)                // the copy goes back, the worker carries on unaware
    | Crash(worker: int)
    | Take(publisher: int)
    | Send(publisher: int)
    | Land(publisher: int)
    | Confirm(publisher: int)
    | PublishFails(publisher: int)           // refused, returned, nacked, timed out or disconnected
    | Halt(publisher: int)
    | LateLand(row: Id, payload: Message)
    | Vanish(row: Id, payload: Message)      // a publication lost on the wire
    | Inject(body: Body)                     // a duplicate or foreign message

  predicate Enabled(q: Queue, step: Step) {
    match step
    case Deliver(w, body) => body in q.ready && w !in q.workers
    case Decode(w) => w in q.workers && q.workers[w].stage.Received?
    case Processed(w, _) => w in q.workers && q.workers[w].stage.Cleared?
    case Settle(w) => w in q.workers && q.workers[w].stage.Decided?
    case Disconnect(w) => w in q.workers && q.workers[w].owned
    case Crash(w) => w in q.workers
    case Take(p) => p !in q.publishers
    case Send(p) => p in q.publishers && q.publishers[p].Carrying?
    case Land(p) => p in q.publishers && q.publishers[p].Sent?
    case Confirm(p) => p in q.publishers && q.publishers[p].Landed?
    case PublishFails(p) => p in q.publishers && Publishing(q.publishers[p])
    case Halt(p) => p in q.publishers
    case LateLand(row, payload) => (row, payload) in q.limbo
    case Vanish(row, payload) => (row, payload) in q.limbo
    case Inject(_) => true
  }

  predicate Publishing(cycle: Cycle) {
    cycle.Carrying? || cycle.Sent? || cycle.Landed?
  }

  /** The copy a worker holds goes back to the queue, if it still is the worker's. */
  function GiveBack(q: Queue, work: Work): Queue {
    if work.owned then q.(ready := q.ready + multiset{work.body}) else q
  }

  /** A publication its publisher no longer waits for may still arrive. */
  function LetGo(q: Queue, cycle: Cycle): Queue {
    if cycle.Sent? then q.(limbo := q.limbo + multiset{(cycle.row, cycle.payload)}) else q
  }

  function Apply(q: Queue, step: Step): Queue
    requires Enabled(q, step)
  {
    match step
    case Deliver(w, body) =>
      q.(ready := q.ready - multiset{body}, workers := q.workers[w := Work(body, Received, true)])
    case Decode(w) =>
      var stage := if q.workers[w].body.Process? then Inspecting else Decided(Reject);
      q.(workers := q.workers[w := q.workers[w].(stage := stage)])
    case Processed(w, success) =>
      q.(workers := q.workers[w := q.workers[w].(stage := if success then Completing else Recording)])
    case Settle(w) =>
      var work := q.workers[w];
      var q' := q.(workers := q.workers - {w});
      if work.stage.settlement == NackRequeue then GiveBack(q', work) else q'
    case Disconnect(w) => GiveBack(q, q.workers[w]).(workers := q.workers[w := q.workers[w].(owned := false)])
    case Crash(w) => GiveBack(q, q.workers[w]).(workers := q.workers - {w})
    case Take(p) => q.(publishers := q.publishers[p := Taking])
    case Send(p) => q.(publishers := q.publishers[p := Sent(q.publishers[p].row, q.publishers[p].payload)])
    case Land(p) =>
      var Sent(row, payload) := q.publishers[p];
      q.(publishers := q.publishers[p := Landed(row, payload)],
         ready := q.ready + multiset{Process(payload)}, landed := q.landed + multiset{row})
    case Confirm(p) => q.(publishers := q.publishers[p := Marking(q.publishers[p].row, q.publishers[p].payload)])
    case PublishFails(p) =>
      LetGo(q, q.publishers[p]).(publishers := q.publishers[p := Reporting(q.publishers[p].row)])
    case Halt(p) => LetGo(q, q.publishers[p]).(publishers := q.publishers - {p})
    case LateLand(row, payload) =>
      q.(limbo := q.limbo - multiset{(row, payload)},
         ready := q.ready + multiset{Process(payload)}, landed := q.landed + multiset{row})
    case Vanish(row, payload) => q.(limbo := q.limbo - multiset{(row, payload)})
    case Inject(body) => q.(ready := q.ready + multiset{body})
  }
}
