/** The methods and the step system are one program: a delivery through the handler is a worker's passage through the
    stages of the broker's model, and the life of a publisher is a run of the model's cycles. */
module Correspondence {
  import opened Option
  import opened Records
  import opened AtomicStore
  import opened Settlement
  import opened Statements
  import opened Broker
  import opened Database
  import Worker
  import WorkerSession
  import OutboxPublisher

  // ----- The handler -----

  /** The queue with the worker at this stage. */
  function At(q: Queue, w: int, stage: Stage): Queue
    requires w in q.workers
  {
    q.(workers := q.workers[w := q.workers[w].(stage := stage)])
  }

  /** The worker's steps that lead to its next call or to its decision: it decodes, and its processor speaks. */
  function Prepared(q: Queue, w: int, success: bool): Queue
    requires w in q.workers
  {
    if Enabled(q, Decode(w)) then Apply(q, Decode(w))
    else if Enabled(q, Processed(w, success)) then Apply(q, Processed(w, success))
    else q
  }

  /** The queue after the worker has made these calls and heard these replies; None if it would make others. */
  function Passage(q: Queue, w: int, success: bool, calls: seq<Call>): Option<Queue>
    requires w in q.workers
    decreases |calls|
  {
    var ready := Prepared(q, w, success);
    if calls == [] then Some(ready)
    else if Awaited(ready, Client.Worker(w)) != Some(calls[0].op) then None
    else Passage(Hear(ready, Client.Worker(w), calls[0].reply), w, success, calls[1..])
  }

  /** The worker goes through these calls and comes to this decision, and nothing else changes. */
  predicate Decides(q: Queue, w: int, success: bool, calls: seq<Call>, settlement: Settlement)
    requires w in q.workers
  {
    Passage(q, w, success, calls) == Some(At(q, w, Decided(settlement)))
  }

  lemma DecidedDecides(q: Queue, w: int, success: bool, calls: seq<Call>, decided: Settlement, settlement: Settlement)
    requires w in q.workers && q.workers[w].stage == Decided(decided)
    ensures Decides(q, w, success, calls, settlement) <==> calls == [] && settlement == decided
  {
    assert At(q, w, Decided(decided)) == q;
  }

  /** One call and its reply. */
  lemma CallDecides(
    q: Queue, w: int, success: bool, calls: seq<Call>, settlement: Settlement, stage: Stage, next: Stage)
    requires w in q.workers && Prepared(q, w, success) == At(q, w, stage)
    requires stage.Inspecting? || stage.Completing? || stage.Recording?
    requires calls != [] ==> next == NextStage(stage, calls[0].reply)
    ensures Decides(q, w, success, calls, settlement) <==>
            && calls != [] && Awaited(At(q, w, stage), Client.Worker(w)) == Some(calls[0].op)
            && Decides(At(q, w, next), w, success, calls[1..], settlement)
  {
    var ready := At(q, w, stage);
    assert ready.workers[w].stage == stage && At(q, w, Decided(settlement)).workers[w].stage == Decided(settlement);
    if calls != [] && Awaited(ready, Client.Worker(w)) == Some(calls[0].op) {
      assert Hear(ready, Client.Worker(w), calls[0].reply) == At(q, w, next);
      assert At(At(q, w, next), w, Decided(settlement)) == At(q, w, Decided(settlement));
    }
  }

  /** After an inspection that found the job accepted. */
  lemma AttemptDecides(q: Queue, w: int, success: bool, calls: seq<Call>, settlement: Settlement)
    requires w in q.workers && q.workers[w].body.Process? && q.workers[w].stage == Cleared
    ensures var m := q.workers[w].body.message;
            Decides(q, w, success, calls, settlement) <==>
            && |calls| == 1
            && if success
               then calls[0].op == CompleteJob(m.job, m.item) && settlement == AfterCompletion(calls[0].reply)
               else calls[0].op == RecordFailure(m.job, m.item, FAILURE_CODE, MAX_ATTEMPTS)
                    && settlement == AfterFailure(calls[0].reply)
  {
    var stage := if success then Completing else Recording;
    if calls == [] {
      CallDecides(q, w, success, calls, settlement, stage, stage);
    } else {
      var next := NextStage(stage, calls[0].reply);
      CallDecides(q, w, success, calls, settlement, stage, next);
      DecidedDecides(At(q, w, next), w, success, calls[1..], next.settlement, settlement);
    }
  }

  /** The handler's decision table is the worker's passage: it allows these calls and this decision if and only if a
      worker that has just received the body makes the calls and comes to the decision. */
  lemma HandlerIsWorker(q: Queue, w: int, success: bool, calls: seq<Call>, settlement: Settlement)
    requires w in q.workers && q.workers[w].stage == Received
    ensures Worker.Conforms(q.workers[w].body, success, calls, settlement) <==>
            Decides(q, w, success, calls, settlement)
  {
    if q.workers[w].body.Garbage? {
      var rejected := At(q, w, Decided(Reject));
      assert Prepared(q, w, success) == rejected && Awaited(rejected, Client.Worker(w)) == None;
      assert rejected.workers[w].stage == Decided(Reject);
      assert At(q, w, Decided(settlement)).workers[w].stage == Decided(settlement);
    } else if calls == [] {
      CallDecides(q, w, success, calls, settlement, Inspecting, Inspecting);
    } else {
      var next := NextStage(Inspecting, calls[0].reply);
      var inspected := At(q, w, next);
      CallDecides(q, w, success, calls, settlement, Inspecting, next);
      if next == Cleared {
        AttemptDecides(inspected, w, success, calls[1..], settlement);
      } else {
        DecidedDecides(inspected, w, success, calls[1..], next.settlement, settlement);
      }
    }
  }

  /** The settlement signal does to the copy what the worker's step does: it goes back for a requeue, and only then. */
  lemma SettledAsDecided(q: Queue, w: int, settlement: Settlement, signal: WorkerSession.Signal)
    requires w in q.workers && q.workers[w].stage == Decided(settlement) && q.workers[w].owned
    requires WorkerSession.Settles(signal, settlement)
    ensures var requeued := signal.action == WorkerSession.BasicNack(true);
            var back := if requeued then multiset{q.workers[w].body} else multiset{};
            Apply(q, Settle(w)).ready == q.ready + back
    ensures Apply(q, Settle(w)).workers == q.workers - {w}
  {
  }

  // ----- The publisher -----

  /** Where a phase of the publisher's loop stands in its cycle; None between cycles. */
  predicate Stands(q: Queue, p: int, phase: OutboxPublisher.Phase) {
    match phase
    case Taken(row) => p in q.publishers && q.publishers[p].Carrying? && q.publishers[p].row == row
    case Awaiting(row) => p in q.publishers && q.publishers[p].Sent? && q.publishers[p].row == row
    case Stored(row) => p in q.publishers && q.publishers[p].Marking? && q.publishers[p].row == row
    case Missed(row) => p in q.publishers && q.publishers[p] == Reporting(row)
    case _ => p !in q.publishers
  }

  /** The publisher hears the reply to the call it waits for. */
  function OnCall(q: Queue, p: int, call: Call): Option<Queue> {
    var ready := if Enabled(q, Take(p)) then Apply(q, Take(p)) else q;
    if Awaited(ready, Publisher(p)) == Some(call.op) then Some(Hear(ready, Publisher(p), call.reply)) else None
  }

  /** A publication goes out, or fails at once; it may be on the wire all the same. */
  function OnSent(q: Queue, p: int, row: Id, through: bool, wired: bool): Option<Queue> {
    if !(Enabled(q, Send(p)) && q.publishers[p].row == row) then None
    else
      var sent := if wired then Apply(q, Send(p)) else q;
      if through then Some(sent) else Some(Apply(sent, PublishFails(p)))
  }

  /** The wait for a confirmation ends: the message is stored and confirmed, or the publication has failed. */
  function OnConfirmed(q: Queue, p: int, well: bool): Option<Queue> {
    if !(p in q.publishers && q.publishers[p].Sent?) then None
    else if well then Some(Apply(Apply(q, Land(p)), Confirm(p)))
    else Some(Apply(q, PublishFails(p)))
  }

  /** The steps of the model's publisher behind one signal; None if it could not take them. */
  function OnSignal(q: Queue, p: int, signal: OutboxPublisher.Signal): Option<Queue> {
    match signal
    case Asked(call) => OnCall(q, p, call)
    case Sent(row, ok, confirmation) => OnSent(q, p, row, ok && confirmation, ok)
    case Confirmed(waited, acked, found) => OnConfirmed(q, p, waited && acked && found == OutboxPublisher.Nothing)
    case _ => Some(q)
  }

  lemma CallIsSteps(
    q: Queue, p: int, phase: OutboxPublisher.Phase, call: Call, next: OutboxPublisher.Phase)
    requires OutboxPublisher.Moves(phase, OutboxPublisher.Asked(call), next) && Stands(q, p, phase)
    ensures OnCall(q, p, call).Some? && Stands(OnCall(q, p, call).value, p, next)
  {
  }

  lemma PublicationIsSteps(
    q: Queue, p: int, phase: OutboxPublisher.Phase, signal: OutboxPublisher.Signal, next: OutboxPublisher.Phase)
    requires OutboxPublisher.Moves(phase, signal, next) && Stands(q, p, phase) && (signal.Sent? || signal.Confirmed?)
    ensures OnSignal(q, p, signal).Some? && Stands(OnSignal(q, p, signal).value, p, next)
  {
  }

  lemma SignalIsSteps(
    q: Queue, p: int, phase: OutboxPublisher.Phase, signal: OutboxPublisher.Signal, next: OutboxPublisher.Phase)
    requires OutboxPublisher.Moves(phase, signal, next) && Stands(q, p, phase)
    ensures OnSignal(q, p, signal).Some? && Stands(OnSignal(q, p, signal).value, p, next)
  {
    if signal.Asked? {
      CallIsSteps(q, p, phase, signal.call, next);
    } else if signal.Sent? || signal.Confirmed? {
      PublicationIsSteps(q, p, phase, signal, next);
    }
  }

  /** The queue after the publisher's signals. */
  function Life(q: Queue, p: int, trace: seq<OutboxPublisher.Signal>): Option<Queue>
    decreases |trace|
  {
    if trace == [] then Some(q)
    else match Life(q, p, trace[..|trace| - 1])
      case Some(q') => OnSignal(q', p, trace[|trace| - 1])
      case None => None
  }

  /** The whole life of the publisher's loop is a run of the model's publisher: every call to the store is the one its
      cycle awaits, a message is stored before its row is marked, and a failed publication is reported. */
  lemma {:induction false} LoopIsPublisher(q: Queue, p: int, trace: seq<OutboxPublisher.Signal>)
    requires p !in q.publishers && OutboxPublisher.PhaseOf(trace).Some?
    ensures Life(q, p, trace).Some? && Stands(Life(q, p, trace).value, p, OutboxPublisher.PhaseOf(trace).value)
    decreases |trace|
  {
    if trace != [] {
      var n := |trace| - 1;
      assert trace[..n + 1] == trace;
      var phase, next := OutboxPublisher.Step(trace, n);
      LoopIsPublisher(q, p, trace[..n]);
      SignalIsSteps(Life(q, p, trace[..n]).value, p, phase, trace[n], next);
    }
  }
}
