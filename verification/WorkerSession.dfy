/** The worker's connection life: sessions, the delivery loop, settlement, restarts. Everything the surroundings answer
    leaves a signal in a trace, and the automaton over these signals says what the worker does next, to the end. */
module WorkerSession {
  import opened Option
  import opened Settlement
  import opened Database
  import opened Worker
  import opened Traces

  /** What can be done with a delivery on its channel. */
  datatype BrokerAction = BasicAck | BasicReject(requeue: bool) | BasicNack(requeue: bool)

  datatype Arrival =
    | Cancelled
    | StreamClosed
    | Delivery(payload: string, success: bool, first: Glitch, second: Glitch)  // with what the attempt will meet

  /** Why the delivery loop ended; a requeue is an error to the session that the next session makes good. */
  datatype Exit = Cancellation | StreamLost | SettlementFailed | Requeued

  /** What a session comes to: it never started, or its loop ended and its connection was closed, well or not. */
  datatype End = NotStarted | Ended(exit: Exit, closed: bool)

  datatype Signal =
    | Checked(cancelled: bool)                              // ctx.Err()
    | Dialed(ok: bool)
    | ChannelOpened(ok: bool)
    | Consuming(ok: bool)
    | Received(arrival: Arrival)
    | Handled(calls: seq<Call>, settlement: Settlement)     // the handler's calls to the store, and its decision
    | Settled(action: BrokerAction, ok: bool)
    | Closed(ok: bool)
    | Reported(end: End)
    | Waited(goOn: bool)

  datatype Phase =
    | Start                        // about to check the context, without a session
    | Connecting | Dialled | Opened
    | Unusable                     // to be closed, the session cannot start
    | Ready                        // the loop is about to check the context
    | Receiving
    | Lost                         // the stream is closed: was it a cancellation?
    | Busy(delivery: Arrival)
    | Settling(settlement: Settlement)
    | Leaving(exit: Exit)          // the connection is to be closed
    | Down(end: End)               // about to check the context after a session
    | Reporting(end: End)
    | Resting
    | Stopped

  function After(phase: Phase, signal: Signal): Option<Phase> {
    match phase
    case Start => if signal.Checked? then Some(if signal.cancelled then Stopped else Connecting) else None
    case Connecting => if signal.Dialed? then Some(if signal.ok then Dialled else Down(NotStarted)) else None
    case Dialled => if signal.ChannelOpened? then Some(if signal.ok then Opened else Unusable) else None
    case Opened => if signal.Consuming? then Some(if signal.ok then Ready else Unusable) else None
    case Unusable => if signal.Closed? then Some(Down(NotStarted)) else None
    case Ready => if signal.Checked? then Some(if signal.cancelled then Leaving(Cancellation) else Receiving) else None
    case Receiving => if signal.Received? then Some(OnArrival(signal.arrival)) else None
    case Lost =>
      if signal.Checked? then Some(Leaving(if signal.cancelled then Cancellation else StreamLost)) else None
    case Busy(delivery) => AfterHandling(delivery, signal)
    case Settling(settlement) =>
      if signal.Settled? && signal.action == ActionFor(settlement)
      then Some(if !signal.ok then Leaving(SettlementFailed)
                else if settlement == NackRequeue then Leaving(Requeued) else Ready)
      else None
    case Leaving(exit) => if signal.Closed? then Some(Down(Ended(exit, signal.ok))) else None
    case Down(end) => if signal.Checked? then Some(if signal.cancelled then Stopped else Reporting(end)) else None
    case Reporting(end) => if signal == Reported(end) then Some(Resting) else None
    case Resting => if signal.Waited? then Some(if signal.goOn then Start else Stopped) else None
    case Stopped => None
  }

  function OnArrival(arrival: Arrival): Phase {
    match arrival
    case Cancelled => Leaving(Cancellation)
    case StreamClosed => Lost
    case Delivery(_, _, _, _) => Busy(arrival)
  }

  /** A delivery is handled by the decision table. */
  function AfterHandling(delivery: Arrival, signal: Signal): Option<Phase> {
    if delivery.Delivery? && signal.Handled?
       && Conforms(BodyOf(delivery.payload), delivery.success, signal.calls, signal.settlement)
    then Some(Settling(signal.settlement)) else None
  }

  function ActionFor(settlement: Settlement): BrokerAction {
    match settlement
    case Ack => BasicAck
    case Reject => BasicReject(false)
    case NackRequeue => BasicNack(true)
  }

  predicate Connected(phase: Phase) {
    !(phase.Start? || phase.Connecting? || phase.Down? || phase.Reporting? || phase.Resting? || phase.Stopped?)
  }

  function PhaseOf(trace: seq<Signal>): Option<Phase> {
    PhaseAfter(After, Start, trace)
  }

  /** The calls to the store that a trace reports. */
  function CallsIn(trace: seq<Signal>): seq<Call> {
    if trace == [] then []
    else
      var last := trace[|trace| - 1];
      CallsIn(trace[..|trace| - 1]) + (if last.Handled? then last.calls else [])
  }

  lemma CallsExtend(trace: seq<Signal>, signal: Signal)
    ensures CallsIn(trace + [signal]) == CallsIn(trace) + (if signal.Handled? then signal.calls else [])
  {
    assert (trace + [signal])[..|trace|] == trace;
  }

  // ----- What the traces mean -----

  /** At most one connection at every point, and at the end each is closed once. */
  lemma {:induction false} OneConnection(trace: seq<Signal>, n: nat)
    requires PhaseOf(trace).Some? && n <= |trace|
    ensures 0 <= Count(trace[..n], s => s == Dialed(true)) - Count(trace[..n], (s: Signal) => s.Closed?) <= 1
    ensures PhaseOf(trace) == Some(Stopped) ==>
              Count(trace, s => s == Dialed(true)) == Count(trace, (s: Signal) => s.Closed?)
  {
    AcceptedPrefix(After, Start, trace, n);
    ConnectionsBalance(After, Start, Connected, s => s == Dialed(true), (s: Signal) => s.Closed?, trace[..n]);
    ConnectionsBalance(After, Start, Connected, s => s == Dialed(true), (s: Signal) => s.Closed?, trace);
  }

  /** The phases around one signal. */
  predicate Moves(phase: Phase, signal: Signal, next: Phase) {
    After(phase, signal) == Some(next)
  }

  lemma FirstMove(signal: Signal, next: Phase)
    requires Moves(Start, signal, next)
    ensures signal.Checked?
  {
  }

  lemma Step(trace: seq<Signal>, n: nat) returns (phase: Phase, next: Phase)
    requires PhaseOf(trace).Some? && n < |trace|
    ensures PhaseOf(trace[..n]) == Some(phase) && PhaseOf(trace[..n + 1]) == Some(next)
    ensures Moves(phase, trace[n], next) && (n == 0 ==> phase == Start && trace[n].Checked?)
  {
    AcceptedPrefix(After, Start, trace, n);
    phase, next := PhaseOf(trace[..n]).value, PhaseOf(trace[..n + 1]).value;
    if n == 0 {
      FirstMove(trace[n], next);
    }
  }

  predicate Delivers(signal: Signal) {
    signal.Received? && signal.arrival.Delivery?
  }

  /** The settlement of what the handler decided. */
  predicate Settles(signal: Signal, settlement: Settlement) {
    signal.Settled? && match settlement
                       case Ack => signal.action == BasicAck
                       case Reject => signal.action == BasicReject(false)
                       case NackRequeue => signal.action == BasicNack(true)
  }

  /** The delivery goes back to the queue, or nobody knows where it went. */
  predicate EndsSession(signal: Signal) {
    signal.Settled? && (signal.action == BasicNack(true) || !signal.ok)
  }

  lemma MovesOn(before: Phase, signal: Signal, phase: Phase, next: Signal, after: Phase)
    requires Moves(before, signal, phase) && Moves(phase, next, after)
    ensures Delivers(signal) <==> next.Handled?
    ensures Delivers(signal) ==>
              Conforms(BodyOf(signal.arrival.payload), signal.arrival.success, next.calls, next.settlement)
    ensures signal.Handled? <==> next.Settled?
    ensures signal.Handled? ==> Settles(next, signal.settlement)
    ensures EndsSession(signal) ==> next.Closed?
    ensures signal.Settled? && !EndsSession(signal) ==> next.Checked?
  {
  }

  /** Each delivery is handled by the decision table and settled once, as the handler decided, before anything else
      happens; a requeue or a failed settlement closes the connection, any other keeps it. */
  lemma {:induction false} SettledOnce(trace: seq<Signal>, n: nat)
    requires PhaseOf(trace).Some? && n < |trace|
    ensures trace[n].Handled? ==> n > 0 && Delivers(trace[n - 1])
    ensures trace[n].Settled? ==> n > 0 && trace[n - 1].Handled?
    ensures n + 1 < |trace| && Delivers(trace[n]) ==>
              var arrival, next := trace[n].arrival, trace[n + 1];
              next.Handled? && Conforms(BodyOf(arrival.payload), arrival.success, next.calls, next.settlement)
    ensures n + 1 < |trace| && trace[n].Handled? ==> Settles(trace[n + 1], trace[n].settlement)
    ensures n + 1 < |trace| && trace[n].Settled? ==>
              if EndsSession(trace[n]) then trace[n + 1].Closed? else trace[n + 1].Checked?
  {
    var phase, next := Step(trace, n);
    if n > 0 {
      var before, _ := Step(trace, n - 1);
      MovesOn(before, trace[n - 1], phase, trace[n], next);
    }
    if n + 1 < |trace| {
      var _, last := Step(trace, n + 1);
      MovesOn(phase, trace[n], next, trace[n + 1], last);
    }
  }

  /** What comes after what, without a word about phases. After a check that goes on, it depends on what was checked:
      the life, the loop, a lost stream, or a session's end. */
  predicate InOrder(signal: Signal, next: Signal) {
    match signal
    case Checked(cancelled) => if cancelled then next.Closed?
                               else next.Dialed? || next.Received? || next.Closed? || next.Reported?
    case Dialed(ok) => if ok then next.ChannelOpened? else next.Checked?
    case ChannelOpened(ok) => if ok then next.Consuming? else next.Closed?
    case Consuming(ok) => if ok then next.Checked? else next.Closed?
    case Received(arrival) => if arrival.Cancelled? then next.Closed?
                              else if arrival.StreamClosed? then next.Checked? else next.Handled?
    case Handled(_, settlement) => Settles(next, settlement)
    case Settled(_, _) => if EndsSession(signal) then next.Closed? else next.Checked?
    case Closed(_) => next.Checked?
    case Reported(_) => next.Waited?
    case Waited(goOn) => goOn && next.Checked?
  }

  lemma MovesInOrder(before: Phase, signal: Signal, phase: Phase, next: Signal, after: Phase)
    requires Moves(before, signal, phase) && Moves(phase, next, after)
    ensures InOrder(signal, next)
  {
  }

  /** In every trace the signals come in order. */
  lemma {:induction false} SignalsInOrder(trace: seq<Signal>, n: nat)
    requires PhaseOf(trace).Some? && n + 1 < |trace|
    ensures InOrder(trace[n], trace[n + 1])
  {
    var phase, next := Step(trace, n);
    var _, after := Step(trace, n + 1);
    MovesInOrder(phase, trace[n], next, trace[n + 1], after);
  }

  /** Why a connection in use may be closed. */
  predicate Excuses(signal: Signal) {
    || signal.Checked? || signal == Received(Cancelled) || EndsSession(signal)
    || signal == ChannelOpened(false) || signal == Consuming(false)
  }

  lemma MovesToClose(before: Phase, signal: Signal, phase: Phase, next: Signal, after: Phase)
    requires Moves(before, signal, phase) && Moves(phase, next, after)
    ensures next.Closed? ==> Excuses(signal)
    ensures next.Closed? && signal == Checked(false) ==> before == Lost
  {
  }

  lemma MovesToLost(before: Phase, signal: Signal, phase: Phase)
    requires Moves(before, signal, phase)
    ensures phase == Lost <==> signal == Received(StreamClosed)
    ensures phase == Stopped ==> signal == Checked(true) || signal == Waited(false)
    ensures before != Stopped
    ensures signal == Waited(false) ==> phase == Stopped
    ensures signal == Checked(true) ==> phase == Stopped || phase == Leaving(Cancellation)
  {
  }

  /** A connection is closed for nothing but a cancelled context, a lost stream, a requeue, a failed settlement or a
      setup that failed. */
  lemma {:induction false} ClosedForCause(trace: seq<Signal>, n: nat)
    requires PhaseOf(trace).Some? && n < |trace| && trace[n].Closed?
    ensures n > 0 && Excuses(trace[n - 1])
    ensures trace[n - 1] == Checked(false) ==> n > 1 && trace[n - 2] == Received(StreamClosed)
  {
    var phase, next := Step(trace, n);
    var before, _ := Step(trace, n - 1);
    MovesToClose(before, trace[n - 1], phase, trace[n], next);
    if n > 1 {
      var earlier, _ := Step(trace, n - 2);
      MovesToLost(earlier, trace[n - 2], before);
    }
  }

  /** The worker stops for nothing but a cancelled context. */
  lemma {:induction false} StoppedWasCancelled(trace: seq<Signal>)
    requires PhaseOf(trace) == Some(Stopped)
    ensures trace != []
    ensures trace[|trace| - 1] == Checked(true) || trace[|trace| - 1] == Waited(false)
  {
    var n := |trace| - 1;
    assert trace[..n + 1] == trace;
    var phase, next := Step(trace, n);
    MovesToLost(phase, trace[n], next);
  }

  lemma MovesToReport(before: Phase, signal: Signal, phase: Phase, next: Signal, after: Phase)
    requires Moves(before, signal, phase) && Moves(phase, next, after)
    ensures next.Reported? ==> signal == Checked(false) && before == Down(next.end)
    ensures signal.Reported? ==> next.Waited?
    ensures next.Reported? ==> after == Resting
  {
  }

  lemma EndOf(before: Phase, signal: Signal, phase: Phase)
    requires Moves(before, signal, phase) && phase.Down?
    ensures phase.end.Ended? ==> signal == Closed(phase.end.closed) && before == Leaving(phase.end.exit)
    ensures phase.end.NotStarted? ==> signal == Dialed(false) || (signal.Closed? && before == Unusable)
  {
  }

  /** A session's end is reported if the context lives on, and only then; a pause follows. */
  lemma {:induction false} ReportedWhileAlive(trace: seq<Signal>, n: nat)
    requires PhaseOf(trace).Some? && n < |trace| && trace[n].Reported?
    ensures n > 1 && trace[n - 1] == Checked(false)
    ensures match trace[n].end
            case Ended(_, closed) => trace[n - 2] == Closed(closed)
            case NotStarted => trace[n - 2] == Dialed(false) || trace[n - 2].Closed?
    ensures n + 1 < |trace| ==> trace[n + 1].Waited?
  {
    var phase, next := Step(trace, n);
    var before, _ := Step(trace, n - 1);
    MovesToReport(before, trace[n - 1], phase, trace[n], next);
    var earlier, _ := Step(trace, n - 2);
    EndOf(earlier, trace[n - 2], before);
    if n + 1 < |trace| {
      var _, after := Step(trace, n + 1);
      MovesToReport(phase, trace[n], next, trace[n + 1], after);
    }
  }

  /** The signal that made the loop end so. */
  predicate Causes(signal: Signal, exit: Exit) {
    match exit
    case Cancellation => signal == Checked(true) || signal == Received(Cancelled)
    case StreamLost => signal == Checked(false)
    case SettlementFailed => signal.Settled? && !signal.ok
    case Requeued => signal == Settled(BasicNack(true), true)
  }

  lemma MovesToLeaving(before: Phase, signal: Signal, phase: Phase)
    requires Moves(before, signal, phase) && phase.Leaving?
    ensures Causes(signal, phase.exit) && (phase.exit == StreamLost ==> before == Lost)
    ensures before != Start
  {
  }

  /** The end reported of a session is the one it had: the signal before the close says why. */
  lemma {:induction false} EndHasCause(trace: seq<Signal>, n: nat)
    requires PhaseOf(trace).Some? && n < |trace| && trace[n].Reported? && trace[n].end.Ended?
    ensures n > 3 && trace[n - 2] == Closed(trace[n].end.closed) && Causes(trace[n - 3], trace[n].end.exit)
    ensures trace[n].end.exit == StreamLost ==> trace[n - 4] == Received(StreamClosed)
  {
    ReportedWhileAlive(trace, n);
    var phase, next := Step(trace, n);
    var down, _ := Step(trace, n - 1);
    MovesToReport(down, trace[n - 1], phase, trace[n], next);
    var leaving, _ := Step(trace, n - 2);
    EndOf(leaving, trace[n - 2], down);
    var before, _ := Step(trace, n - 3);
    MovesToLeaving(before, trace[n - 3], leaving);
    var earlier, _ := Step(trace, n - 4);
    MovesToLost(earlier, trace[n - 4], before);
  }

  // ----- The surroundings -----

  /** The broker, the clock and the context as the worker meets them. Its methods may do anything their contracts
      allow; horizon says how many more checks there are before the context is cancelled. */
  class Surroundings {
    ghost var trace: seq<Signal>
    var horizon: nat

    constructor (horizon: nat)
      ensures trace == [] && this.horizon == horizon
    {
      trace, this.horizon := [], horizon;
    }

    twostate predicate Signalled(signal: Signal)
      reads this
    {
      && trace == old(trace) + [signal] && horizon <= old(horizon)
      && CallsIn(trace) == CallsIn(old(trace)) + (if signal.Handled? then signal.calls else [])
      && PhaseOf(trace) == match PhaseOf(old(trace)) case Some(phase) => After(phase, signal) case None => None
    }

    ghost method Note(signal: Signal)
      modifies this`trace
      ensures Signalled(signal)
    {
      PhaseExtends(After, Start, trace, signal);
      CallsExtend(trace, signal);
      trace := trace + [signal];
    }

    /** ctx.Err() != nil. */
    method Check() returns (cancelled: bool)
      modifies this
      ensures Signalled(Checked(cancelled)) && (!cancelled ==> horizon < old(horizon))
    {
      cancelled := horizon == 0;
      Note(Checked(cancelled));
      horizon := if cancelled then 0 else horizon - 1;
    }

    method Dial() returns (ok: bool)
      modifies this
      ensures Signalled(Dialed(ok))
    {
      ok := true;
      Note(Dialed(ok));
    }

    method OpenChannel() returns (ok: bool)
      modifies this
      ensures Signalled(ChannelOpened(ok))
    {
      ok := true;
      Note(ChannelOpened(ok));
    }

    /** Qos(1) and Consume. */
    method StartConsumer() returns (ok: bool)
      modifies this
      ensures Signalled(Consuming(ok))
    {
      ok := true;
      Note(Consuming(ok));
    }

    /** The select between a cancellation and the deliveries. */
    method Receive() returns (arrival: Arrival)
      modifies this
      ensures Signalled(Signal.Received(arrival))
    {
      arrival := StreamClosed;
      Note(Signal.Received(arrival));
    }

    /** Ack, Reject and Nack of a delivery. */
    method Settle(action: BrokerAction) returns (ok: bool)
      modifies this
      ensures Signalled(Settled(action, ok))
    {
      ok := true;
      Note(Settled(action, ok));
    }

    method CloseWithin() returns (ok: bool)
      modifies this
      ensures Signalled(Closed(ok))
    {
      ok := true;
      Note(Closed(ok));
    }

    /** workerSessionExitReporter. */
    method ReportExit(end: End)
      modifies this
      ensures Signalled(Reported(end))
    {
      Note(Reported(end));
    }

    /** waitForWorkerRetryDelay. */
    method Wait() returns (goOn: bool)
      modifies this
      ensures Signalled(Waited(goOn))
    {
      goOn := horizon > 0;
      Note(Waited(goOn));
    }
  }

  /** No delivery was handled. */
  twostate predicate Quiet(world: Surroundings)
    reads world
  {
    && old(world.trace) <= world.trace && CallsIn(world.trace) == CallsIn(old(world.trace))
    && world.horizon <= old(world.horizon)
  }

  /** The calls a method made are the calls its signals report. */
  twostate predicate Tracked(db: Database, world: Surroundings)
    reads db, world
  {
    && old(world.trace) <= world.trace && CallsIn(old(world.trace)) <= CallsIn(world.trace)
    && db.calls == old(db.calls) + CallsIn(world.trace)[|CallsIn(old(world.trace))|..]
    && old(db.log) <= db.log && world.horizon <= old(world.horizon)
  }

  lemma TracksOn(calls: seq<Call>, calls': seq<Call>, calls'': seq<Call>, c: seq<Call>, c': seq<Call>, c'': seq<Call>)
    requires c <= c' && c' <= c'' && calls' == calls + c'[|c|..] && calls'' == calls' + c''[|c'|..]
    ensures calls'' == calls + c''[|c|..]
  {
    assert c''[|c|..] == c'[|c|..] + c''[|c'|..];
  }

  // ----- One session -----

  /** newRabbitMQWorkerSessionWithDialer: a connection that does not become a session is closed again. */
  method NewSession(world: Surroundings) returns (ok: bool)
    requires PhaseOf(world.trace) == Some(Connecting)
    modifies world
    ensures Quiet(world) && PhaseOf(world.trace) == Some(if ok then Ready else Down(NotStarted))
  {
    var dialed := world.Dial();
    if !dialed {
      return false;
    }
    var hasChannel := world.OpenChannel();
    if !hasChannel {
      var _ := world.CloseWithin();
      return false;
    }
    var consuming := world.StartConsumer();
    if !consuming {
      var _ := world.CloseWithin();
      return false;
    }
    return true;
  }

  /** settleRabbitMQDelivery: one broker action, and the copy goes back to the queue exactly for a requeue. */
  method SettleDelivery(world: Surroundings, settlement: Settlement) returns (settled: bool)
    requires PhaseOf(world.trace) == Some(Settling(settlement))
    modifies world
    ensures Quiet(world) && |world.trace| == |old(world.trace)| + 1
    ensures var signal := world.trace[|old(world.trace)|]; Settles(signal, settlement) && signal.ok == settled
    ensures PhaseOf(world.trace) == Some(AfterSettling(settlement, settled))
  {
    match settlement {
      case Ack => settled := world.Settle(BasicAck);
      case Reject => settled := world.Settle(BasicReject(false));
      case NackRequeue => settled := world.Settle(BasicNack(true));
    }
  }

  /** A requeue, or a settlement that failed, ends the session. */
  function AfterSettling(settlement: Settlement, settled: bool): Phase {
    if !settled then Leaving(SettlementFailed) else if settlement == NackRequeue then Leaving(Requeued) else Ready
  }

  method HandleDelivery(db: Database, world: Surroundings, delivery: Arrival) returns (settlement: Settlement)
    requires db.Valid() && delivery.Delivery? && PhaseOf(world.trace) == Some(Busy(delivery))
    modifies db, world`trace
    ensures db.Valid() && Tracked(db, world)
    ensures Conforms(BodyOf(delivery.payload), delivery.success, db.calls[|old(db.calls)|..], settlement)
    ensures world.trace == old(world.trace) + [Handled(db.calls[|old(db.calls)|..], settlement)]
    ensures PhaseOf(world.trace) == Some(Settling(settlement))
  {
    settlement := HandleWorkerMessage(db, delivery.payload, delivery.success, delivery.first, delivery.second);
    world.Note(Handled(db.calls[|old(db.calls)|..], settlement));
  }

  /** processRabbitMQDeliveryWithProcessor: handle, then settle exactly as the handler decided, once. */
  method ProcessDelivery(db: Database, world: Surroundings, delivery: Arrival)
    returns (settlement: Settlement, settled: bool)
    requires db.Valid() && delivery.Delivery? && PhaseOf(world.trace) == Some(Busy(delivery))
    modifies db, world
    ensures db.Valid() && Tracked(db, world) && |world.trace| == |old(world.trace)| + 2
    ensures var signal := world.trace[|old(world.trace)| + 1]; Settles(signal, settlement) && signal.ok == settled
    ensures Conforms(BodyOf(delivery.payload), delivery.success, db.calls[|old(db.calls)|..], settlement)
    ensures PhaseOf(world.trace) == Some(AfterSettling(settlement, settled))
  {
    settlement := HandleDelivery(db, world, delivery);
    settled := SettleDelivery(world, settlement);
  }

  /** One round of the loop: None to go on. */
  method NextRound(db: Database, world: Surroundings) returns (exit: Option<Exit>)
    requires db.Valid() && PhaseOf(world.trace) == Some(Ready)
    modifies db, world
    ensures db.Valid() && Tracked(db, world) && (exit == None ==> world.horizon < old(world.horizon))
    ensures PhaseOf(world.trace) == Some(match exit case Some(why) => Leaving(why) case None => Ready)
  {
    var cancelled := world.Check();
    if cancelled {
      return Some(Cancellation);
    }
    var arrival := world.Receive();
    match arrival {
      case Cancelled =>
        return Some(Cancellation);
      case StreamClosed =>
        cancelled := world.Check();
        return Some(if cancelled then Cancellation else StreamLost);
      case Delivery(_, _, _, _) =>
        var settlement, settled := ProcessDelivery(db, world, arrival);
        if !settled {
          return Some(SettlementFailed);
        }
        if settlement == NackRequeue {
          return Some(Requeued);
        }
        return None;
    }
  }

  /** runWorkerDeliveryLoop. */
  method RunDeliveryLoop(db: Database, world: Surroundings) returns (exit: Exit)
    requires db.Valid() && PhaseOf(world.trace) == Some(Ready)
    modifies db, world
    ensures db.Valid() && Tracked(db, world)
    ensures PhaseOf(world.trace) == Some(Leaving(exit))
  {
    while true
      invariant db.Valid() && Tracked(db, world)
      invariant PhaseOf(world.trace) == Some(Ready)
      decreases world.horizon
    {
      ghost var calls, handled := db.calls, CallsIn(world.trace);
      var ended := NextRound(db, world);
      TracksOn(old(db.calls), calls, db.calls, CallsIn(old(world.trace)), handled, CallsIn(world.trace));
      if ended.Some? {
        return ended.value;
      }
    }
  }

  /** runWorkerSession: whatever ended the loop, the session is closed. */
  method RunSession(db: Database, world: Surroundings) returns (end: End)
    requires db.Valid() && PhaseOf(world.trace) == Some(Connecting)
    modifies db, world
    ensures db.Valid() && Tracked(db, world)
    ensures PhaseOf(world.trace) == Some(Down(end))
  {
    var started := NewSession(world);
    if !started {
      return NotStarted;
    }
    var exit := RunDeliveryLoop(db, world);
    var closed := world.CloseWithin();
    return Ended(exit, closed);
  }

  // ----- The life -----

  /** One session with what follows it. */
  method RunOnce(db: Database, world: Surroundings) returns (over: bool)
    requires db.Valid() && PhaseOf(world.trace) == Some(Start)
    modifies db, world
    ensures db.Valid() && Tracked(db, world) && (!over ==> world.horizon < old(world.horizon))
    ensures PhaseOf(world.trace) == Some(if over then Stopped else Start)
  {
    var cancelled := world.Check();
    if cancelled {
      return true;
    }
    var end := RunSession(db, world);
    over := Rest(world, end);
  }

  /** After a session: its end is reported unless the context is cancelled, and the next one waits. */
  method Rest(world: Surroundings, end: End) returns (over: bool)
    requires PhaseOf(world.trace) == Some(Down(end))
    modifies world
    ensures Quiet(world) && PhaseOf(world.trace) == Some(if over then Stopped else Start)
  {
    var cancelled := world.Check();
    if cancelled {
      return true;
    }
    world.ReportExit(end);
    var goOn := world.Wait();
    return !goOn;
  }

  /** runWorkerLifecycleWithReporter: sessions one after the other until the context is cancelled, and no connection is
      left behind. */
  method RunLifecycle(db: Database, world: Surroundings)
    requires db.Valid() && PhaseOf(world.trace) == Some(Start)
    modifies db, world
    ensures db.Valid() && Tracked(db, world)
    ensures PhaseOf(world.trace) == Some(Stopped)
  {
    var over := false;
    while !over
      invariant db.Valid() && Tracked(db, world)
      invariant PhaseOf(world.trace) == Some(if over then Stopped else Start)
      decreases !over, world.horizon
    {
      ghost var calls, handled := db.calls, CallsIn(world.trace);
      over := RunOnce(db, world);
      TracksOn(old(db.calls), calls, db.calls, CallsIn(old(world.trace)), handled, CallsIn(world.trace));
    }
  }
}
