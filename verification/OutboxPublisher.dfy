/** The outbox publisher: one publication on one AMQP channel, one cycle of begin, publish and mark, and the
    reconnecting loop that owns the channel. Everything the surroundings answer leaves a signal in a trace, and the
    automaton over these signals says what the publisher does next, to the end. */
module OutboxPublisher {
  import opened Option
  import opened Records
  import opened AtomicStore
  import opened Settlement
  import opened Database
  import opened ApiStore
  import opened Traces

  datatype Delay = Reconnect | StoreRetry | IdlePoll

  /** What reading the returns finds: nothing, the return of a row's publication, or the end of the notifications. */
  datatype Found = Nothing | Unroutable(row: Id) | Gone

  datatype Signal =
    | Checked(cancelled: bool)                             // ctx.Err()
    | Dialed(ok: bool)
    | ChannelOpened(ok: bool)
    | ConfirmsEnabled(ok: bool)
    | Asked(call: Call)                                    // a call to the store, with its reply
    | Sent(row: Id, ok: bool, confirmation: bool)          // and is there a confirmation to wait for?
    | Confirmed(waited: bool, acked: bool, found: Found)   // what the wait brought, and the returns after it
    | Waited(delay: Delay, goOn: bool)
    | Closed(ok: bool)

  datatype Phase =
    | Start                   // about to check the context, without a publisher
    | Connecting | Dialled | Opened
    | Ready                   // about to check the context, with a publisher
    | Cycling
    | Taken(row: Id)
    | Awaiting(row: Id)
    | Stored(row: Id)         // by the broker
    | Missed(row: Id)         // the publication, for whatever reason
    | Spoiled                 // the connection cannot be trusted
    | Lost                    // closed: wait, and connect anew
    | Resting(delay: Delay)
    | Leaving
    | Stopped

  function After(phase: Phase, signal: Signal): Option<Phase> {
    match phase
    case Start => if signal.Checked? then Some(if signal.cancelled then Stopped else Connecting) else None
    case Connecting => if signal.Dialed? then Some(if signal.ok then Dialled else Lost) else None
    case Dialled => if signal.ChannelOpened? then Some(if signal.ok then Opened else Spoiled) else None
    case Opened => if signal.ConfirmsEnabled? then Some(if signal.ok then Cycling else Spoiled) else None
    case Ready => if signal.Checked? then Some(if signal.cancelled then Leaving else Cycling) else None
    case Cycling => if signal.Asked? then AfterBegin(signal.call) else None
    case Taken(row) =>
      if signal.Sent? && signal.row == row
      then Some(if signal.ok && signal.confirmation then Awaiting(row) else Missed(row)) else None
    case Awaiting(row) =>
      if signal.Confirmed? then Some(if signal == Confirmed(true, true, Nothing) then Stored(row) else Missed(row))
      else None
    case Stored(row) =>
      if signal.Asked? && signal.call.op == MarkPublished(row)
      then Some(if signal.call.reply == Heard(RowUpdated) then Ready else Resting(StoreRetry)) else None
    case Missed(row) =>
      if signal.Asked? && signal.call.op == RecordPublishFailure(row, PUBLISH_FAILURE_CODE) then Some(Spoiled) else None
    case Spoiled => if signal.Closed? then Some(Lost) else None
    case Lost =>
      if signal.Waited? && signal.delay == Reconnect then Some(if signal.goOn then Start else Stopped) else None
    case Resting(delay) =>
      if signal.Waited? && signal.delay == delay then Some(if signal.goOn then Ready else Leaving) else None
    case Leaving => if signal.Closed? then Some(Stopped) else None
    case Stopped => None
  }

  function AfterBegin(call: Call): Option<Phase> {
    if call.op != BeginPublish then None
    else if call.reply.StoreError? then Some(Resting(StoreRetry))
    else if call.reply.answer.RowTaken? then Some(Taken(call.reply.answer.row))
    else if call.reply.answer.NothingToPublish? then Some(Resting(IdlePoll))
    else None
  }

  predicate Connected(phase: Phase) {
    !(phase.Start? || phase.Connecting? || phase.Lost? || phase.Stopped?)
  }

  function PhaseOf(trace: seq<Signal>): Option<Phase> {
    PhaseAfter(After, Start, trace)
  }

  /** The calls to the store that a trace reports. */
  function CallsIn(trace: seq<Signal>): seq<Call> {
    if trace == [] then []
    else
      var last := trace[|trace| - 1];
      CallsIn(trace[..|trace| - 1]) + (if last.Asked? then [last.call] else [])
  }

  lemma CallsExtend(trace: seq<Signal>, signal: Signal)
    ensures CallsIn(trace + [signal]) == CallsIn(trace) + (if signal.Asked? then [signal.call] else [])
  {
    assert (trace + [signal])[..|trace|] == trace;
  }

  // ----- What the traces mean -----

  /** At most one connection at every point, and at the end each is closed once. */
  lemma {:induction false} OneConnection(trace: seq<Signal>, n: nat)
    requires PhaseOf(trace).Some? && n <= |trace|
    ensures 0 <= Count(trace[..n], s => s == Dialed(true)) - Count(trace[..n], (s: Signal) => s.Closed?) <= 1
    ensures PhaseOf(trace) == Some(Stopped) ==>
              Count(trace, s => s == Dialed(true)) == Count(trace, (s: Signal) => s.Closed?)
  {
    AcceptedPrefix(After, Start, trace, n);
    ConnectionsBalance(After, Start, Connected, s => s == Dialed(true), (s: Signal) => s.Closed?, trace[..n]);
    ConnectionsBalance(After, Start, Connected, s => s == Dialed(true), (s: Signal) => s.Closed?, trace);
  }

  /** The publication at n - 1 and n was sent, waited for, acknowledged and not returned. */
  predicate WentThrough(trace: seq<Signal>, n: nat, row: Id)
    requires n < |trace|
  {
    n > 0 && trace[n - 1] == Sent(row, true, true) && trace[n] == Confirmed(true, true, Nothing)
  }

  /** The publication of the row ended at n, and not well. */
  predicate WentWrong(trace: seq<Signal>, n: nat, row: Id)
    requires n < |trace|
  {
    || (trace[n].Sent? && trace[n].row == row && !(trace[n].ok && trace[n].confirmation))
    || (trace[n].Confirmed? && n > 0 && trace[n - 1] == Sent(row, true, true)
        && trace[n] != Confirmed(true, true, Nothing))
  }

  /** The phases around one signal. */
  predicate Moves(phase: Phase, signal: Signal, next: Phase) {
    After(phase, signal) == Some(next)
  }

  lemma FirstMove(signal: Signal, next: Phase)
    requires Moves(Start, signal, next)
    ensures signal.Checked?
  {
  }

  lemma Step(trace: seq<Signal>, n: nat) returns (phase: Phase, next: Phase)
    requires PhaseOf(trace).Some? && n < |trace|
    ensures PhaseOf(trace[..n]) == Some(phase) && PhaseOf(trace[..n + 1]) == Some(next)
    ensures Moves(phase, trace[n], next) && (n == 0 ==> phase == Start && trace[n].Checked?)
  {
    AcceptedPrefix(After, Start, trace, n);
    phase, next := PhaseOf(trace[..n]).value, PhaseOf(trace[..n + 1]).value;
    if n == 0 {
      FirstMove(trace[n], next);
    }
  }

  predicate TookRow(signal: Signal, row: Id) {
    && signal.Asked? && signal.call.op == BeginPublish && signal.call.reply.Heard?
    && signal.call.reply.answer.RowTaken? && signal.call.reply.answer.row == row
  }

  /** What comes after a call to begin: the publication of the row that was taken, or a pause. */
  predicate FollowsBegin(reply: Reply, next: Signal) {
    if reply.StoreError? then next.Waited? && next.delay == StoreRetry
    else if reply.answer.RowTaken? then next.Sent? && next.row == reply.answer.row
    else next.Waited? && next.delay == IdlePoll
  }

  lemma MovesOn(before: Phase, signal: Signal, phase: Phase, next: Signal, after: Phase)
    requires Moves(before, signal, phase) && Moves(phase, next, after)
    ensures signal.Asked? && signal.call.op == BeginPublish ==> FollowsBegin(signal.call.reply, next)
    ensures next.Sent? ==> TookRow(signal, next.row)
    ensures next.Confirmed? ==> signal.Sent? && signal.ok && signal.confirmation
    ensures Cancels(signal) ==> next.Closed? && after == Stopped
  {
  }

  predicate Pauses(signal: Signal, delay: Delay) {
    signal.Waited? && signal.delay == delay
  }

  predicate Begins(signal: Signal) {
    signal.Asked? && signal.call.op == BeginPublish
  }

  /** What comes after what, without a word about phases. */
  predicate InOrder(signal: Signal, next: Signal) {
    match signal
    case Checked(cancelled) => if cancelled then next.Closed? else next.Dialed? || Begins(next)
    case Dialed(ok) => if ok then next.ChannelOpened? else Pauses(next, Reconnect)
    case ChannelOpened(ok) => if ok then next.ConfirmsEnabled? else next.Closed?
    case ConfirmsEnabled(ok) => if ok then Begins(next) else next.Closed?
    case Asked(call) => AfterCall(call, next)
    case Sent(_, ok, confirmation) => if ok && confirmation then next.Confirmed? else next.Asked?
    case Confirmed(_, _, _) => next.Asked?
    case Waited(_, goOn) => if goOn then next.Checked? else next.Closed?
    case Closed(_) => Pauses(next, Reconnect)
  }

  /** What comes after a call to the store. */
  predicate AfterCall(call: Call, next: Signal) {
    match call.op
    case BeginPublish => FollowsBegin(call.reply, next)
    case MarkPublished(_) => if call.reply == Heard(RowUpdated) then next.Checked? else Pauses(next, StoreRetry)
    case RecordPublishFailure(_, _) => next.Closed?
    case _ => false
  }

  lemma MovesInOrder(before: Phase, signal: Signal, phase: Phase, next: Signal, after: Phase)
    requires Moves(before, signal, phase) && Moves(phase, next, after)
    ensures InOrder(signal, next)
  {
  }

  /** In every trace the signals come in order. */
  lemma {:induction false} SignalsInOrder(trace: seq<Signal>, n: nat)
    requires PhaseOf(trace).Some? && n + 1 < |trace|
    ensures InOrder(trace[n], trace[n + 1])
  {
    var phase, next := Step(trace, n);
    var _, after := Step(trace, n + 1);
    MovesInOrder(phase, trace[n], next, trace[n + 1], after);
  }

  /** A row that was taken is published next, and nothing else ever is. */
  lemma {:induction false} TakenIsSent(trace: seq<Signal>, n: nat)
    requires PhaseOf(trace).Some? && n < |trace|
    ensures trace[n].Asked? && trace[n].call.op == BeginPublish && n + 1 < |trace| ==>
              FollowsBegin(trace[n].call.reply, trace[n + 1])
    ensures trace[n].Sent? ==> n > 0 && TookRow(trace[n - 1], trace[n].row)
    ensures trace[n].Confirmed? ==> n > 0 && trace[n - 1].Sent? && trace[n - 1].ok && trace[n - 1].confirmation
  {
    var phase, next := Step(trace, n);
    if n > 0 {
      var before, _ := Step(trace, n - 1);
      MovesOn(before, trace[n - 1], phase, trace[n], next);
    }
    if n + 1 < |trace| {
      var _, last := Step(trace, n + 1);
      MovesOn(phase, trace[n], next, trace[n + 1], last);
    }
  }

  predicate Marks(signal: Signal, row: Id) {
    signal.Asked? && signal.call.op == MarkPublished(row)
  }

  lemma MovesToMark(
    before: Phase, sent: Signal, phase: Phase, confirmed: Signal, next: Phase, mark: Signal, after: Phase)
    requires Moves(before, sent, phase) && Moves(phase, confirmed, next) && Moves(next, mark, after)
    ensures forall row ::
              sent == Sent(row, true, true) && confirmed == Confirmed(true, true, Nothing) <==> Marks(mark, row)
  {
  }

  lemma NoEarlyMark(first: Signal, phase: Phase, second: Signal, next: Phase)
    requires Moves(Start, first, phase) && Moves(phase, second, next)
    ensures !first.Asked? && !second.Asked?
  {
  }

  /** A row is marked if and only if its publication went through. */
  lemma {:induction false} MarkedIsStored(trace: seq<Signal>, n: nat, row: Id)
    requires PhaseOf(trace).Some? && n + 1 < |trace|
    ensures WentThrough(trace, n, row) <==> Marks(trace[n + 1], row)
  {
    var phase, next := Step(trace, n);
    var _, after := Step(trace, n + 1);
    if n > 0 {
      var before, _ := Step(trace, n - 1);
      MovesToMark(before, trace[n - 1], phase, trace[n], next, trace[n + 1], after);
    } else {
      NoEarlyMark(trace[0], next, trace[1], after);
    }
  }

  lemma MissedNext(phase: Phase, signal: Signal, next: Phase)
    requires Moves(phase, signal, next)
    ensures phase.Missed? ==>
              signal.Asked? && signal.call.op == RecordPublishFailure(phase.row, "broker_publish_failed")
              && next == Spoiled
    ensures phase == Spoiled ==> signal.Closed? && next == Lost
    ensures phase == Lost ==> signal.Waited? && signal.delay == Reconnect
  {
  }

  lemma WrongMisses(phase: Phase, wrong: Signal, next: Phase)
    requires Moves(phase, wrong, next)
    ensures wrong.Sent? && !(wrong.ok && wrong.confirmation) ==> next == Missed(wrong.row)
    ensures phase.Awaiting? && wrong != Confirmed(true, true, Nothing) ==> next == Missed(phase.row)
    ensures wrong.Sent? && wrong.ok && wrong.confirmation ==> next == Awaiting(wrong.row)
  {
  }

  /** A publication that went wrong is reported, then the connection is closed, and there is a pause before the next. */
  lemma {:induction false} FailureCloses(trace: seq<Signal>, n: nat, row: Id)
    requires PhaseOf(trace).Some? && n < |trace| && WentWrong(trace, n, row)
    ensures n + 1 < |trace| ==>
              trace[n + 1].Asked? && trace[n + 1].call.op == RecordPublishFailure(row, "broker_publish_failed")
    ensures n + 2 < |trace| ==> trace[n + 2].Closed?
    ensures n + 3 < |trace| ==> trace[n + 3].Waited? && trace[n + 3].delay == Reconnect
  {
    var phase, next := Step(trace, n);
    if n > 0 {
      var before, _ := Step(trace, n - 1);
      WrongMisses(before, trace[n - 1], phase);
    }
    WrongMisses(phase, trace[n], next);
    assert next == Missed(row);
    if n + 1 < |trace| {
      var _, spoiled := Step(trace, n + 1);
      MissedNext(next, trace[n + 1], spoiled);
      if n + 2 < |trace| {
        var _, lost := Step(trace, n + 2);
        MissedNext(spoiled, trace[n + 2], lost);
        if n + 3 < |trace| {
          var _, after := Step(trace, n + 3);
          MissedNext(lost, trace[n + 3], after);
        }
      }
    }
  }

  /** The context was found cancelled. */
  predicate Cancels(signal: Signal) {
    signal == Checked(true) || (signal.Waited? && !signal.goOn)
  }

  lemma StoppedMoves(before: Phase, signal: Signal, phase: Phase)
    requires Moves(before, signal, phase)
    ensures before != Stopped
    ensures phase == Stopped ==> Cancels(signal) || (signal.Closed? && before == Leaving)
    ensures phase == Leaving ==> Cancels(signal)
    ensures Cancels(signal) ==> phase == Stopped || phase == Leaving
    ensures before == Leaving ==> signal.Closed? && phase == Stopped
  {
  }

  /** The publisher stops for nothing but a cancelled context, and then it does stop, closing what is open. */
  lemma {:induction false} StopsWhenCancelled(trace: seq<Signal>, n: nat)
    requires PhaseOf(trace).Some? && n < |trace| && Cancels(trace[n])
    ensures |trace| <= n + 2 && (n + 1 < |trace| ==> trace[n + 1].Closed?)
  {
    var phase, next := Step(trace, n);
    StoppedMoves(phase, trace[n], next);
    if n + 1 < |trace| {
      var _, after := Step(trace, n + 1);
      StoppedMoves(next, trace[n + 1], after);
      if n + 2 < |trace| {
        var _, more := Step(trace, n + 2);
        StoppedMoves(after, trace[n + 2], more);
      }
    }
  }

  lemma {:induction false} StoppedWasCancelled(trace: seq<Signal>)
    requires PhaseOf(trace) == Some(Stopped)
    ensures trace != []
    ensures var last := trace[|trace| - 1];
            Cancels(last) || (last.Closed? && |trace| > 1 && Cancels(trace[|trace| - 2]))
  {
    var n := |trace| - 1;
    assert trace[..n + 1] == trace;
    var phase, next := Step(trace, n);
    StoppedMoves(phase, trace[n], next);
    if n > 0 {
      var before, _ := Step(trace, n - 1);
      StoppedMoves(before, trace[n - 1], phase);
    }
  }

  // ----- The surroundings -----

  /** A basic.return: the row whose publication could not be routed. */
  datatype Return = Return(row: Id)

  datatype PublishError =
    | NoError | NotSent | ConfirmMissing | ConfirmFailed | Returned(row: Id) | ReturnsClosed | Nacked

  /** The broker, the clock and the context as the publisher meets them: callers rely on the contracts alone. */
  class Surroundings {
    ghost var trace: seq<Signal>
    ghost var stored: multiset<Id>   // rows whose publication the broker has taken responsibility for
    var horizon: nat

    constructor (horizon: nat)
      ensures trace == [] && stored == multiset{} && this.horizon == horizon
    {
      trace, stored, this.horizon := [], multiset{}, horizon;
    }

    twostate predicate Signalled(signal: Signal)
      reads this
    {
      && trace == old(trace) + [signal] && horizon <= old(horizon)
      && CallsIn(trace) == CallsIn(old(trace)) + (if signal.Asked? then [signal.call] else [])
      && PhaseOf(trace) == match PhaseOf(old(trace)) case Some(phase) => After(phase, signal) case None => None
    }

    ghost method Note(signal: Signal)
      modifies this`trace
      ensures Signalled(signal)
    {
      PhaseExtends(After, Start, trace, signal);
      CallsExtend(trace, signal);
      trace := trace + [signal];
    }

    /** ctx.Err() != nil. */
    method Check() returns (cancelled: bool)
      modifies this`horizon, this`trace
      ensures Signalled(Checked(cancelled)) && (!cancelled ==> horizon < old(horizon))
    {
      cancelled := horizon == 0;
      Note(Checked(cancelled));
      horizon := if cancelled then 0 else horizon - 1;
    }

    /** waitForPublisherDelay. */
    method Wait(delay: Delay) returns (goOn: bool)
      modifies this`horizon, this`trace
      ensures Signalled(Waited(delay, goOn))
    {
      goOn := horizon > 0;
      Note(Waited(delay, goOn));
    }

    method Dial() returns (ok: bool)
      modifies this`horizon, this`trace
      ensures Signalled(Dialed(ok))
    {
      ok := true;
      Note(Dialed(ok));
    }

    method OpenChannel() returns (ok: bool)
      modifies this`horizon, this`trace
      ensures Signalled(ChannelOpened(ok))
    {
      ok := true;
      Note(ChannelOpened(ok));
    }

    method EnableConfirms() returns (ok: bool)
      modifies this`horizon, this`trace
      ensures Signalled(ConfirmsEnabled(ok))
    {
      ok := true;
      Note(ConfirmsEnabled(ok));
    }

    method Close() returns (ok: bool)
      modifies this`horizon, this`trace
      ensures Signalled(Closed(ok))
    {
      ok := true;
      Note(Closed(ok));
    }

    /** PublishWithDeferredConfirm: was it sent, and is there a confirmation to wait for? Once sent, and perhaps even
        if not, the publication is open on its channel. */
    method Transmit(channel: Channel, row: Id) returns (sent: bool, confirmation: bool)
      modifies channel`outstanding, this`horizon, this`trace
      ensures Signalled(Sent(row, sent, confirmation))
      ensures channel.outstanding == old(channel.outstanding) + multiset{row}
           || (!sent && channel.outstanding == old(channel.outstanding))
    {
      channel.outstanding := channel.outstanding + multiset{row};
      sent, confirmation := true, true;
      Note(Sent(row, sent, confirmation));
    }

    /** WaitContext. Meanwhile the broker may return any publication that is still open on the channel, and store any.
        The confirmation closes the publication waited for; its return, if it had one, came before. */
    method Confirm(channel: Channel, row: Id) returns (waited: bool, acked: bool)
      requires row in channel.outstanding
      modifies this`stored, this`horizon, this`trace, channel`buffer, channel`bufferOpen, channel`outstanding
      ensures Signalled(Confirmed(waited, acked, channel.Waiting()))
      ensures MayReturn(old(channel.outstanding), old(channel.buffer), channel.buffer)
      ensures old(stored) <= stored <= old(stored) + old(channel.outstanding)
      ensures channel.outstanding == if waited
              then old(channel.outstanding) - multiset{row} else old(channel.outstanding)
      ensures waited && acked && Return(row) !in channel.buffer[|old(channel.buffer)|..] ==>
                stored[row] > old(stored)[row]
    {
      stored := stored + multiset{row};
      channel.outstanding := channel.outstanding - multiset{row};
      waited, acked := true, true;
      Note(Confirmed(waited, acked, channel.Waiting()));
    }
  }

  /** What the buffer of returns, of capacity one, may look like after a wait. */
  ghost predicate MayReturn(outstanding: multiset<Id>, before: seq<Return>, after: seq<Return>) {
    after == before || (before == [] && exists row :: row in outstanding && after == [Return(row)])
  }

  /** Why a publisher is dropped after any error: whatever the broker may return while a row is published is that row's
      own if and only if nothing else is open on the channel. */
  lemma ReturnsAreOwn(outstanding: multiset<Id>, row: Id)
    ensures (forall after :: MayReturn(outstanding + multiset{row}, [], after) ==>
              after == [] || after == [Return(row)])
       <==> (forall other :: other in outstanding ==> other == row)
  {
    if other :| other in outstanding && other != row {
      assert MayReturn(outstanding + multiset{row}, [], [Return(other)]);
    }
  }

  // ----- One publication -----

  /** What the answers of the broker make of a publication: each of them its own error, and success for none but a
      publication that was sent with a confirmation, waited for, acknowledged and not returned. */
  predicate Outcome(signals: seq<Signal>, row: Id, error: PublishError) {
    && signals != [] && signals[0].Sent? && signals[0].row == row
    && (error == NotSent <==> !signals[0].ok)
    && (error == ConfirmMissing <==> signals[0].ok && !signals[0].confirmation)
    && (|signals| == if signals[0].ok && signals[0].confirmation then 2 else 1)
    && (|signals| == 2 ==>
          && signals[1].Confirmed?
          && (error == ConfirmFailed <==> !signals[1].waited)
          && (error == Returned(row) <==> signals[1].waited && signals[1].found == Unroutable(row))
          && (error == ReturnsClosed <==> signals[1].waited && signals[1].found == Gone)
          && (error == Nacked <==> signals[1].waited && signals[1].found == Nothing && !signals[1].acked)
          && (error == NoError <==> signals[1].waited && signals[1].found == Nothing && signals[1].acked))
  }

  /** rabbitMQPublisher: a connection with its channel and the buffer of returns. */
  class Channel {
    var buffer: seq<Return>
    var bufferOpen: bool
    ghost var outstanding: multiset<Id>   // publications that may still be returned on this channel

    constructor ()
      ensures buffer == [] && bufferOpen && outstanding == multiset{}
    {
      buffer, bufferOpen, outstanding := [], true, multiset{};
    }

    /** Nothing is open, and no return is waiting. */
    ghost predicate Clean()
      reads this
    {
      buffer == [] && outstanding == multiset{}
    }

    function Waiting(): Found
      reads this
    {
      if buffer != [] then Unroutable(buffer[0].row) else if bufferOpen then Nothing else Gone
    }

    /** Publish. Started on a clean channel, it can only ever read its own return, and if it succeeds the channel is
        clean again and the broker has the message. After an error it need not be clean. */
    method Publish(world: Surroundings, row: Id) returns (error: PublishError)
      requires Clean() && PhaseOf(world.trace) == Some(Taken(row))
      modifies this, world
      ensures old(world.trace) <= world.trace && world.horizon <= old(world.horizon)
      ensures Outcome(world.trace[|old(world.trace)|..], row, error)
      ensures PhaseOf(world.trace) == Some(if error == NoError then Stored(row) else Missed(row))
      ensures CallsIn(world.trace) == CallsIn(old(world.trace))
      ensures error == NoError ==> Clean() && world.stored == old(world.stored) + multiset{row}
      ensures error.Returned? ==> error.row == row
      ensures world.stored == old(world.stored) || world.stored == old(world.stored) + multiset{row}
    {
      var sent, confirmation := world.Transmit(this, row);
      if !sent {
        return NotSent;
      }
      if !confirmation {
        return ConfirmMissing;
      }
      var waited, acked := world.Confirm(this, row);
      StoredOnce(old(world.stored), world.stored, row);
      error := Read(waited, acked);
    }

    /** After the wait: the returns first, then the acknowledgement. */
    method Read(waited: bool, acked: bool) returns (error: PublishError)
      modifies this`buffer
      ensures error == if !waited then ConfirmFailed
                       else match old(Waiting())
                            case Unroutable(row) => Returned(row)
                            case Gone => ReturnsClosed
                            case Nothing => if acked then NoError else Nacked
      ensures error == NoError ==> buffer == old(buffer) == []
    {
      if !waited {
        return ConfirmFailed;
      }
      if buffer != [] {
        var returned := buffer[0];
        buffer := buffer[1..];
        return Returned(returned.row);
      } else if !bufferOpen {
        return ReturnsClosed;
      }
      if !acked {
        return Nacked;
      }
      return NoError;
    }
  }

  lemma StoredOnce(before: multiset<Id>, after: multiset<Id>, row: Id)
    requires before <= after <= before + multiset{row}
    ensures after == if after[row] > before[row] then before + multiset{row} else before
  {
  }

  // ----- One cycle -----

  datatype CycleError = Fine | BrokerFailed | StoreFailed

  /** The order of one cycle: begin, publish, and then mark if and only if the publication went through. */
  predicate Conforms(calls: seq<Call>, signals: seq<Signal>, processed: bool, error: CycleError) {
    && |calls| > 0 && calls[0].op == BeginPublish
    && match calls[0].reply
       case Heard(RowTaken(row, _)) =>
         && processed && |calls| == 2 && |signals| > 2
         && Concludes(calls[1], row, WentThrough(signals, |signals| - 2, row), error)
       case Heard(_) => |calls| == 1 && |signals| == 1 && !processed && error == Fine
       case StoreError => |calls| == 1 && |signals| == 1 && !processed && error == StoreFailed
  }

  predicate Concludes(call: Call, row: Id, published: bool, error: CycleError) {
    if published
    then call.op == MarkPublished(row) && error == (if call.reply == Heard(RowUpdated) then Fine else StoreFailed)
    else call.op == RecordPublishFailure(row, "broker_publish_failed") && error == BrokerFailed
  }

  /** The calls a method made are the calls its signals report. */
  twostate predicate Tracked(db: Database, world: Surroundings)
    reads db, world
  {
    && old(world.trace) <= world.trace && CallsIn(old(world.trace)) <= CallsIn(world.trace)
    && db.calls == old(db.calls) + CallsIn(world.trace)[|CallsIn(old(world.trace))|..]
  }

  /** The store's part after the publication: mark the row, or record the failure. A cycle without an error leaves the
      row published; a failure that was recorded leaves its code. */
  method Conclude(db: Database, world: Surroundings, row: Id, published: bool, glitch: Glitch)
    returns (error: CycleError)
    requires db.Valid() && PhaseOf(world.trace) == Some(if published then Stored(row) else Missed(row))
    modifies db, world`trace
    ensures db.Valid() && Concluded(db, world, row, published, error)
    ensures error == Fine ==> row in db.tables.outbox && db.tables.outbox[row].published
    ensures error == BrokerFailed && db.calls[|old(db.calls)|].reply == Heard(RowUpdated) ==>
              row in db.tables.outbox && db.tables.outbox[row].lastError == Some("broker_publish_failed")
  {
    if published {
      error := MarkStored(db, world, row, glitch);
    } else {
      error := ReportMissed(db, world, row, glitch);
    }
  }

  /** One call to the store, on the trace, which concludes the cycle. */
  twostate predicate Concluded(db: Database, world: Surroundings, row: Id, published: bool, error: CycleError)
    reads db, world
  {
    && |db.calls| == |old(db.calls)| + 1 && world.trace == old(world.trace) + [Asked(db.calls[|old(db.calls)|])]
    && Tracked(db, world) && PhaseOf(world.trace) == Some(PhaseFor(true, error))
    && Concludes(db.calls[|old(db.calls)|], row, published, error)
  }

  method MarkStored(db: Database, world: Surroundings, row: Id, glitch: Glitch) returns (error: CycleError)
    requires db.Valid() && PhaseOf(world.trace) == Some(Stored(row))
    modifies db, world`trace
    ensures db.Valid() && Concluded(db, world, row, true, error)
    ensures error == Fine ==> row in db.tables.outbox && db.tables.outbox[row].published
  {
    var marked := MarkOutboxPublished(db, row, glitch);
    world.Note(Asked(Call(MarkPublished(row), marked)));
    return if marked == Heard(RowUpdated) then Fine else StoreFailed;
  }

  method ReportMissed(db: Database, world: Surroundings, row: Id, glitch: Glitch) returns (error: CycleError)
    requires db.Valid() && PhaseOf(world.trace) == Some(Missed(row))
    modifies db, world`trace
    ensures db.Valid() && error == BrokerFailed && Concluded(db, world, row, false, error)
    ensures db.calls[|old(db.calls)|].reply == Heard(RowUpdated) ==>
              row in db.tables.outbox && db.tables.outbox[row].lastError == Some("broker_publish_failed")
  {
    var reported := RecordOutboxPublishFailure(db, row, PUBLISH_FAILURE_CODE, glitch);
    world.Note(Asked(Call(RecordPublishFailure(row, PUBLISH_FAILURE_CODE), reported)));
    return BrokerFailed;
  }

  /** Where a cycle leaves the loop. */
  function PhaseFor(processed: bool, error: CycleError): Phase {
    match error
    case BrokerFailed => Spoiled
    case StoreFailed => Resting(StoreRetry)
    case Fine => if processed then Ready else Resting(IdlePoll)
  }

  /** The rest of a cycle that has taken a row. */
  method PublishRow(db: Database, channel: Channel, world: Surroundings, row: Id, glitch: Glitch)
    returns (error: CycleError)
    requires db.Valid() && channel.Clean() && PhaseOf(world.trace) == Some(Taken(row))
    modifies db, channel, world
    ensures db.Valid() && Tracked(db, world) && world.horizon <= old(world.horizon)
    ensures PhaseOf(world.trace) == Some(PhaseFor(true, error))
    ensures |db.calls| == |old(db.calls)| + 1 && |world.trace| > |old(world.trace)| + 1
    ensures var signals, call := world.trace[|old(world.trace)|..], db.calls[|old(db.calls)|];
            && signals[|signals| - 1] == Asked(call)
            && Concludes(call, row, WentThrough(signals, |signals| - 2, row), error)
            && (WentThrough(signals, |signals| - 2, row) ==> world.stored == old(world.stored) + multiset{row})
    ensures error == Fine ==> row in db.tables.outbox && db.tables.outbox[row].published
    ensures error != BrokerFailed ==> channel.Clean()
  {
    db.Interference();
    var published := channel.Publish(world, row);
    db.Interference();
    ghost var before := world.trace;
    error := Conclude(db, world, row, published == NoError, glitch);
    var n := |old(world.trace)|;
    assert world.trace[n..][..|before| - n] == before[n..];
  }

  /** The start of a cycle: take a row, if there is one. */
  method TakeRow(db: Database, world: Surroundings, locked: set<Id>, glitch: Glitch) returns (begun: Reply)
    requires db.Valid() && PhaseOf(world.trace) == Some(Cycling)
    modifies db, world`trace
    ensures db.Valid() && Tracked(db, world)
    ensures db.calls == old(db.calls) + [Call(BeginPublish, begun)]
    ensures world.trace == old(world.trace) + [Asked(Call(BeginPublish, begun))]
    ensures begun.Heard? ==> begun.answer.RowTaken? || begun.answer.NothingToPublish?
    ensures PhaseOf(world.trace) == AfterBegin(Call(BeginPublish, begun))
  {
    begun := BeginOutboxPublishAttempt(db, locked, glitch);
    world.Note(Asked(Call(BeginPublish, begun)));
  }

  /** publishNextOutboxMessage, with others committing in between and any call failing. A row is marked only after
      the broker stored this very publication, and a cycle that took a row without an error leaves it published. */
  method PublishNext(db: Database, channel: Channel, world: Surroundings, locked: set<Id>, begin: Glitch, end: Glitch)
    returns (processed: bool, error: CycleError)
    requires db.Valid() && channel.Clean() && PhaseOf(world.trace) == Some(Cycling)
    modifies db, channel, world
    ensures db.Valid() && Tracked(db, world) && world.horizon <= old(world.horizon)
    ensures PhaseOf(world.trace) == Some(PhaseFor(processed, error))
    ensures Conforms(db.calls[|old(db.calls)|..], world.trace[|old(world.trace)|..], processed, error)
    ensures error != BrokerFailed ==> channel.Clean()
    ensures forall k :: |old(db.calls)| <= k < |db.calls| && db.calls[k].op.MarkPublished? ==>
              world.stored == old(world.stored) + multiset{db.calls[k].op.row}
    ensures processed && error == Fine ==>
              var row := db.calls[|old(db.calls)|].reply.answer.row;
              row in db.tables.outbox && db.tables.outbox[row].published
  {
    var begun := TakeRow(db, world, locked, begin);
    if begun.StoreError? {
      return false, StoreFailed;
    }
    if begun.answer.NothingToPublish? {
      return false, Fine;
    }
    error := PublishRow(db, channel, world, begun.answer.row, end);
    return true, error;
  }

  // ----- The loop -----

  /** newRabbitMQPublisher: a connection that does not become a publisher is closed again. */
  method NewPublisher(world: Surroundings) returns (channel: Channel?)
    requires PhaseOf(world.trace) == Some(Connecting)
    modifies world`trace, world`horizon
    ensures Quiet(world)
    ensures PhaseOf(world.trace) == Some(if channel == null then Lost else Cycling)
    ensures channel != null ==> fresh(channel) && channel.Clean()
  {
    var connected := world.Dial();
    if !connected {
      return null;
    }
    var hasChannel := world.OpenChannel();
    if !hasChannel {
      var _ := world.Close();
      return null;
    }
    var confirms := world.EnableConfirms();
    if !confirms {
      var _ := world.Close();
      return null;
    }
    channel := new Channel();
  }

  /** What one turn of the loop will meet at the database. */
  datatype Turn = Turn(locked: set<Id>, begin: Glitch, end: Glitch)

  /** The publisher variable and the trace agree, and the channel of a publisher in use is clean. */
  ghost predicate InUse(publisher: Channel?, world: Surroundings)
    reads publisher, world
  {
    && PhaseOf(world.trace) == Some(if publisher == null then Start else Ready)
    && (publisher != null ==> publisher.Clean())
  }

  lemma TracksOn(calls: seq<Call>, calls': seq<Call>, calls'': seq<Call>, c: seq<Call>, c': seq<Call>, c'': seq<Call>)
    requires c <= c' && c' <= c'' && calls' == calls + c'[|c|..] && calls'' == calls' + c''[|c'|..]
    ensures calls'' == calls + c''[|c|..]
  {
    assert c''[|c|..] == c'[|c|..] + c''[|c'|..];
  }

  /** One publication cycle and its aftermath: is the publisher kept, and is the loop over? After a failed publication
      the publisher is dropped; after a store failure it is kept, for the broker is not to blame. */
  method RunCycle(db: Database, publisher: Channel, world: Surroundings, meets: Turn)
    returns (kept: bool, over: bool, clean: bool)
    requires db.Valid() && publisher.Clean() && PhaseOf(world.trace) == Some(Cycling)
    modifies db, publisher, world
    ensures db.Valid() && Tracked(db, world) && world.horizon <= old(world.horizon)
    ensures PhaseOf(world.trace) == Some(if over then Stopped else if kept then Ready else Start)
    ensures kept && !over ==> publisher.Clean()
    ensures over ==> Ends(world.trace, clean)
  {
    over, clean, kept := false, true, true;
    var processed, error := PublishNext(db, publisher, world, meets.locked, meets.begin, meets.end);
    if error == BrokerFailed {
      kept := false;
      over := Drop(world);
    } else if error == StoreFailed || !processed {
      over, clean := Pause(world, if error == StoreFailed then StoreRetry else IdlePoll);
    }
  }

  /** A publisher that cannot be trusted is closed, whatever the close says, and a pause follows. */
  method Drop(world: Surroundings) returns (over: bool)
    requires PhaseOf(world.trace) == Some(Spoiled)
    modifies world`trace, world`horizon
    ensures Quiet(world) && PhaseOf(world.trace) == Some(if over then Stopped else Start)
    ensures over ==> Ends(world.trace, true)
  {
    var _ := world.Close();
    var goOn := world.Wait(Reconnect);
    return !goOn;
  }

  /** A pause with the publisher at hand, which is closed if the context is cancelled meanwhile. */
  method Pause(world: Surroundings, delay: Delay) returns (over: bool, clean: bool)
    requires PhaseOf(world.trace) == Some(Resting(delay))
    modifies world`trace, world`horizon
    ensures Quiet(world)
    ensures PhaseOf(world.trace) == Some(if over then Stopped else Ready)
    ensures over ==> Ends(world.trace, clean)
  {
    var goOn := world.Wait(delay);
    over, clean := !goOn, true;
    if over {
      clean := world.Close();
    }
  }

  /** The error returned is that of the last close. */
  predicate Ends(trace: seq<Signal>, clean: bool) {
    trace != [] && (clean <==> trace[|trace| - 1] != Closed(false))
  }

  /** A new publisher, or a pause without one. */
  method Connect(world: Surroundings) returns (publisher: Channel?, over: bool)
    requires PhaseOf(world.trace) == Some(Connecting)
    modifies world`trace, world`horizon
    ensures Quiet(world) && (over ==> publisher == null && Ends(world.trace, true))
    ensures PhaseOf(world.trace) == Some(if over then Stopped else if publisher == null then Start else Cycling)
    ensures publisher != null ==> fresh(publisher) && publisher.Clean()
  {
    over := false;
    publisher := NewPublisher(world);
    if publisher == null {
      var goOn := world.Wait(Reconnect);
      over := !goOn;
    }
  }

  /** No call to the store was made. */
  twostate predicate Quiet(world: Surroundings)
    reads world
  {
    && old(world.trace) <= world.trace && CallsIn(world.trace) == CallsIn(old(world.trace))
    && world.horizon <= old(world.horizon)
  }

  /** One turn of the loop: check the context, have a publisher, run a cycle. */
  method RunTurn(db: Database, publisher: Channel?, world: Surroundings, meets: Turn)
    returns (now: Channel?, over: bool, clean: bool)
    requires db.Valid() && InUse(publisher, world)
    modifies db, world, publisher
    ensures db.Valid() && Tracked(db, world) && (!over ==> world.horizon < old(world.horizon))
    ensures now == null || now == publisher || fresh(now)
    ensures if over then PhaseOf(world.trace) == Some(Stopped) && Ends(world.trace, clean) else InUse(now, world)
  {
    now, over, clean := publisher, false, true;
    var stop := world.Check();
    if stop {
      over := true;
      if publisher != null {
        clean := world.Close();
      }
      return;
    }
    if publisher == null {
      now, over := Connect(world);
    }
    if now != null {
      var kept;
      kept, over, clean := RunCycle(db, now, world, meets);
      now := if kept then now else null;
    }
  }

  /** runOutboxPublisher. Every Publish starts on a clean channel, because a publisher that failed, and may have left a
      publication open, is closed and dropped at once. It goes on until the context is cancelled, and then leaves
      nothing open: the only error it returns is that of the last close. */
  method RunOutboxPublisher(db: Database, world: Surroundings, turns: nat -> Turn) returns (clean: bool)
    requires db.Valid() && PhaseOf(world.trace) == Some(Start)
    modifies db, world
    ensures db.Valid() && Tracked(db, world)
    ensures PhaseOf(world.trace) == Some(Stopped)
    ensures Ends(world.trace, clean)
  {
    var publisher: Channel? := null;
    var turn: nat := 0;
    var over := false;
    clean := true;
    while !over
      invariant db.Valid() && Tracked(db, world)
      invariant publisher == null || fresh(publisher)
      invariant if over then PhaseOf(world.trace) == Some(Stopped) && Ends(world.trace, clean)
                else InUse(publisher, world)
      decreases !over, world.horizon
    {
      ghost var calls, asked := db.calls, CallsIn(world.trace);
      publisher, over, clean := RunTurn(db, publisher, world, turns(turn));
      TracksOn(old(db.calls), calls, db.calls, CallsIn(old(world.trace)), asked, CallsIn(world.trace));
      turn := turn + 1;
    }
  }
}
