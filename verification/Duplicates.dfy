/** Deliveries message by message: exactly when the attempts of a job bound them. */
module Duplicates {
  import opened Records
  import opened AtomicStore
  import opened SuccessInvariant
  import opened History
  import opened Settlement
  import opened Statements
  import opened Serializability
  import opened Broker
  import opened Delivery
  import opened Deliveries
  import opened Duty
  import opened WholeSystem
  import opened Contention

  /** Workers about to requeue a copy of the message. */
  function ReturningOf(q: Queue, m: Message): set<int> {
    set w | w in q.workers && q.workers[w].body == Process(m) && IsReturning(q.workers[w])
  }

  /** Copies queued, and deliveries in progress, whether or not their worker still has its connection. */
  function Around(q: Queue, m: Message): nat {
    q.ready[Process(m)] + |Holders(q, m)|
  }

  /** Copies of the message that are queued or about to be requeued. */
  function Queued(q: Queue, m: Message): nat {
    q.ready[Process(m)] + |ReturningOf(q, m)|
  }

  predicate DeliversOf(move: Move, m: Message) {
    move.OfBroker? && move.step.Deliver? && move.step.body == Process(m)
  }

  function DeliveriesOf(moves: seq<Move>, m: Message): nat {
    if moves == [] then 0
    else DeliveriesOf(moves[..|moves| - 1], m) + (if DeliversOf(moves[|moves| - 1], m) then 1 else 0)
  }

  /** What the queued copies and the remaining attempts promise: (2 - attempt_count) further deliveries at most. */
  function Promise(w: World, job: Id): nat
    requires job in w.db.tables.jobs
  {
    Queued(w.queue, OwnMessage(w.db.tables, job)) + Credit(w.db.tables.jobs[job])
  }

  /** No transaction on the job will err on what others committed. */
  ghost predicate NoClashOn(s: State, job: Id) {
    forall c :: c in s.open && Clashes(s.tables, s.open[c]) ==> s.open[c].job != job
  }

  /** One copy at most, and no clash underway. */
  ghost predicate Single(w: World, job: Id) {
    job in w.db.tables.jobs && Around(w.queue, OwnMessage(w.db.tables, job)) <= 1 && NoClashOn(w.db, job)
  }

  ghost predicate CalmMove(hash: Id -> int, w: World, move: Move) {
    Income(hash, w, move) == 0 && !Restores(move)
  }

  // ----- One copy -----

  /** Nothing arrives, and no connection or worker fails. */
  predicate Smooth(step: Step) {
    !(step.Land? || step.LateLand? || step.Inject? || step.Disconnect? || step.Crash?)
  }

  lemma SettleKeepsCopies(q: Queue, w: int, m: Message)
    requires Enabled(q, Settle(w))
    ensures Around(Apply(q, Settle(w)), m) <= Around(q, m) && Queued(Apply(q, Settle(w)), m) <= Queued(q, m)
  {
    var q' := Apply(q, Settle(w));
    assert q'.workers == q.workers - {w};
    assert Holders(q', m) == Holders(q, m) - {w};
    assert ReturningOf(q', m) == ReturningOf(q, m) - {w};
    if q.workers[w].body == Process(m) {
      assert w in Holders(q, m) && (w in ReturningOf(q, m) <==> IsReturning(q.workers[w]));
    }
  }

  lemma DeliverKeepsCopies(q: Queue, w: int, body: Body, m: Message)
    requires Enabled(q, Deliver(w, body))
    ensures Around(Apply(q, Deliver(w, body)), m) == Around(q, m)
    ensures Queued(Apply(q, Deliver(w, body)), m) + (if body == Process(m) then 1 else 0) == Queued(q, m)
  {
    var q' := Apply(q, Deliver(w, body));
    assert q'.workers == q.workers[w := Work(body, Received, true)];
    assert w !in Holders(q, m);
    if body == Process(m) {
      assert Holders(q', m) == Holders(q, m) + {w};
    } else {
      assert Holders(q', m) == Holders(q, m);
    }
    assert ReturningOf(q', m) == ReturningOf(q, m);
  }

  /** Only the copy a worker holds and whether it is about to return matter here. */
  lemma SameCopies(q: Queue, q': Queue, m: Message)
    requires q'.ready == q.ready && q'.workers.Keys == q.workers.Keys
    requires forall w :: w in q.workers ==>
      q'.workers[w].body == q.workers[w].body && (IsReturning(q'.workers[w]) <==> IsReturning(q.workers[w]))
    ensures Around(q', m) == Around(q, m) && Queued(q', m) == Queued(q, m)
  {
    forall w ensures w in Holders(q', m) <==> w in Holders(q, m) {
      assert w in q'.workers.Keys <==> w in q.workers.Keys;
    }
    forall w ensures w in ReturningOf(q', m) <==> w in ReturningOf(q, m) {
      assert w in q'.workers.Keys <==> w in q.workers.Keys;
    }
    assert Holders(q', m) == Holders(q, m) && ReturningOf(q', m) == ReturningOf(q, m);
  }

  lemma BrokerKeepsCopies(q: Queue, step: Step, m: Message)
    requires Enabled(q, step) && Smooth(step)
    ensures Around(Apply(q, step), m) <= Around(q, m)
    ensures Queued(Apply(q, step), m) + (if step.Deliver? && step.body == Process(m) then 1 else 0) <= Queued(q, m)
  {
    if step.Settle? {
      SettleKeepsCopies(q, step.worker, m);
    } else if step.Deliver? {
      DeliverKeepsCopies(q, step.worker, step.body, m);
    } else {
      SameCopies(q, Apply(q, step), m);
    }
  }

  predicate ReturnsCopy(q: Queue, c: Client, reply: Reply, m: Message) {
    Returns(q, c, reply) && q.workers[c.worker].body == Process(m) && q.workers[c.worker].owned
  }

  lemma HearKeepsCopies(q: Queue, c: Client, reply: Reply, m: Message)
    ensures Around(Hear(q, c, reply), m) == Around(q, m)
    ensures Queued(Hear(q, c, reply), m) <= Queued(q, m) + (if ReturnsCopy(q, c, reply, m) then 1 else 0)
  {
    var q' := Hear(q, c, reply);
    if c.Worker? && Awaited(q, c).Some? {
      var w := c.worker;
      assert q' == q.(workers := q.workers[w := q.workers[w].(stage := NextStage(q.workers[w].stage, reply))]);
      assert Holders(q', m) == Holders(q, m);
      assert ReturningOf(q', m) <= ReturningOf(q, m) + (if ReturnsCopy(q, c, reply, m) then {w} else {});
      Subset(ReturningOf(q', m), ReturningOf(q, m) + (if ReturnsCopy(q, c, reply, m) then {w} else {}));
    } else {
      SameCopies(q, q', m);
    }
  }

  /** An operation on an existing job never raises what its attempts promise; a counted retry lowers it. */
  lemma EffectOnCredit(t: Tables, e: Entry, job: Id)
    requires Allowed(t, e) && job in t.jobs
    ensures job in Effect(t, e).jobs && Effect(t, e).jobs[job].item == t.jobs[job].item
    ensures Credit(Effect(t, e).jobs[job]) <= Credit(t.jobs[job])
    ensures Retried(e) && e.op.limit == MAX_ATTEMPTS && e.op.job == job ==>
              Credit(Effect(t, e).jobs[job]) + 1 == Credit(t.jobs[job])
  {
  }

  lemma TwoHolders(q: Queue, m: Message, v: int, w: int)
    requires v != w && v in Holders(q, m) && w in Holders(q, m)
    ensures Around(q, m) >= 2
  {
    Subset({v, w}, Holders(q, m));
  }

  /** A completion past its read and a failure that counts are two deliveries of the job's own message. */
  lemma ClashNeedsTwo(w: World, c: Client, e: Entry, d: Client, job: Id)
    requires MayRun(w.queue, c, e.op) && Allowed(w.db.tables, e) && Exhausts(e, job)
    requires d in w.db.open && MayRun(w.queue, d, Purpose(w.db.open[d])) && PastRead(w.db.open[d])
    requires w.db.open[d].job == job && BelongsTo(w.db.tables, job, w.db.open[d].item)
    ensures Around(w.queue, OwnMessage(w.db.tables, job)) >= 2
  {
    var m := OwnMessage(w.db.tables, job);
    assert c.Worker? && w.queue.workers[c.worker].body == Process(m);
    assert d.Worker? && w.queue.workers[d.worker].body == Process(m);
    TwoHolders(w.queue, m, c.worker, d.worker);
  }

  /** With one copy around, a job's last failure finds no completion to disturb. */
  lemma SingleMakesNoClash(hash: Id -> int, w: World, c: Client, e: Entry, d: Client, job: Id)
    requires Lawful(hash, w) && Single(w, job) && MayRun(w.queue, c, e.op) && Allowed(w.db.tables, e)
    requires d in w.db.open && (PastRead(w.db.open[d]) || w.db.open[d].FailureMissed?) && w.db.open[d].job == job
    ensures !Clashes(Effect(w.db.tables, e), w.db.open[d])
  {
    if Clashes(Effect(w.db.tables, e), w.db.open[d]) {
      ClashHasCause(hash, w.db, e, d);
      assert Current(w.db.tables, w.db.next, w.db.open[d]) && MayRun(w.queue, d, Purpose(w.db.open[d]));
      if PastRead(w.db.open[d]) && Exhausts(e, job) {
        ClashNeedsTwo(w, c, e, d, job);
      }
    }
  }

  lemma AnswerKeepsSingle(hash: Id -> int, w: World, c: Client, heard: bool, w': World, job: Id)
    requires Lawful(hash, w) && Single(w, job)
    requires Turns(hash, w, OfDatabase(Run(c), heard), w') && Statement(hash, w.db, c).Answers?
    ensures NoClashOn(w'.db, job)
  {
    var e := Entry(Purpose(w.db.open[c]), Statement(hash, w.db, c).answer);
    AnswerRefines(hash, w.db, c);
    assert MayRun(w.queue, c, e.op);
    forall d | d in w'.db.open && Clashes(w'.db.tables, w'.db.open[d]) ensures w'.db.open[d].job != job {
      if w'.db.open[d].job == job {
        SingleMakesNoClash(hash, w, c, e, d, job);
      }
    }
  }

  /** A worker that errs was clashing. */
  lemma ErrorIsForeign(hash: Id -> int, w: World, c: Client, job: Id)
    requires Lawful(hash, w) && Single(w, job) && c in w.db.open && Statement(hash, w.db, c).Errs?
    ensures Returns(w.queue, c, StoreError) ==> w.queue.workers[c.worker].body != Process(OwnMessage(w.db.tables, job))
  {
    ErrsMeansClash(hash, w.db, c);
    assert MayRun(w.queue, c, Purpose(w.db.open[c]));
  }

  /** A heard answer requeues a copy of the job's message only for a counted retry of the job. */
  lemma HeardKeepsPromise(w: World, c: Client, e: Entry, job: Id)
    requires Sound(w.db.tables) && MayRun(w.queue, c, e.op) && Allowed(w.db.tables, e) && job in w.db.tables.jobs
    ensures var m, q' := OwnMessage(w.db.tables, job), Hear(w.queue, c, Heard(e.answer));
            && Around(q', m) == Around(w.queue, m)
            && Queued(q', m) <= Queued(w.queue, m)
                + (if Retried(e) && e.op.limit == MAX_ATTEMPTS && e.op.job == job then 1 else 0)
  {
    var m := OwnMessage(w.db.tables, job);
    HearKeepsCopies(w.queue, c, Heard(e.answer), m);
    if Returns(w.queue, c, Heard(e.answer)) {
      RequeueMeansRetry(Abstract(w), c, e);
    }
  }

  /** Promise and deliveries over one statement that answers. */
  lemma AnswerKeepsPromise(hash: Id -> int, w: World, c: Client, heard: bool, w': World, job: Id)
    requires Lawful(hash, w) && job in w.db.tables.jobs && CalmMove(hash, w, OfDatabase(Run(c), heard))
    requires Turns(hash, w, OfDatabase(Run(c), heard), w') && Statement(hash, w.db, c).Answers?
    ensures job in w'.db.tables.jobs && OwnMessage(w'.db.tables, job) == OwnMessage(w.db.tables, job)
    ensures Around(w'.queue, OwnMessage(w.db.tables, job)) == Around(w.queue, OwnMessage(w.db.tables, job))
    ensures Promise(w', job) <= Promise(w, job)
  {
    var e := Entry(Purpose(w.db.open[c]), Statement(hash, w.db, c).answer);
    LawfulIsSound(hash, w);
    AnswerRefines(hash, w.db, c);
    assert MayRun(w.queue, c, e.op);
    EffectOnCredit(w.db.tables, e, job);
    if heard {
      HeardKeepsPromise(w, c, e, job);
    } else {
      HearKeepsCopies(w.queue, c, StoreError, OwnMessage(w.db.tables, job));
    }
  }

  lemma TurnKeepsPromise(hash: Id -> int, w: World, move: Move, w': World, job: Id)
    requires Lawful(hash, w) && Single(w, job) && Turns(hash, w, move, w') && CalmMove(hash, w, move)
    ensures Single(w', job) && OwnMessage(w'.db.tables, job) == OwnMessage(w.db.tables, job)
    ensures Promise(w', job) + (if DeliversOf(move, OwnMessage(w.db.tables, job)) then 1 else 0) <= Promise(w, job)
  {
    var m := OwnMessage(w.db.tables, job);
    match move
    case OfBroker(step) => BrokerKeepsCopies(w.queue, step, m);
    case GivesUp(c) => HearKeepsCopies(w.queue, c, StoreError, m);
    case OfDatabase(Run(c), heard) =>
      var outcome := Statement(hash, w.db, c);
      if outcome.Answers? {
        AnswerKeepsPromise(hash, w, c, heard, w', job);
        AnswerKeepsSingle(hash, w, c, heard, w', job);
      } else if outcome.Errs? {
        ErrorIsForeign(hash, w, c, job);
        HearKeepsCopies(w.queue, c, StoreError, m);
      } else {
        ProceedMakesNoClash(hash, w.db, c);
      }
    case OfDatabase(Drop(c), _) => HearKeepsCopies(w.queue, c, StoreError, m);
    case OfDatabase(Begin(c, op), _) =>
    case OfDatabase(Backup, _) =>
  }

  /** With a single copy of its message around, and whatever the rest of the system does, a job's deliveries number
      at most its queued copies plus (2 - attempt_count). */
  lemma {:induction false} SingleIsBounded(hash: Id -> int, worlds: seq<World>, moves: seq<Move>, job: Id)
    requires Course(hash, worlds, moves) && Lawful(hash, worlds[0]) && Calm(hash, worlds, moves)
             && Single(worlds[0], job)
    ensures var w := worlds[|moves|];
            && Single(w, job) && OwnMessage(w.db.tables, job) == OwnMessage(worlds[0].db.tables, job)
            && DeliveriesOf(moves, OwnMessage(worlds[0].db.tables, job)) + Promise(w, job) <= Promise(worlds[0], job)
    decreases |moves|
  {
    if moves != [] {
      var n := |moves| - 1;
      CalmPrefix(hash, worlds, moves);
      SingleIsBounded(hash, worlds[..n + 1], moves[..n], job);
      TurnKeepsPromise(hash, worlds[n], moves[n], worlds[n + 1], job);
    }
  }

  lemma CalmPrefix(hash: Id -> int, worlds: seq<World>, moves: seq<Move>)
    requires Course(hash, worlds, moves) && Lawful(hash, worlds[0]) && Calm(hash, worlds, moves) && moves != []
    ensures var n := |moves| - 1;
            && Course(hash, worlds[..n + 1], moves[..n]) && Calm(hash, worlds[..n + 1], moves[..n])
            && Lawful(hash, worlds[n]) && CalmMove(hash, worlds[n], moves[n])
            && Turns(hash, worlds[n], moves[n], worlds[n + 1])
  {
    var n := |moves| - 1;
    CoursePrefix(hash, worlds, moves, n);
    CourseKeepsLawful(hash, worlds, moves, n);
    forall k | 0 <= k < n ensures Income(hash, worlds[..n + 1][k], moves[..n][k]) == 0 && !Restores(moves[..n][k]) {
      assert Income(hash, worlds[k], moves[k]) == 0 && !Restores(moves[k]);
    }
    assert Income(hash, worlds[n], moves[n]) == 0 && !Restores(moves[n]);
  }

  // ----- All jobs together -----

  /** No accepted job has two copies around, and nobody is about to err. */
  ghost predicate Orderly(w: World) {
    Clashing(w.db) == {} && forall job :: HasJob(w.db.tables, job, Accepted) ==> Single(w, job)
  }

  /** Only an acceptance makes a job accepted. */
  lemma AcceptedWasAccepted(t: Tables, e: Entry, job: Id)
    requires Allowed(t, e) && !e.answer.JobAccepted? && HasJob(Effect(t, e), job, Accepted)
    ensures HasJob(t, job, Accepted)
  {
  }

  lemma CalmTablesKeepJobs(hash: Id -> int, w: World, move: Move, w': World, job: Id)
    requires Lawful(hash, w) && Turns(hash, w, move, w') && CalmMove(hash, w, move)
             && HasJob(w'.db.tables, job, Accepted)
    ensures HasJob(w.db.tables, job, Accepted)
  {
    if move.OfDatabase? && move.action.Run? && Statement(hash, w.db, move.action.client).Answers? {
      var c := move.action.client;
      AnswerRefines(hash, w.db, c);
      AcceptedWasAccepted(w.db.tables, Entry(Purpose(w.db.open[c]), Statement(hash, w.db, c).answer), job);
    }
  }

  /** A clash after an answer would have a cause, and the cause two copies. */
  lemma OrderAnswersWithoutClash(hash: Id -> int, w: World, c: Client, e: Entry, d: Client)
    requires Lawful(hash, w) && Orderly(w) && MayRun(w.queue, c, e.op) && Allowed(w.db.tables, e)
    requires d in w.db.open && !e.answer.JobAccepted?
    ensures !Clashes(Effect(w.db.tables, e), w.db.open[d])
  {
    assert d in Clashing(w.db) <==> Clashes(w.db.tables, w.db.open[d]);
    if Clashes(Effect(w.db.tables, e), w.db.open[d]) {
      ClashHasCause(hash, w.db, e, d);
      SingleMakesNoClash(hash, w, c, e, d, w.db.open[d].job);
    }
  }

  lemma OrderMakesNoClash(hash: Id -> int, w: World, move: Move, w': World, d: Client)
    requires Lawful(hash, w) && Orderly(w) && Turns(hash, w, move, w') && CalmMove(hash, w, move)
    requires d in w'.db.open
    ensures !Clashes(w'.db.tables, w'.db.open[d])
  {
    assert d in w.db.open ==> (d in Clashing(w.db) <==> Clashes(w.db.tables, w.db.open[d]));
    if move.OfDatabase? && move.action.Run? {
      var c := move.action.client;
      if Statement(hash, w.db, c).Answers? {
        var e := Entry(Purpose(w.db.open[c]), Statement(hash, w.db, c).answer);
        AnswerRefines(hash, w.db, c);
        assert MayRun(w.queue, c, e.op);
        OrderAnswersWithoutClash(hash, w, c, e, d);
      } else if Statement(hash, w.db, c).Proceeds? {
        ProceedMakesNoClash(hash, w.db, c);
      }
    }
  }

  lemma TurnKeepsOrder(hash: Id -> int, w: World, move: Move, w': World)
    requires Lawful(hash, w) && Orderly(w) && Turns(hash, w, move, w') && CalmMove(hash, w, move)
    ensures Orderly(w')
  {
    forall d | d in w'.db.open ensures !Clashes(w'.db.tables, w'.db.open[d]) {
      OrderMakesNoClash(hash, w, move, w', d);
    }
    forall job | HasJob(w'.db.tables, job, Accepted) ensures Single(w', job) {
      CalmTablesKeepJobs(hash, w, move, w', job);
      TurnKeepsPromise(hash, w, move, w', job);
    }
  }

  lemma OrderMeansNoError(hash: Id -> int, w: World, c: Client)
    requires Lawful(hash, w) && Orderly(w) && c in w.db.open
    ensures !Statement(hash, w.db, c).Errs?
  {
    assert c in Clashing(w.db) <==> Clashes(w.db.tables, w.db.open[c]);
    if Statement(hash, w.db, c).Errs? {
      ErrsMeansClash(hash, w.db, c);
    }
  }

  /** In order and in calm, an event costs nothing from outside. */
  lemma OrderIsFree(hash: Id -> int, w: World, move: Move)
    requires Lawful(hash, w) && Orderly(w) && CalmMove(hash, w, move) && EventOf(hash, w, move).Some?
    requires move.OfDatabase? ==> move.action.Run? || move.action.Drop?
    ensures !EventOf(hash, w, move).value.Rewind? && Supply(w.queue, EventOf(hash, w, move).value) == 0
  {
    if move.OfDatabase? && move.action.Run? {
      OrderMeansNoError(hash, w, move.action.client);
    }
  }

  lemma OrderlyTurnIsPaid(hash: Id -> int, w: World, move: Move, w': World)
    requires Lawful(hash, w) && Orderly(w) && Turns(hash, w, move, w') && CalmMove(hash, w, move)
    ensures Potential(Abstract(w')) + (if Delivers(move) then 1 else 0) <= Potential(Abstract(w))
  {
    LawfulIsSound(hash, w);
    TurnRefines(hash, w, move, w');
    var event := EventOf(hash, w, move);
    if event.Some? {
      OrderIsFree(hash, w, move);
      EventIsPaid(Abstract(w), event.value, Abstract(w'));
    }
  }

  /** If no accepted job has two copies around, calm deliveries number at most the copies queued or on their way back
      plus the sum over accepted jobs of (2 - attempt_count): the bound without clashes. */
  lemma {:induction false} OrderlyDeliveries(hash: Id -> int, worlds: seq<World>, moves: seq<Move>)
    requires Course(hash, worlds, moves) && Lawful(hash, worlds[0]) && Calm(hash, worlds, moves) && Orderly(worlds[0])
    ensures Orderly(worlds[|moves|])
    ensures Count(moves, Delivers) + Potential(Abstract(worlds[|moves|])) <=
              |worlds[0].queue.ready| + |Returning(worlds[0].queue)| + Budget(worlds[0].db.tables.jobs)
    decreases |moves|
  {
    if moves != [] {
      var n := |moves| - 1;
      CalmPrefix(hash, worlds, moves);
      OrderlyDeliveries(hash, worlds[..n + 1], moves[..n]);
      TurnKeepsOrder(hash, worlds[n], moves[n], worlds[n + 1]);
      OrderlyTurnIsPaid(hash, worlds[n], moves[n], worlds[n + 1]);
    }
  }
}
