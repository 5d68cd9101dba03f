/** Deliveries, counted statement by statement, with what concurrent workers do to each other inside the count: a
    completion whose job is failed under its hands errs, and its copy returns although no attempt was spent. */
module Contention {
  import opened Records
  import opened AtomicStore
  import opened SuccessInvariant
  import opened History
  import opened Settlement
  import opened Statements
  import opened Serializability
  import opened LockOrder
  import opened Broker
  import opened Delivery
  import opened Deliveries
  import opened WholeSystem
  import opened WholeRuns

  /** A completion that has read its job as accepted and has not updated it yet. */
  predicate PastRead(tx: Transaction) {
    tx.CompleteInspected? || tx.CompleteRead? || tx.CompleteResultAdded? || tx.CompleteItemDone?
  }

  /** The transaction will err on what others have committed: a completion past its read whose job has failed, or
      a failure recording that missed a job which is accepted after all. */
  predicate Clashes(t: Tables, tx: Transaction) {
    || (PastRead(tx) && HasJob(t, tx.job, Failed))
    || (tx.FailureMissed? && Active(t, tx.item, tx.job))
  }

  ghost function Clashing(s: State): set<Client> {
    set c | c in s.open && Clashes(s.tables, s.open[c])
  }

  /** No transaction errs but by such a clash. */
  lemma ErrsMeansClash(hash: Id -> int, s: State, c: Client)
    requires Invariant(hash, s) && c in s.open && Statement(hash, s, c).Errs?
    ensures Clashes(s.tables, s.open[c])
  {
    CompletionConflicts(hash, s, c);
    assert Current(s.tables, s.next, s.open[c]);
  }

  /** A statement that leaves its transaction open makes no clash. */
  lemma ProceedMakesNoClash(hash: Id -> int, s: State, c: Client)
    requires Invariant(hash, s) && c in s.open && Statement(hash, s, c).Proceeds?
    ensures var tx := Statement(hash, s, c).tx;
            Clashes(s.tables, tx) ==> Clashes(s.tables, s.open[c]) && s.open[c].job == tx.job
  {
    assert Current(s.tables, s.next, s.open[c]);
  }

  /** The advisory lock lets one completion at a time past its read of a job. */
  lemma OnePastRead(hash: Id -> int, s: State, c: Client, d: Client)
    requires Invariant(hash, s) && c in s.open && d in s.open
    requires PastRead(s.open[c]) && PastRead(s.open[d]) && s.open[c].job == s.open[d].job
    ensures c == d
  {
    assert Current(s.tables, s.next, s.open[c]) && Current(s.tables, s.next, s.open[d]);
    assert c != d ==> Apart(hash, s.open[c], s.open[d]);
  }

  /** Failure recordings that did not find the job they are about to look up. */
  ghost function Missing(s: State, job: Id): set<Client> {
    set c | c in s.open && s.open[c].FailureMissed? && s.open[c].job == job
  }

  /** The clashes an answer adds: one for a job that has just failed, and those of lookups for a job that is new. */
  ghost function NewClashes(s: State, e: Entry): nat {
    if e.answer.Exhausted? then 1
    else if e.answer.JobAccepted? then |Missing(s, e.answer.job)|
    else 0
  }

  lemma TerminalStaysTerminal(t: Tables, e: Entry, job: Id)
    requires Allowed(t, e) && job in t.jobs
    ensures job in Effect(t, e).jobs && Effect(t, e).jobs[job].item == t.jobs[job].item
    ensures Terminal(t.jobs[job]) ==> Effect(t, e).jobs[job] == t.jobs[job]
    ensures HasJob(Effect(t, e), job, Failed) && !HasJob(t, job, Failed) ==> Exhausts(e, job)
  {
  }

  /** Who clashes after an answer clashed before, or belongs to the new ones. */
  lemma ClashHasCause(hash: Id -> int, s: State, e: Entry, d: Client)
    requires Invariant(hash, s) && d in s.open && Allowed(s.tables, e)
    requires Clashes(Effect(s.tables, e), s.open[d]) && !Clashes(s.tables, s.open[d])
    ensures (PastRead(s.open[d]) && Exhausts(e, s.open[d].job))
         || (s.open[d].FailureMissed? && e.answer.JobAccepted? && e.answer.job == s.open[d].job)
  {
    assert Current(s.tables, s.next, s.open[d]);
    if PastRead(s.open[d]) || s.open[d].job in s.tables.jobs {
      TerminalStaysTerminal(s.tables, e, s.open[d].job);
    }
  }

  lemma AnswerClashes(hash: Id -> int, s: State, c: Client, s': State, e: Entry)
    requires Invariant(hash, s) && c in s.open && Allowed(s.tables, e)
    requires s'.tables == Effect(s.tables, e) && s'.open == s.open - {c}
    ensures |Clashing(s')| <= |Clashing(s)| + NewClashes(s, e)
  {
    var added := Clashing(s') - Clashing(s);
    forall d | d in added
      ensures (PastRead(s.open[d]) && Exhausts(e, s.open[d].job))
           || (s.open[d].FailureMissed? && e.answer.JobAccepted? && e.answer.job == s.open[d].job)
    {
      ClashHasCause(hash, s, e, d);
    }
    if e.answer.Exhausted? {
      forall a, b | a in added && b in added ensures a == b {
        OnePastRead(hash, s, a, b);
      }
      AtMostOne(added);
    } else if e.answer.JobAccepted? {
      Subset(added, Missing(s, e.answer.job));
    } else {
      assert added == {};
    }
    Subset(Clashing(s'), Clashing(s) + added);
  }

  lemma AtMostOne<T>(s: set<T>)
    requires forall a, b :: a in s && b in s ==> a == b
    ensures |s| <= 1
  {
    if s != {} {
      var x :| x in s;
      assert s == {x};
    }
  }

  lemma {:induction false} Subset<T>(a: set<T>, b: set<T>)
    requires a <= b
    ensures |a| <= |b|
    decreases |a|
  {
    if a != {} {
      var x :| x in a;
      Subset(a - {x}, b - {x});
    }
  }

  // ----- The account -----

  /** What can still pay for a delivery: copies queued or about to be requeued, attempts of accepted jobs, clashes. */
  ghost function Reserve(w: World): nat {
    |w.queue.ready| + |Returning(w.queue)| + Total(w.db.tables.jobs, AttemptsLeft) + |Clashing(w.db)|
  }

  /** What a move adds from outside: copies, a new job, and the faults a worker meets. A clash is none of these. */
  ghost function Income(hash: Id -> int, w: World, move: Move): nat {
    match move
    case OfBroker(step) =>
      if step.Land? || step.LateLand? || step.Inject? || step.Disconnect? || step.Crash? then 1 else 0
    case GivesUp(c) => if c.Worker? then 1 else 0
    case OfDatabase(Drop(c), _) => if c.Worker? then 1 else 0
    case OfDatabase(Run(c), heard) =>
      if c !in w.db.open then 0
      else (match Statement(hash, w.db, c)
            case Answers(answer, _) =>
              (if answer.JobAccepted? then MAX_ATTEMPTS + |Missing(w.db, answer.job)| else 0)
              + (if c.Worker? && !heard then 1 else 0)
            case _ => 0)
    case _ => 0
  }

  predicate Delivers(move: Move) {
    move.OfBroker? && move.step.Deliver?
  }

  function Count(moves: seq<Move>, counts: Move -> bool): nat {
    if moves == [] then 0
    else Count(moves[..|moves| - 1], counts) + (if counts(moves[|moves| - 1]) then 1 else 0)
  }

  ghost function Incomes(hash: Id -> int, worlds: seq<World>, moves: seq<Move>): nat
    requires |worlds| == |moves| + 1
    decreases |moves|
  {
    if moves == [] then 0
    else
      var n := |moves| - 1;
      Incomes(hash, worlds[..n + 1], moves[..n]) + Income(hash, worlds[n], moves[n])
  }

  lemma AcceptedHasAttempts(hash: Id -> int, w: World, job: Id)
    requires Lawful(hash, w) && HasJob(w.db.tables, job, Accepted)
    ensures w.db.tables.jobs[job].attempts < MAX_ATTEMPTS
  {
    CountersBounded(w.db.log);
  }

  lemma BrokerIsPaid(hash: Id -> int, w: World, step: Step, w': World)
    requires Turns(hash, w, OfBroker(step), w')
    ensures Reserve(w') + (if step.Deliver? then 1 else 0) <= Reserve(w) + Income(hash, w, OfBroker(step))
  {
    LocalIsPaid(Abstract(w), step);
  }

  /** What an answer makes a worker requeue is a counted failure, or was not heard. */
  lemma AnswerReturns(w: World, c: Client, e: Entry, heard: bool)
    requires Sound(w.db.tables) && MayRun(w.queue, c, e.op) && Allowed(w.db.tables, e)
    ensures var q' := Hear(w.queue, c, if heard then Heard(e.answer) else StoreError);
            && q'.ready == w.queue.ready
            && |Returning(q')| <= |Returning(w.queue)| + (if Retried(e) then 1 else 0)
                                  + (if c.Worker? && !heard then 1 else 0)
  {
    var reply := if heard then Heard(e.answer) else StoreError;
    HearReturns(w.queue, c, reply);
    if heard && Returns(w.queue, c, reply) {
      RequeueMeansRetry(Abstract(w), c, e);
    }
  }

  /** The attempt a counted failure spends pays for its requeue, or for the clash it causes. */
  lemma AnswerSpends(hash: Id -> int, w: World, c: Client, e: Entry)
    requires Lawful(hash, w) && MayRun(w.queue, c, e.op) && Allowed(w.db.tables, e)
    ensures Total(Effect(w.db.tables, e).jobs, AttemptsLeft) + (if Retried(e) then 1 else 0) + NewClashes(w.db, e)
         <= Total(w.db.tables.jobs, AttemptsLeft)
            + (if e.answer.JobAccepted? then MAX_ATTEMPTS + |Missing(w.db, e.answer.job)| else 0)
  {
    EffectOnAttempts(w.db.tables, e);
    if e.op.RecordFailure? && (e.answer.Retryable? || e.answer.Exhausted?) {
      AcceptedHasAttempts(hash, w, e.op.job);
    }
  }

  predicate Retried(e: Entry) {
    e.op.RecordFailure? && e.answer.Retryable?
  }

  lemma AnswerIsPaid(hash: Id -> int, w: World, c: Client, heard: bool, w': World)
    requires Lawful(hash, w) && Turns(hash, w, OfDatabase(Run(c), heard), w') && Statement(hash, w.db, c).Answers?
    ensures Reserve(w') <= Reserve(w) + Income(hash, w, OfDatabase(Run(c), heard))
  {
    var e := Entry(Purpose(w.db.open[c]), Statement(hash, w.db, c).answer);
    LawfulIsSound(hash, w);
    AnswerRefines(hash, w.db, c);
    AnswerClashes(hash, w.db, c, w'.db, e);
    AnswerReturns(w, c, e, heard);
    AnswerSpends(hash, w, c, e);
  }

  /** An error pays with its clash. */
  lemma ErrorIsPaid(hash: Id -> int, w: World, c: Client, heard: bool, w': World)
    requires Lawful(hash, w) && Turns(hash, w, OfDatabase(Run(c), heard), w') && Statement(hash, w.db, c).Errs?
    ensures Reserve(w') <= Reserve(w)
  {
    ErrsMeansClash(hash, w.db, c);
    HearReturns(w.queue, c, StoreError);
    assert c in Clashing(w.db) && Clashing(w'.db) == Clashing(w.db) - {c};
  }

  lemma TurnIsPaid(hash: Id -> int, w: World, move: Move, w': World)
    requires Lawful(hash, w) && Turns(hash, w, move, w') && !Restores(move)
    ensures Reserve(w') + (if Delivers(move) then 1 else 0) <= Reserve(w) + Income(hash, w, move)
  {
    match move
    case OfBroker(step) => BrokerIsPaid(hash, w, step, w');
    case GivesUp(c) => HearReturns(w.queue, c, StoreError);
    case OfDatabase(Run(c), heard) =>
      var outcome := Statement(hash, w.db, c);
      if outcome.Answers? {
        AnswerIsPaid(hash, w, c, heard, w');
      } else if outcome.Errs? {
        ErrorIsPaid(hash, w, c, heard, w');
      } else {
        ProceedMakesNoClash(hash, w.db, c);
        Subset(Clashing(w'.db), Clashing(w.db));
      }
    case OfDatabase(Drop(c), _) =>
      HearReturns(w.queue, c, StoreError);
      Subset(Clashing(w'.db), Clashing(w.db));
    case OfDatabase(Begin(c, op), _) => assert Clashing(w'.db) == Clashing(w.db);
    case OfDatabase(Backup, _) => assert Clashing(w'.db) == Clashing(w.db);
  }

  lemma LastTurn(hash: Id -> int, worlds: seq<World>, moves: seq<Move>)
    requires Course(hash, worlds, moves) && Lawful(hash, worlds[0]) && NoRestore(moves) && moves != []
    ensures var n := |moves| - 1;
            && Course(hash, worlds[..n + 1], moves[..n]) && NoRestore(moves[..n]) && worlds[..n + 1][0] == worlds[0]
            && Lawful(hash, worlds[n]) && Turns(hash, worlds[n], moves[n], worlds[n + 1]) && !Restores(moves[n])
  {
    var n := |moves| - 1;
    CoursePrefix(hash, worlds, moves, n);
    assert forall k :: 0 <= k < n ==> moves[..n][k] == moves[k];
    CourseKeepsLawful(hash, worlds, moves, n);
    assert Turns(hash, worlds[n], moves[n], worlds[n + 1]) && !Restores(moves[n]);
  }

  /** In every course without a restore, with any number of workers and any processor: deliveries never exceed the
      copies at the start, the attempts accepted jobs had left, the clashes underway, and what came in meanwhile. */
  lemma {:induction false} DeliveriesCovered(hash: Id -> int, worlds: seq<World>, moves: seq<Move>)
    requires Course(hash, worlds, moves) && Lawful(hash, worlds[0]) && NoRestore(moves)
    ensures Count(moves, Delivers) + Reserve(worlds[|moves|]) <= Reserve(worlds[0]) + Incomes(hash, worlds, moves)
    decreases |moves|
  {
    if moves != [] {
      var n := |moves| - 1;
      LastTurn(hash, worlds, moves);
      DeliveriesCovered(hash, worlds[..n + 1], moves[..n]);
      TurnIsPaid(hash, worlds[n], moves[n], worlds[n + 1]);
    }
  }

  /** Nothing comes in and no worker meets a fault; workers may still get into each other's way. */
  ghost predicate Calm(hash: Id -> int, worlds: seq<World>, moves: seq<Move>)
    requires |worlds| == |moves| + 1
  {
    forall k :: 0 <= k < |moves| ==> Income(hash, worlds[k], moves[k]) == 0 && !Restores(moves[k])
  }

  lemma {:induction false} CalmHasNoIncome(hash: Id -> int, worlds: seq<World>, moves: seq<Move>)
    requires |worlds| == |moves| + 1 && Calm(hash, worlds, moves)
    ensures Incomes(hash, worlds, moves) == 0 && NoRestore(moves)
    decreases |moves|
  {
    if moves != [] {
      var n := |moves| - 1;
      assert forall k :: 0 <= k < n ==> worlds[..n + 1][k] == worlds[k] && moves[..n][k] == moves[k];
      CalmHasNoIncome(hash, worlds[..n + 1], moves[..n]);
      assert Income(hash, worlds[n], moves[n]) == 0 && !Restores(moves[n]);
    }
  }

  /** Once faults and arrivals have stopped, from any reachable world: deliveries number at most the copies queued or on
      their way back, plus the sum over accepted jobs of (3 - attempt_count), plus the clashes already underway. */
  lemma {:induction false} CalmDeliveries(hash: Id -> int, worlds: seq<World>, moves: seq<Move>)
    requires Course(hash, worlds, moves) && Reachable(hash, worlds[0]) && Calm(hash, worlds, moves)
    ensures Count(moves, Delivers) <=
              |worlds[0].queue.ready| + |Returning(worlds[0].queue)|
              + Total(worlds[0].db.tables.jobs, AttemptsLeft) + |Clashing(worlds[0].db)|
  {
    ReachableIsLawful(hash, worlds[0]);
    CalmHasNoIncome(hash, worlds, moves);
    DeliveriesCovered(hash, worlds, moves);
  }

  // ----- The same account with a clash as one more fault -----

  lemma OneMoreEvent(events: seq<Event>, event: Event)
    ensures Deliveries.Deliveries(events + [event]) ==
            Deliveries.Deliveries(events) + (if IsDelivery(event) then 1 else 0)
  {
    assert (events + [event])[..|events|] == events;
  }

  lemma DeliveryIsEvent(hash: Id -> int, w: World, move: Move)
    ensures Delivers(move) <==> EventOf(hash, w, move).Some? && IsDelivery(EventOf(hash, w, move).value)
  {
  }

  lemma {:induction false} EventsCountDeliveries(hash: Id -> int, worlds: seq<World>, moves: seq<Move>)
    requires |worlds| == |moves| + 1
    ensures Count(moves, Delivers) == Deliveries.Deliveries(Events(hash, worlds, moves))
    decreases |moves|
  {
    if moves != [] {
      var n := |moves| - 1;
      EventsCountDeliveries(hash, worlds[..n + 1], moves[..n]);
      DeliveryIsEvent(hash, worlds[n], moves[n]);
      if EventOf(hash, worlds[n], moves[n]).Some? {
        OneMoreEvent(Events(hash, worlds[..n + 1], moves[..n]), EventOf(hash, worlds[n], moves[n]).value);
      }
    }
  }

  /** The account of the abstract system holds statement by statement: then the attempts of an accepted job count only
      up to 2, and what a worker is refused, by a fault or a clash, counts as one more supply. */
  lemma {:induction false} WorldDeliveriesArePaid(hash: Id -> int, worlds: seq<World>, moves: seq<Move>)
    requires Course(hash, worlds, moves) && Lawful(hash, worlds[0]) && NoRestore(moves)
    ensures Count(moves, Delivers) + Potential(Abstract(worlds[|moves|])) <=
              Potential(Abstract(worlds[0])) + Supplies(Systems(hash, worlds, moves), Events(hash, worlds, moves))
  {
    LawfulIsSound(hash, worlds[0]);
    RunRefines(hash, worlds, moves);
    EventsCountDeliveries(hash, worlds, moves);
    DeliveriesArePaid(Systems(hash, worlds, moves), Events(hash, worlds, moves));
  }

  // ----- After a completion -----

  /** What a worker with a succeeded job's message hears lets it acknowledge. */
  lemma HeardAfterCompletion(hash: Id -> int, w: World, v: int, w': World, m: Message)
    requires Lawful(hash, w) && HasJob(w.db.tables, m.job, Succeeded) && OwnMessage(w.db.tables, m.job) == m
    requires v in w.queue.workers && w.queue.workers[v].body == Process(m)
    requires Turns(hash, w, OfDatabase(Run(Worker(v)), true), w')
    ensures v in w'.queue.workers
    ensures w'.queue.workers[v].stage == w.queue.workers[v].stage || w'.queue.workers[v].stage == Decided(Ack)
  {
    var c := Worker(v);
    assert MayRun(w.queue, c, Purpose(w.db.open[c]));
    if Statement(hash, w.db, c).Errs? {
      ErrsMeansClash(hash, w.db, c);
    } else if Statement(hash, w.db, c).Answers? {
      AnswerRefines(hash, w.db, c);
    }
  }

  /** Exactly-once effect, statement by statement: after a job's completion and until a restore no turn changes its row,
      its item or its result, and every answer a worker with its message hears lets it acknowledge. */
  lemma {:induction false} NothingAfterSuccess(
    hash: Id -> int, worlds: seq<World>, moves: seq<Move>, j: nat, k: nat, job: Id)
    requires Chronicle(hash, worlds, moves) && j <= k < |moves| && forall i :: j <= i <= k ==> !Restores(moves[i])
    requires HasJob(worlds[j].db.tables, job, Succeeded)
    ensures var t, t' := worlds[j].db.tables, worlds[k + 1].db.tables;
            var item := t.jobs[job].item;
            && job in t'.jobs && t'.jobs[job] == t.jobs[job] && item in t.items && item in t'.items
            && t'.items[item] == t.items[item] && t.results <= t'.results
            && forall i :: |t.results| <= i < |t'.results| ==> t'.results[i].item != item
    ensures var m := OwnMessage(worlds[j].db.tables, job);
            forall v :: v in worlds[k].queue.workers && worlds[k].queue.workers[v].body == Process(m)
                        && moves[k] == OfDatabase(Run(Worker(v)), true) ==>
              v in worlds[k + 1].queue.workers &&
              var stage := worlds[k + 1].queue.workers[v].stage;
              stage == worlds[k].queue.workers[v].stage || stage == Decided(Ack)
  {
    WorldExtends(hash, worlds, moves, j, k);
    WorldExtends(hash, worlds, moves, j, k + 1);
    ChronicleIsLawful(hash, worlds, moves, k);
    WorldIsSound(hash, worlds, moves, j);
    WorldIsSound(hash, worlds, moves, k + 1);
    SucceededMeansDone(worlds[j].db.tables, job);
    NoSecondResult(worlds[j].db.tables, worlds[k + 1].db.tables, job);
    var m := OwnMessage(worlds[j].db.tables, job);
    forall v | v in worlds[k].queue.workers && worlds[k].queue.workers[v].body == Process(m)
               && moves[k] == OfDatabase(Run(Worker(v)), true)
      ensures v in worlds[k + 1].queue.workers
      ensures worlds[k + 1].queue.workers[v].stage == worlds[k].queue.workers[v].stage
           || worlds[k + 1].queue.workers[v].stage == Decided(Ack)
    {
      assert Turns(hash, worlds[k], moves[k], worlds[k + 1]);
      HeardAfterCompletion(hash, worlds[k], v, worlds[k + 1], m);
    }
  }

  lemma NoSecondResult(t: Tables, t': Tables, job: Id)
    requires Sound(t) && Sound(t') && HasJob(t, job, Succeeded) && t.results <= t'.results
    ensures forall i :: |t.results| <= i < |t'.results| ==> t'.results[i].item != t.jobs[job].item
  {
    assert HasResult(t, t.jobs[job].item, job);
    var first :| 0 <= first < |t.results| && t.results[first].item == t.jobs[job].item && t.results[first].job == job;
    assert t'.results[first] == t.results[first];
  }
}
