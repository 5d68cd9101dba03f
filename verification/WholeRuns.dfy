/** What holds in every history of statements and broker events. */
module WholeRuns {
  import opened Option
  import opened Records
  import opened AtomicStore
  import opened SuccessInvariant
  import opened History
  import opened Settlement
  import opened Statements
  import opened Broker
  import opened Delivery
  import opened Duty
  import opened Copies
  import opened WholeSystem

  lemma {:induction false} ChronicleIsLawful(hash: Id -> int, worlds: seq<World>, moves: seq<Move>, k: nat)
    requires Chronicle(hash, worlds, moves) && k < |worlds|
    ensures Lawful(hash, worlds[k])
  {
    CourseKeepsLawful(hash, worlds, moves, k);
  }

  /** The success invariant holds in every world, with anything in the broker, any interleaving, any restore. */
  lemma {:induction false} WorldIsSound(hash: Id -> int, worlds: seq<World>, moves: seq<Move>, k: nat)
    requires Chronicle(hash, worlds, moves) && k < |worlds|
    ensures Sound(worlds[k].db.tables) && Faithful(worlds[k].db.log) && worlds[k].db.tables == Replay(worlds[k].db.log)
  {
    ChronicleIsLawful(hash, worlds, moves, k);
    FaithfulIsSound(worlds[k].db.log);
  }

  /** In every world, restores included: a job's counter is the number of its failures and completions in the
      present history, at most 3, at most 2 while the job is accepted, and 3 when it has failed. */
  lemma {:induction false} WorldAttemptsBounded(hash: Id -> int, worlds: seq<World>, moves: seq<Move>, k: nat, job: Id)
    requires Chronicle(hash, worlds, moves) && k < |worlds| && job in worlds[k].db.tables.jobs
    ensures var row := worlds[k].db.tables.jobs[job];
            && row.attempts == Attempts(worlds[k].db.log, job) && row.attempts <= MAX_ATTEMPTS
            && (row.state == Accepted ==> row.attempts < MAX_ATTEMPTS)
            && (row.state == Failed ==> row.attempts == MAX_ATTEMPTS)
  {
    ChronicleIsLawful(hash, worlds, moves, k);
    AttemptsConserved(worlds[k].db.log, job);
    AttemptsBounded(worlds[k].db.log, job);
  }

  /** Copies of a row's message never exceed its publish attempts, and a published row had a stored copy. */
  lemma {:induction false} WorldCopiesConserved(hash: Id -> int, worlds: seq<World>, moves: seq<Move>, row: Id)
    requires Chronicle(hash, worlds, moves) && NoRestore(moves)
    ensures var w := worlds[|moves|];
            w.queue.landed[row] + |Unsent(w.queue, row)| <= Begun(w.db.tables, row)
    ensures var w := worlds[|moves|];
            IsPublished(w.db.tables, row) ==> w.queue.landed[row] > 0
  {
    ChronicleIsLawful(hash, worlds, moves, 0);
    RunRefines(hash, worlds, moves);
    CopiesConserved(Systems(hash, worlds, moves), Events(hash, worlds, moves), |Events(hash, worlds, moves)|, row);
  }

  /** The move commits the statement that takes the row for publication. */
  ghost predicate TakesRow(hash: Id -> int, w: World, move: Move, row: Id) {
    && move.OfDatabase? && move.action.Run? && move.action.client in w.db.open
    && var outcome := Statement(hash, w.db, move.action.client);
       outcome.Answers? && outcome.answer.RowTaken? && outcome.answer.row == row
  }

  /** A published row stays published and is never taken again, whatever the interleaving, until a restore. */
  lemma {:induction false} WorldPublishedIsFinal(
    hash: Id -> int, worlds: seq<World>, moves: seq<Move>, j: nat, k: nat, row: Id)
    requires Chronicle(hash, worlds, moves) && j <= k < |moves| && IsPublished(worlds[j].db.tables, row)
    requires forall i :: j <= i <= k ==> !Restores(moves[i])
    ensures IsPublished(worlds[k + 1].db.tables, row) && !TakesRow(hash, worlds[k], moves[k], row)
    decreases k - j
  {
    if j < k {
      WorldPublishedIsFinal(hash, worlds, moves, j, k - 1, row);
    }
    ChronicleIsLawful(hash, worlds, moves, k);
    TurnRefines(hash, worlds[k], moves[k], worlds[k + 1]);
    var event := EventOf(hash, worlds[k], moves[k]);
    if event.Some? {
      PublishedStep(Abstract(worlds[k]), event.value, Abstract(worlds[k + 1]), row);
    }
  }

  // ----- No accepted work is lost -----

  lemma {:induction false} WorldIsSafe(hash: Id -> int, worlds: seq<World>, moves: seq<Move>, k: nat)
    requires Chronicle(hash, worlds, moves) && NoRestore(moves) && k < |worlds|
    ensures AllSafe(Abstract(worlds[k]))
    decreases k
  {
    if k > 0 {
      WorldIsSafe(hash, worlds, moves, k - 1);
      ChronicleIsLawful(hash, worlds, moves, k - 1);
      TurnRefines(hash, worlds[k - 1], moves[k - 1], worlds[k]);
      var event := EventOf(hash, worlds[k - 1], moves[k - 1]);
      if event.Some? {
        assert !Restores(moves[k - 1]);
        StepKeepsAllSafe(Abstract(worlds[k - 1]), event.value, Abstract(worlds[k]));
      }
    }
  }

  /** No accepted work is lost, statement by statement, whatever crashes: with a durable broker and no restore, an
      accepted job always has an unpublished outbox row or a copy of its message that no worker will drop. */
  lemma {:induction false} AcceptedWorkIsDeliverable(
    hash: Id -> int, worlds: seq<World>, moves: seq<Move>, k: nat, job: Id)
    requires Chronicle(hash, worlds, moves) && NoRestore(moves) && k < |worlds|
    requires HasJob(worlds[k].db.tables, job, Accepted)
    ensures HasUnpublishedRow(Abstract(worlds[k]), job)
         || InFlight(worlds[k].queue, OwnMessage(worlds[k].db.tables, job))
  {
    WorldIsSafe(hash, worlds, moves, k);
    SafeIsNotLost(Abstract(worlds[k]), job);
  }

  /** Once the outbox and the queue are drained and the workers idle, every job has succeeded or failed. */
  lemma {:induction false} WorldDrainedMeansDone(hash: Id -> int, worlds: seq<World>, moves: seq<Move>, k: nat)
    requires Chronicle(hash, worlds, moves) && NoRestore(moves) && k < |worlds|
    requires worlds[k].queue.ready == multiset{} && worlds[k].queue.workers == map[]
    requires forall row :: row in worlds[k].db.tables.outbox ==> worlds[k].db.tables.outbox[row].published
    ensures forall job :: job in worlds[k].db.tables.jobs ==> Terminal(worlds[k].db.tables.jobs[job])
  {
    forall job | job in worlds[k].db.tables.jobs ensures Terminal(worlds[k].db.tables.jobs[job]) {
      if HasJob(worlds[k].db.tables, job, Accepted) {
        AcceptedWorkIsDeliverable(hash, worlds, moves, k, job);
      }
    }
  }

  lemma TurnKeepsLost(hash: Id -> int, w: World, move: Move, w': World, job: Id)
    requires Lawful(hash, w) && Turns(hash, w, move, w') && !Restores(move) && Lost(Abstract(w), job)
    requires move != OfBroker(Inject(Process(OwnMessage(w.db.tables, job))))
    ensures Lost(Abstract(w'), job) && OwnMessage(w'.db.tables, job) == OwnMessage(w.db.tables, job)
  {
    LawfulIsSound(hash, w);
    TurnRefines(hash, w, move, w');
    var event := EventOf(hash, w, move);
    if event.Some? {
      StepKeepsLost(Abstract(w), event.value, Abstract(w'), job);
    }
  }

  /** What is lost stays lost, statement by statement, through everything but a restore or a foreign copy. */
  lemma {:induction false} WorldLostForGood(hash: Id -> int, worlds: seq<World>, moves: seq<Move>, k: nat, job: Id)
    requires Course(hash, worlds, moves) && NoRestore(moves) && Lawful(hash, worlds[0]) && k < |worlds|
    requires Lost(Abstract(worlds[0]), job)
    requires OfBroker(Inject(Process(OwnMessage(worlds[0].db.tables, job)))) !in moves
    ensures Lost(Abstract(worlds[k]), job)
            && OwnMessage(worlds[k].db.tables, job) == OwnMessage(worlds[0].db.tables, job)
    decreases k
  {
    if k > 0 {
      WorldLostForGood(hash, worlds, moves, k - 1, job);
      CourseKeepsLawful(hash, worlds, moves, k - 1);
      assert moves[k - 1] in moves && !Restores(moves[k - 1]);
      TurnKeepsLost(hash, worlds[k - 1], moves[k - 1], worlds[k], job);
    }
  }

  lemma TurnExtends(hash: Id -> int, w: World, move: Move, w': World)
    requires Lawful(hash, w) && Turns(hash, w, move, w') && !Restores(move)
    ensures Extends(w.db.tables, w'.db.tables)
  {
    TurnRefines(hash, w, move, w');
    var event := EventOf(hash, w, move);
    if event.Some? && event.value.Execute? {
      EffectExtends(w.db.tables, event.value.entry);
    }
  }

  lemma ExtendsOn(t: Tables, t1: Tables, t2: Tables)
    requires Extends(t, t1) && Extends(t1, t2)
    ensures Extends(t, t2)
  {
  }

  /** Until a restore, the tables only ever extend. */
  lemma {:induction false} WorldExtends(hash: Id -> int, worlds: seq<World>, moves: seq<Move>, j: nat, k: nat)
    requires Chronicle(hash, worlds, moves) && j <= k <= |moves| && forall i :: j <= i < k ==> !Restores(moves[i])
    ensures Extends(worlds[j].db.tables, worlds[k].db.tables)
    decreases k - j
  {
    if j < k {
      WorldExtends(hash, worlds, moves, j, k - 1);
      ChronicleIsLawful(hash, worlds, moves, k - 1);
      TurnExtends(hash, worlds[k - 1], moves[k - 1], worlds[k]);
      ExtendsOn(worlds[j].db.tables, worlds[k - 1].db.tables, worlds[k].db.tables);
    }
  }

  /** In the very turn in which a worker decides to acknowledge, the message's job is durably terminal;
      in which it decides to reject a decoded message, the message is no job's own. Restores do not matter. */
  lemma {:induction false} EndingsJustified(hash: Id -> int, worlds: seq<World>, moves: seq<Move>, k: nat, w: int)
    requires Chronicle(hash, worlds, moves) && k < |moves|
    requires w in worlds[k].queue.workers && !worlds[k].queue.workers[w].stage.Decided?
    requires w in worlds[k + 1].queue.workers && worlds[k + 1].queue.workers[w].body == worlds[k].queue.workers[w].body
    requires worlds[k + 1].queue.workers[w].body.Process?
    ensures EndingJustified(worlds[k + 1].db.tables, worlds[k + 1].queue.workers[w])
  {
    ChronicleIsLawful(hash, worlds, moves, k);
    FaithfulIsSound(worlds[k].db.log);
    TurnRefines(hash, worlds[k], moves[k], worlds[k + 1]);
    var event := EventOf(hash, worlds[k], moves[k]);
    if event.Some? {
      EndingsOfEvent(Abstract(worlds[k]), event.value, Abstract(worlds[k + 1]), w);
    }
  }

  // ----- Restores -----

  /** The queue as it will be once every publisher whose call was killed by a restore has heard so: without them.
      A killed call is never issued again, so such a publisher cannot mark anything any more. */
  function Living(w: World): System {
    System(w.db.tables, w.queue.(publishers := LivePublishers(w)))
  }

  function LivePublishers(w: World): map<int, Cycle> {
    map p | p in w.queue.publishers && Publisher(p) !in w.killed :: w.queue.publishers[p]
  }

  predicate OfPublisher(step: Step) {
    step.Take? || step.Send? || step.Land? || step.Confirm? || step.PublishFails? || step.Halt?
  }

  lemma OthersKeepPublishers(q: Queue, step: Step, live: map<int, Cycle>)
    requires Enabled(q, step) && !OfPublisher(step)
    ensures Enabled(q.(publishers := live), step) && Apply(q, step).publishers == q.publishers
    ensures Apply(q.(publishers := live), step) == Apply(q, step).(publishers := live)
  {
  }

  /** A killed publisher waits for an answer: no broker step is about it. */
  lemma KilledStand(w: World, step: Step)
    requires Linked(w) && Enabled(w.queue, step) && OfPublisher(step)
    requires forall c :: c in w.killed ==> !Leaves(step, c)
    ensures Publisher(step.publisher) !in w.killed
  {
    assert Publisher(step.publisher) in w.killed ==> IsWaiting(w.queue, Publisher(step.publisher));
  }

  lemma PublisherSteps(q: Queue, step: Step, live: map<int, Cycle>)
    requires Enabled(q, step) && OfPublisher(step)
    requires step.publisher in live <==> step.publisher in q.publishers
    requires step.publisher in live ==> live[step.publisher] == q.publishers[step.publisher]
    ensures var q1, q2 := Apply(q, step), Apply(q.(publishers := live), step);
            && Enabled(q.(publishers := live), step) && q2 == q1.(publishers := q2.publishers)
            && q1.publishers == (if step.Halt? then q.publishers - {step.publisher}
                                 else q.publishers[step.publisher := q1.publishers[step.publisher]])
            && q2.publishers == (if step.Halt? then live - {step.publisher}
                                 else live[step.publisher := q1.publishers[step.publisher]])
  {
  }

  lemma LivingSteps(w: World, step: Step)
    requires Linked(w) && Enabled(w.queue, step) && forall c :: c in w.killed ==> !Leaves(step, c)
    ensures Enabled(Living(w).queue, step)
    ensures Living(w.(queue := Apply(w.queue, step))).queue == Apply(Living(w).queue, step)
  {
    var w' := w.(queue := Apply(w.queue, step));
    if OfPublisher(step) {
      KilledStand(w, step);
      PublisherSteps(w.queue, step, LivePublishers(w));
      assert LivePublishers(w') == Apply(Living(w).queue, step).publishers;
    } else {
      OthersKeepPublishers(w.queue, step, LivePublishers(w));
      assert LivePublishers(w') == LivePublishers(w);
    }
  }

  lemma LivingHears(w: World, c: Client, reply: Reply)
    requires c !in w.killed
    ensures Living(w.(queue := Hear(w.queue, c, reply))).queue == Hear(Living(w).queue, c, reply)
  {
    var w' := w.(queue := Hear(w.queue, c, reply));
    assert c.Publisher? ==> (c.publisher in LivePublishers(w) <==> c.publisher in w.queue.publishers);
    assert LivePublishers(w') == Hear(Living(w).queue, c, reply).publishers;
  }

  /** A client whose call was killed hears so: nothing changes for the living, but that a worker requeues. */
  lemma KilledHear(w: World, c: Client)
    requires Linked(w) && c in w.killed && !c.Worker?
    ensures Living(w.(queue := Hear(w.queue, c, StoreError), killed := w.killed - {c})) == Living(w)
  {
    var w' := w.(queue := Hear(w.queue, c, StoreError), killed := w.killed - {c});
    assert LivePublishers(w') == LivePublishers(w);
  }

  lemma WorkerHears(w: World, c: Client)
    requires c.Worker?
    ensures Living(w.(queue := Hear(w.queue, c, StoreError), killed := w.killed - {c})).queue
         == Hear(Living(w).queue, c, StoreError)
  {
    var w' := w.(queue := Hear(w.queue, c, StoreError), killed := w.killed - {c});
    assert LivePublishers(w') == LivePublishers(w);
  }

  /** Every turn but a restore is one event of the abstract system or none, for the living too. */
  lemma LivingRefines(hash: Id -> int, w: World, move: Move, w': World) returns (event: Option<Event>)
    requires Lawful(hash, w) && Turns(hash, w, move, w') && !Restores(move)
    ensures if event.None? then Living(w') == Living(w)
            else !event.value.Rewind? && Moves(Living(w), event.value, Living(w'))
  {
    TurnRefines(hash, w, move, w');
    event := EventOf(hash, w, move);
    match move
    case OfBroker(step) => LivingSteps(w, step);
    case GivesUp(c) =>
      if c in w.killed && !c.Worker? {
        KilledHear(w, c);
        event := None;
      } else if c.Worker? {
        WorkerHears(w, c);
      } else {
        LivingHears(w, c, StoreError);
        assert w.killed - {c} == w.killed;
      }
    case OfDatabase(action, heard) =>
      if event.Some? {
        assert action.client !in w.killed;
        LivingHears(w, action.client, HeardReply(hash, w, action, heard));
        if event.value.Execute? {
          LivingAwaits(w, action.client);
        }
      }
  }

  lemma LivingAwaits(w: World, c: Client)
    requires c !in w.killed
    ensures Awaited(Living(w).queue, c) == Awaited(w.queue, c)
  {
  }

  lemma TurnKeepsSafe(hash: Id -> int, w: World, move: Move, w': World, job: Id)
    requires Lawful(hash, w) && Turns(hash, w, move, w') && !Restores(move)
    requires job in w.db.tables.jobs && Safe(Living(w), job)
    ensures job in w'.db.tables.jobs && Safe(Living(w'), job)
  {
    LawfulIsSound(hash, w);
    var event := LivingRefines(hash, w, move, w');
    if event.Some? {
      StepKeepsSafe(Living(w), event.value, Living(w'), job);
    }
  }

  lemma LivingIsNotLost(w: World, job: Id)
    requires Safe(Living(w), job)
    ensures !Lost(Abstract(w), job)
  {
    SafeIsNotLost(Living(w), job);
    assert HasUnpublishedRow(Living(w), job) ==> HasUnpublishedRow(Abstract(w), job);
    assert Lost(Abstract(w), job) ==> Lost(Living(w), job);
  }

  lemma {:induction false} CourseKeepsSafe(hash: Id -> int, worlds: seq<World>, moves: seq<Move>, k: nat, job: Id)
    requires Course(hash, worlds, moves) && NoRestore(moves) && Lawful(hash, worlds[0]) && k < |worlds|
    requires job in worlds[0].db.tables.jobs && Safe(Living(worlds[0]), job)
    ensures job in worlds[k].db.tables.jobs && Safe(Living(worlds[k]), job) && !Lost(Abstract(worlds[k]), job)
    decreases k
  {
    if k > 0 {
      CourseKeepsSafe(hash, worlds, moves, k - 1, job);
      CourseKeepsLawful(hash, worlds, moves, k - 1);
      TurnKeepsSafe(hash, worlds[k - 1], moves[k - 1], worlds[k], job);
    }
    LivingIsNotLost(worlds[k], job);
  }

  lemma JoinCourses(
    hash: Id -> int, worlds: seq<World>, moves: seq<Move>, worlds': seq<World>, moves': seq<Move>)
    requires Course(hash, worlds, moves) && Course(hash, worlds', moves') && worlds[|moves|] == worlds'[0]
    ensures Course(hash, worlds + worlds'[1..], moves + moves')
    ensures (worlds + worlds'[1..])[|moves + moves'|] == worlds'[|moves'|]
    ensures NoRestore(moves) && NoRestore(moves') ==> NoRestore(moves + moves')
  {
    var ws, ms := worlds + worlds'[1..], moves + moves';
    forall k | 0 <= k < |ms| ensures Turns(hash, ws[k], ms[k], ws[k + 1]) {
      if k < |moves| {
        assert Turns(hash, worlds[k], moves[k], worlds[k + 1]);
      } else {
        assert Turns(hash, worlds'[k - |moves|], moves'[k - |moves|], worlds'[k - |moves| + 1]);
      }
    }
  }

  /** The row's update, staged by publisher p. */
  function MarkStaged(w: World, row: Id, p: int): World
    requires row in w.db.tables.outbox
  {
    var update := w.db.tables.outbox[row].(published := true, lastError := None);
    w.(db := w.db.(open := map[Publisher(p) := RowWritten(MarkPublished(row), row, update)]))
  }

  /** Nobody is in the database, and nobody has still to hear that a restore threw him out. */
  predicate Quiet(w: World) {
    w.db.open == map[] && w.killed == {}
  }

  lemma StagingIsPossible(hash: Id -> int, w: World, row: Id, p: int, s': System)
    returns (worlds: seq<World>, moves: seq<Move>)
    requires Quiet(w) && Moves(Abstract(w), Mark(row, p), s')
    ensures IsUnpublished(w.db.tables, row)
    ensures Course(hash, worlds, moves) && NoRestore(moves) && worlds[0] == w
            && worlds[|moves|] == MarkStaged(w, row, p)
    ensures forall k :: 0 <= k < |moves| ==> moves[k].OfDatabase?
  {
    var c, op := Publisher(p), MarkPublished(row);
    var begun := w.(db := w.db.(open := map[c := Open(op)]));
    worlds := [w, begun, MarkStaged(w, row, p)];
    moves := [OfDatabase(Begin(c, op), true), OfDatabase(Run(c), true)];
    assert Turns(hash, w, moves[0], begun);
    assert Turns(hash, begun, moves[1], worlds[2]);
  }

  lemma MarkCommits(hash: Id -> int, w: World, row: Id, p: int, s': System) returns (w': World)
    requires Quiet(w) && Moves(Abstract(w), Mark(row, p), s') && IsUnpublished(w.db.tables, row)
    ensures Turns(hash, MarkStaged(w, row, p), OfDatabase(Run(Publisher(p)), true), w')
    ensures Quiet(w') && Abstract(w') == s'
  {
    var c, staged := Publisher(p), MarkStaged(w, row, p);
    var log := w.db.log + [Entry(MarkPublished(row), RowUpdated)];
    w' := World(w.db.(tables := s'.tables, log := log, open := map[]), s'.queue, {});
    assert staged.db.open - {c} == map[];
  }

  /** Two statements and a commit: the publisher marks its row while nobody else is in the database. */
  lemma MarkIsPossible(hash: Id -> int, w: World, row: Id, p: int, s': System)
    returns (worlds: seq<World>, moves: seq<Move>)
    requires Quiet(w) && Moves(Abstract(w), Mark(row, p), s')
    ensures Course(hash, worlds, moves) && NoRestore(moves) && worlds[0] == w
    ensures forall k :: 0 <= k < |moves| ==> moves[k].OfDatabase?
    ensures Quiet(worlds[|moves|]) && Abstract(worlds[|moves|]) == s'
  {
    worlds, moves := StagingIsPossible(hash, w, row, p, s');
    var w' := MarkCommits(hash, w, row, p, s');
    ExtendCourse(hash, worlds, moves, OfDatabase(Run(Publisher(p)), true), w');
    worlds, moves := worlds + [w'], moves + [OfDatabase(Run(Publisher(p)), true)];
  }

  lemma PathPrefix(states: seq<System>, events: seq<Event>, n: nat)
    requires Path(states, events) && AllLosing(events) && n <= |events|
    ensures Path(states[..n + 1], events[..n]) && AllLosing(events[..n])
  {
    forall k | 0 <= k < n
      ensures Moves(states[..n + 1][k], events[..n][k], states[..n + 1][k + 1]) && Losing(events[..n][k])
    {
      assert Moves(states[k], events[k], states[k + 1]) && Losing(events[k]);
    }
  }

  /** In a quiet world, whatever loses a job abstractly can happen statement by statement. */
  lemma {:induction false} LosingIsPossible(hash: Id -> int, w: World, states: seq<System>, events: seq<Event>)
    returns (worlds: seq<World>, moves: seq<Move>)
    requires Quiet(w) && Path(states, events) && AllLosing(events) && states[0] == Abstract(w)
    ensures Course(hash, worlds, moves) && NoRestore(moves) && worlds[0] == w
    ensures Quiet(worlds[|moves|]) && Abstract(worlds[|moves|]) == states[|events|]
    decreases |events|
  {
    if events == [] {
      worlds, moves := [w], [];
    } else {
      var n := |events| - 1;
      PathPrefix(states, events, n);
      worlds, moves := LosingIsPossible(hash, w, states[..n + 1], events[..n]);
      var now, event := worlds[|moves|], events[n];
      assert Losing(event) && Moves(states[n], event, states[n + 1]);
      if event.Local? {
        var w' := now.(queue := states[n + 1].queue);
        ExtendCourse(hash, worlds, moves, OfBroker(event.step), w');
        worlds, moves := worlds + [w'], moves + [OfBroker(event.step)];
      } else {
        var worlds', moves' := MarkIsPossible(hash, now, event.entry.op.row, event.client.publisher, states[n + 1]);
        JoinCourses(hash, worlds, moves, worlds', moves');
        worlds, moves := worlds + worlds'[1..], moves + moves';
      }
    }
  }

  /** A worker that hears an error keeps its copy in flight as much as before. */
  lemma ErrorKeepsFlight(q: Queue, c: Client, m: Message)
    requires c.Worker? && InFlight(Hear(q, c, StoreError), m)
    ensures InFlight(q, m)
  {
    var q' := Hear(q, c, StoreError);
    if Process(m) !in q.ready {
      var v :| v in q'.workers && q'.workers[v].body == Process(m) && KeepsCopy(q'.workers[v]);
      assert v in q.workers && q.workers[v].body == Process(m) && KeepsCopy(q.workers[v]);
    }
  }

  lemma NewsKeepsUnsafe(w: World, c: Client, job: Id)
    requires Linked(w) && c in w.killed && job in w.db.tables.jobs && !Safe(Living(w), job)
    ensures !Safe(Living(w.(queue := Hear(w.queue, c, StoreError), killed := w.killed - {c})), job)
  {
    var w' := w.(queue := Hear(w.queue, c, StoreError), killed := w.killed - {c});
    if c.Worker? {
      var m := OwnMessage(w.db.tables, job);
      WorkerHears(w, c);
      if InFlight(Living(w').queue, m) {
        ErrorKeepsFlight(Living(w).queue, c, m);
      }
      forall row | row in w.db.tables.outbox && WillPublish(Living(w'), row, m) ensures WillPublish(Living(w), row, m) {
        assert Living(w').queue.publishers == Living(w).queue.publishers;
      }
    } else {
      KilledHear(w, c);
    }
  }

  /** Everybody whose call a restore killed hears so. */
  lemma {:induction false} NewsSpreads(hash: Id -> int, w: World, job: Id)
      returns (worlds: seq<World>, moves: seq<Move>)
    requires Lawful(hash, w) && w.db.open == map[] && job in w.db.tables.jobs && !Safe(Living(w), job)
    ensures Course(hash, worlds, moves) && NoRestore(moves) && worlds[0] == w
    ensures var w' := worlds[|moves|];
            Quiet(w') && w'.db == w.db && !Safe(Abstract(w'), job)
    decreases |w.killed|
  {
    if w.killed == {} {
      worlds, moves := [w], [];
      assert LivePublishers(w) == w.queue.publishers;
    } else {
      var c :| c in w.killed;
      var w1 := w.(queue := Hear(w.queue, c, StoreError), killed := w.killed - {c});
      assert Turns(hash, w, GivesUp(c), w1);
      TurnKeepsLawful(hash, w, GivesUp(c), w1);
      NewsKeepsUnsafe(w, c, job);
      worlds, moves := NewsSpreads(hash, w1, job);
      JoinCourses(hash, [w, w1], [GivesUp(c)], worlds, moves);
      worlds, moves := [w, w1] + worlds[1..], [GivesUp(c)] + moves;
    }
  }

  /** Statement by statement, without another restore, the job can be lost for good. */
  ghost predicate AtRisk(hash: Id -> int, w: World, job: Id) {
    exists worlds, moves ::
      Course(hash, worlds, moves) && NoRestore(moves) && worlds[0] == w && Lost(Abstract(worlds[|moves|]), job)
  }

  /** In a world without open transactions, as a restore leaves it, a job is at risk exactly when it is not safe with
      the publishers whose calls were killed left aside. */
  lemma {:induction false} RiskNeedsUnsafe(hash: Id -> int, w: World, job: Id)
    requires Lawful(hash, w) && w.db.open == map[] && job in w.db.tables.jobs
    ensures AtRisk(hash, w, job) <==> !Safe(Living(w), job)
  {
    if Safe(Living(w), job) {
      forall worlds, moves | Course(hash, worlds, moves) && NoRestore(moves) && worlds[0] == w
        ensures !Lost(Abstract(worlds[|moves|]), job)
      {
        CourseKeepsSafe(hash, worlds, moves, |moves|, job);
      }
    } else {
      var worlds1, moves1 := NewsSpreads(hash, w, job);
      var quiet := worlds1[|moves1|];
      LawfulIsSound(hash, w);
      var states, events := UnsafeLoses(Abstract(quiet), job);
      var worlds2, moves2 := LosingIsPossible(hash, quiet, states, events);
      JoinCourses(hash, worlds1, moves1, worlds2, moves2);
      assert Lost(Abstract((worlds1 + worlds2[1..])[|moves1 + moves2|]), job);
    }
  }

  /** At the restore, some publisher is inside its cycle on the row without this message still to send, and no call of
      it is underway, nor was killed by an earlier restore: it is free to mark the row. */
  ghost predicate SomeoneBetrays(w: World, row: Id, m: Message) {
    exists p :: p in w.queue.publishers && Betrays(w.queue.publishers[p], row, m)
                && Publisher(p) !in w.db.open && Publisher(p) !in w.killed
  }

  /** The exact price of a restore, statement by statement: a job whose outbox row was unpublished in the backup can
      be lost in some continuation if and only if, at the restore, no copy of its message was in flight and some
      publisher was free to mark its row without sending it. A publisher whose mark the restore itself interrupted is
      no danger: it hears an error and begins a new cycle. Stale messages for reused identities change nothing. */
  lemma {:induction false} RestoreRisk(hash: Id -> int, w: World, move: Move, w': World, job: Id, row: Id)
    requires Reachable(hash, w) && Turns(hash, w, move, w') && Restores(move)
    requires var backup := move.action.backup.tables;
             HasJob(backup, job, Accepted) && IsUnpublished(backup, row) && backup.outbox[row].job == job
    ensures var m := OwnMessage(move.action.backup.tables, job);
            AtRisk(hash, w', job) <==> !InFlight(w.queue, m) && SomeoneBetrays(w, row, m)
  {
    ReachableIsLawful(hash, w);
    TurnKeepsLawful(hash, w, move, w');
    LawfulIsSound(hash, w');
    RiskNeedsUnsafe(hash, w', job);
    RestoredIsSafe(w', job, row);
    var m := OwnMessage(w'.db.tables, job);
    assert InFlight(Living(w').queue, m) <==> InFlight(w.queue, m);
    forall p ensures p in Living(w').queue.publishers <==>
                     p in w.queue.publishers && Publisher(p) !in w.db.open && Publisher(p) !in w.killed
    {
    }
  }

  /** A job with an unpublished row is safe unless no copy is in flight and a living publisher betrays it. */
  lemma RestoredIsSafe(w: World, job: Id, row: Id)
    requires Sound(w.db.tables) && HasJob(w.db.tables, job, Accepted)
    requires IsUnpublished(w.db.tables, row) && w.db.tables.outbox[row].job == job
    ensures var m, q := OwnMessage(w.db.tables, job), Living(w).queue;
            Safe(Living(w), job) <==>
              InFlight(q, m) || forall p :: p in q.publishers ==> !Betrays(q.publishers[p], row, m)
  {
    var m, s := OwnMessage(w.db.tables, job), Living(w);
    assert w.db.tables.outbox[row].payload == m;
    if Safe(s, job) && !InFlight(s.queue, m) {
      var r :| r in s.tables.outbox && s.tables.outbox[r].job == job && WillPublish(s, r, m);
      assert r == row;
    }
    if forall p :: p in s.queue.publishers ==> !Betrays(s.queue.publishers[p], row, m) {
      assert WillPublish(s, row, m);
    }
  }

  /** And where it cannot be lost it stays deliverable: safe in every world of every continuation. */
  lemma {:induction false} RestoredWorkIsDeliverable(
    hash: Id -> int, worlds: seq<World>, moves: seq<Move>, n: nat, job: Id, row: Id)
    requires Course(hash, worlds, moves) && Reachable(hash, worlds[0]) && 0 < n <= |moves|
    requires Restores(moves[0]) && NoRestore(moves[1..])
    requires var backup := moves[0].action.backup.tables;
             HasJob(backup, job, Accepted) && IsUnpublished(backup, row) && backup.outbox[row].job == job
    requires var m := OwnMessage(moves[0].action.backup.tables, job);
             InFlight(worlds[0].queue, m) || !SomeoneBetrays(worlds[0], row, m)
    ensures job in worlds[n].db.tables.jobs && Safe(Living(worlds[n]), job) && !Lost(Abstract(worlds[n]), job)
  {
    assert Turns(hash, worlds[0], moves[0], worlds[1]);
    RestoreRisk(hash, worlds[0], moves[0], worlds[1], job, row);
    ReachableIsLawful(hash, worlds[0]);
    TurnKeepsLawful(hash, worlds[0], moves[0], worlds[1]);
    RiskNeedsUnsafe(hash, worlds[1], job);
    forall k | 0 <= k < |moves[1..]| ensures Turns(hash, worlds[1..][k], moves[1..][k], worlds[1..][k + 1]) {
      assert Turns(hash, worlds[k + 1], moves[k + 1], worlds[k + 2]);
    }
    CourseKeepsSafe(hash, worlds[1..], moves[1..], n - 1, job);
  }
}
