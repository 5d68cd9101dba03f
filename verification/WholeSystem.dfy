/** Statement-level database and broker in one step system; it refines the system with whole operations. */
module WholeSystem {
  import opened Option
  import opened Records
  import opened AtomicStore
  import opened SuccessInvariant
  import opened History
  import opened Settlement
  import opened Statements
  import opened Serializability
  import opened Broker
  import opened Delivery

  /** killed: clients whose transaction a restore has ended and who have not heard of it yet. */
  datatype World = World(db: State, queue: Queue, killed: set<Client>)

  const GENESIS := World(START, EMPTY_QUEUE, {})

  datatype Move =
    | OfBroker(step: Step)
    | OfDatabase(action: Action, heard: bool)  // heard: the answer, if one is given, reaches its client
    | GivesUp(client: Client)                  // the client hears that its transaction was killed, or never began

  /** A client does not vanish while its call is undecided: that crash is the call's end, unheard, after a disconnect,
      and then the client's end. */
  predicate Leaves(step: Step, c: Client) {
    (step.Crash? && c == Worker(step.worker)) || (step.Halt? && c == Publisher(step.publisher))
  }

  ghost function QueueAfter(hash: Id -> int, w: World, action: Action, heard: bool): Queue {
    match action
    case Run(c) =>
      if c !in w.db.open then w.queue
      else (match Statement(hash, w.db, c)
            case Answers(answer, _) => Hear(w.queue, c, if heard then Heard(answer) else StoreError)
            case Errs => Hear(w.queue, c, StoreError)
            case _ => w.queue)
    case Drop(c) => Hear(w.queue, c, StoreError)
    case _ => w.queue
  }

  ghost predicate Turns(hash: Id -> int, w: World, move: Move, w': World) {
    match move
    case OfBroker(step) =>
      && Enabled(w.queue, step) && (forall c :: c in w.db.open || c in w.killed ==> !Leaves(step, c))
      && w' == w.(queue := Apply(w.queue, step))
    case OfDatabase(action, heard) =>
      && (action.Begin? ==> MayRun(w.queue, action.client, action.op) && action.client !in w.killed)
      && Next(hash, w.db, action, w'.db) && w'.queue == QueueAfter(hash, w, action, heard)
      && w'.killed == if action.Restore? then w.killed + w.db.open.Keys else w.killed
    case GivesUp(c) =>
      c !in w.db.open && w' == w.(queue := Hear(w.queue, c, StoreError), killed := w.killed - {c})
  }

  predicate IsWaiting(q: Queue, c: Client) {
    c.Api? || Awaited(q, c).Some?
  }

  /** Every open transaction belongs to a client that waits for its operation; so does every killed one. */
  ghost predicate Linked(w: World) {
    && (forall c :: c in w.db.open ==> MayRun(w.queue, c, Purpose(w.db.open[c])))
    && (forall c :: c in w.killed ==> c !in w.db.open && IsWaiting(w.queue, c))
  }

  function Abstract(w: World): System {
    System(w.db.tables, w.queue)
  }

  lemma OpenHasPurpose(op: Operation)
    ensures Purpose(Open(op)) == op
  {
  }

  lemma BrokerKeepsWorker(q: Queue, step: Step, w: int)
    requires Enabled(q, step) && !Leaves(step, Worker(w)) && Awaited(q, Worker(w)).Some?
    ensures Awaited(Apply(q, step), Worker(w)) == Awaited(q, Worker(w))
  {
    var q' := Apply(q, step);
    assert w in q'.workers && q'.workers[w].body == q.workers[w].body && q'.workers[w].stage == q.workers[w].stage;
  }

  lemma BrokerKeepsPublisher(q: Queue, step: Step, p: int)
    requires Enabled(q, step) && !Leaves(step, Publisher(p)) && Awaited(q, Publisher(p)).Some?
    ensures Awaited(Apply(q, step), Publisher(p)) == Awaited(q, Publisher(p))
  {
    var q' := Apply(q, step);
    assert p in q'.publishers && q'.publishers[p] == q.publishers[p];
  }

  /** A broker step leaves every client waiting, unless the client leaves. */
  lemma BrokerKeepsAwaited(q: Queue, step: Step, c: Client)
    requires Enabled(q, step) && !Leaves(step, c) && Awaited(q, c).Some?
    ensures Awaited(Apply(q, step), c) == Awaited(q, c)
  {
    match c
    case Worker(w) => BrokerKeepsWorker(q, step, w);
    case Publisher(p) => BrokerKeepsPublisher(q, step, p);
  }

  lemma HearKeepsAwaited(q: Queue, c: Client, reply: Reply, d: Client)
    requires c != d
    ensures Awaited(Hear(q, c, reply), d) == Awaited(q, d)
  {
  }

  lemma TurnKeepsKilled(hash: Id -> int, w: World, move: Move, w': World)
    requires Linked(w) && Turns(hash, w, move, w')
    ensures forall c :: c in w'.killed ==> c !in w'.db.open && IsWaiting(w'.queue, c)
  {
    forall c | c in w'.killed ensures c !in w'.db.open && IsWaiting(w'.queue, c) {
      match move
      case OfBroker(step) =>
        if !c.Api? {
          BrokerKeepsAwaited(w.queue, step, c);
        }
      case OfDatabase(action, heard) =>
        if c in w.db.open {
          assert MayRun(w.queue, c, Purpose(w.db.open[c]));
        } else if action.Run? || action.Drop? {
          assert c != action.client;
          HearKeepsAwaited(w.queue, action.client, HeardReply(hash, w, action, heard), c);
        }
      case GivesUp(d) => HearKeepsAwaited(w.queue, d, StoreError, c);
    }
  }

  /** What the client of a move hears, if it hears anything. */
  ghost function HeardReply(hash: Id -> int, w: World, action: Action, heard: bool): Reply {
    if action.Run? && action.client in w.db.open && Statement(hash, w.db, action.client).Answers? && heard
    then Heard(Statement(hash, w.db, action.client).answer)
    else StoreError
  }

  lemma TurnKeepsLinked(hash: Id -> int, w: World, move: Move, w': World)
    requires Invariant(hash, w.db) && Linked(w) && Turns(hash, w, move, w')
    ensures Linked(w')
  {
    TurnKeepsKilled(hash, w, move, w');
    forall c | c in w'.db.open ensures MayRun(w'.queue, c, Purpose(w'.db.open[c])) {
      match move
      case OfBroker(step) =>
        if !c.Api? {
          BrokerKeepsAwaited(w.queue, step, c);
        }
      case OfDatabase(action, heard) => DatabaseKeepsLinked(hash, w, action, heard, w', c);
      case GivesUp(d) => HearKeepsAwaited(w.queue, d, StoreError, c);
    }
  }

  lemma DatabaseKeepsLinked(hash: Id -> int, w: World, action: Action, heard: bool, w': World, c: Client)
    requires Invariant(hash, w.db) && Linked(w) && Turns(hash, w, OfDatabase(action, heard), w') && c in w'.db.open
    ensures MayRun(w'.queue, c, Purpose(w'.db.open[c]))
  {
    match action
    case Begin(d, op) => OpenHasPurpose(op);
    case Run(d) =>
      var outcome := Statement(hash, w.db, d);
      if outcome.Proceeds? {
        FaithfulIsSound(w.db.log);
        ProceedIsCurrent(hash, w.db, d);
      } else {
        HearKeepsAwaited(w.queue, d, if outcome.Answers? && heard then Heard(outcome.answer) else StoreError, c);
      }
    case Drop(d) => HearKeepsAwaited(w.queue, d, StoreError, c);
    case _ =>
  }

  /** The event of the abstract system that a database move amounts to. */
  ghost function EventOf(hash: Id -> int, w: World, move: Move): Option<Event> {
    match move
    case OfBroker(step) => Some(Local(step))
    case GivesUp(c) => Some(Refuse(c))
    case OfDatabase(Run(c), heard) =>
      if c !in w.db.open then None
      else (match Statement(hash, w.db, c)
            case Answers(answer, _) => Some(Execute(c, Entry(Purpose(w.db.open[c]), answer), heard))
            case Errs => Some(Refuse(c))
            case _ => None)
    case OfDatabase(Drop(c), _) => Some(Refuse(c))
    case OfDatabase(Restore(backup, _), _) => Some(Rewind(backup.tables))
    case OfDatabase(_, _) => None
  }

  /** Every turn is one event of the abstract system or none. */
  lemma TurnRefines(hash: Id -> int, w: World, move: Move, w': World)
    requires Invariant(hash, w.db) && Linked(w) && Turns(hash, w, move, w')
    ensures Invariant(hash, w'.db) && Linked(w')
    ensures match EventOf(hash, w, move)
            case None => Abstract(w') == Abstract(w)
            case Some(event) => Moves(Abstract(w), event, Abstract(w'))
  {
    TurnKeepsLinked(hash, w, move, w');
    if move.OfDatabase? {
      var action := move.action;
      StepRefines(hash, w.db, action, w'.db);
      if action.Run? && Statement(hash, w.db, action.client).Answers? {
        AnswerRefines(hash, w.db, action.client);
      } else if action.Restore? {
        FaithfulIsSound(action.backup.log);
      }
    }
  }

  /** Every failure of the log, and of every backup's log, was recorded with the handler's limit. */
  ghost predicate Limited(s: State) {
    HandlerLimit(s.log) && forall b :: b in s.backups ==> HandlerLimit(b.log)
  }

  lemma TurnKeepsLimited(hash: Id -> int, w: World, move: Move, w': World)
    requires Linked(w) && Limited(w.db) && Turns(hash, w, move, w')
    ensures Limited(w'.db)
  {
    if move.OfDatabase? && move.action.Run? {
      var c := move.action.client;
      var outcome := Statement(hash, w.db, c);
      if outcome.Answers? {
        assert MayRun(w.queue, c, Purpose(w.db.open[c]));
        assert w'.db.log == w.db.log + [Entry(Purpose(w.db.open[c]), outcome.answer)];
      }
    }
  }

  /** What every reachable world satisfies. */
  ghost predicate Lawful(hash: Id -> int, w: World) {
    Invariant(hash, w.db) && Linked(w) && Limited(w.db)
  }

  lemma TurnKeepsLawful(hash: Id -> int, w: World, move: Move, w': World)
    requires Lawful(hash, w) && Turns(hash, w, move, w')
    ensures Lawful(hash, w')
  {
    TurnRefines(hash, w, move, w');
    TurnKeepsLimited(hash, w, move, w');
  }

  lemma LawfulIsSound(hash: Id -> int, w: World)
    requires Lawful(hash, w)
    ensures Sound(w.db.tables)
  {
    FaithfulIsSound(w.db.log);
  }

  // ----- Runs -----

  ghost predicate Course(hash: Id -> int, worlds: seq<World>, moves: seq<Move>) {
    && |worlds| == |moves| + 1
    && forall k :: 0 <= k < |moves| ==> Turns(hash, worlds[k], moves[k], worlds[k + 1])
  }

  /** A course from the very beginning. */
  ghost predicate Chronicle(hash: Id -> int, worlds: seq<World>, moves: seq<Move>) {
    Course(hash, worlds, moves) && worlds[0] == GENESIS
  }

  ghost predicate Reachable(hash: Id -> int, w: World) {
    exists worlds, moves :: Chronicle(hash, worlds, moves) && worlds[|moves|] == w
  }

  predicate Restores(move: Move) {
    move.OfDatabase? && move.action.Restore?
  }

  ghost predicate NoRestore(moves: seq<Move>) {
    forall k :: 0 <= k < |moves| ==> !Restores(moves[k])
  }

  lemma {:induction false} CourseKeepsLawful(hash: Id -> int, worlds: seq<World>, moves: seq<Move>, k: nat)
    requires Course(hash, worlds, moves) && Lawful(hash, worlds[0]) && k < |worlds|
    ensures Lawful(hash, worlds[k])
    decreases k
  {
    if k > 0 {
      CourseKeepsLawful(hash, worlds, moves, k - 1);
      TurnKeepsLawful(hash, worlds[k - 1], moves[k - 1], worlds[k]);
    }
  }

  lemma {:induction false} ReachableIsLawful(hash: Id -> int, w: World)
    requires Reachable(hash, w)
    ensures Lawful(hash, w)
  {
    var worlds, moves :| Chronicle(hash, worlds, moves) && worlds[|moves|] == w;
    CourseKeepsLawful(hash, worlds, moves, |moves|);
  }

  lemma ExtendCourse(hash: Id -> int, worlds: seq<World>, moves: seq<Move>, move: Move, w': World)
    requires Course(hash, worlds, moves) && Turns(hash, worlds[|moves|], move, w')
    ensures Course(hash, worlds + [w'], moves + [move])
  {
    var worlds', moves' := worlds + [w'], moves + [move];
    forall k | 0 <= k < |moves'| ensures Turns(hash, worlds'[k], moves'[k], worlds'[k + 1]) {
      if k < |moves| {
        assert Turns(hash, worlds[k], moves[k], worlds[k + 1]);
      }
    }
  }

  lemma CoursePrefix(hash: Id -> int, worlds: seq<World>, moves: seq<Move>, n: nat)
    requires Course(hash, worlds, moves) && n <= |moves|
    ensures Course(hash, worlds[..n + 1], moves[..n])
  {
    forall k | 0 <= k < n ensures Turns(hash, worlds[..n + 1][k], moves[..n][k], worlds[..n + 1][k + 1]) {
      assert Turns(hash, worlds[k], moves[k], worlds[k + 1]);
    }
  }

  // ----- Refinement of runs -----

  /** The abstract events of a course, in order. */
  ghost function Events(hash: Id -> int, worlds: seq<World>, moves: seq<Move>): seq<Event>
    requires |worlds| == |moves| + 1
    decreases |moves|
  {
    if moves == [] then []
    else
      var n := |moves| - 1;
      var earlier := Events(hash, worlds[..n + 1], moves[..n]);
      match EventOf(hash, worlds[n], moves[n])
      case None => earlier
      case Some(event) => earlier + [event]
  }

  /** The abstract states between them. */
  ghost function Systems(hash: Id -> int, worlds: seq<World>, moves: seq<Move>): (states: seq<System>)
    requires |worlds| == |moves| + 1
    ensures |states| == |Events(hash, worlds, moves)| + 1
    decreases |moves|
  {
    if moves == [] then [Abstract(worlds[0])]
    else
      var n := |moves| - 1;
      var earlier := Systems(hash, worlds[..n + 1], moves[..n]);
      if EventOf(hash, worlds[n], moves[n]).None? then earlier else earlier + [Abstract(worlds[n + 1])]
  }

  lemma ExtendPath(states: seq<System>, events: seq<Event>, event: Event, s': System)
    requires Path(states, events) && Moves(states[|events|], event, s')
    ensures Path(states + [s'], events + [event])
  {
    var states', events' := states + [s'], events + [event];
    forall k | 0 <= k < |events'| ensures Moves(states'[k], events'[k], states'[k + 1]) {
      if k < |events| {
        assert Moves(states[k], events[k], states[k + 1]);
      }
    }
  }

  /** Without a restore there is no rewind. */
  lemma {:induction false} RestoreIsRewind(hash: Id -> int, worlds: seq<World>, moves: seq<Move>)
    requires |worlds| == |moves| + 1 && NoRestore(moves)
    ensures NoRewind(Events(hash, worlds, moves))
    decreases |moves|
  {
    if moves != [] {
      var n := |moves| - 1;
      assert !Restores(moves[n]);
      assert forall j :: 0 <= j < n ==> moves[..n][j] == moves[j];
      RestoreIsRewind(hash, worlds[..n + 1], moves[..n]);
    }
  }

  /** The path over the course. */
  ghost predicate Refines(hash: Id -> int, worlds: seq<World>, moves: seq<Move>)
    requires |worlds| == |moves| + 1
  {
    var states, events := Systems(hash, worlds, moves), Events(hash, worlds, moves);
    && Path(states, events) && states[0] == Abstract(worlds[0]) && states[|events|] == Abstract(worlds[|moves|])
  }

  lemma RefinesFurther(hash: Id -> int, worlds: seq<World>, moves: seq<Move>)
    requires |worlds| == |moves| + 1 && moves != [] && Lawful(hash, worlds[|moves| - 1])
    requires Refines(hash, worlds[..|moves|], moves[..|moves| - 1])
    requires Turns(hash, worlds[|moves| - 1], moves[|moves| - 1], worlds[|moves|])
    ensures Refines(hash, worlds, moves)
  {
    var n := |moves| - 1;
    var worlds', moves' := worlds[..n + 1], moves[..n];
    TurnRefines(hash, worlds[n], moves[n], worlds[n + 1]);
    var event := EventOf(hash, worlds[n], moves[n]);
    if event.Some? {
      ExtendPath(Systems(hash, worlds', moves'), Events(hash, worlds', moves'), event.value, Abstract(worlds[n + 1]));
    }
  }

  /** Refinement of whole runs: the events of a course, in their order, lead the abstract system through the
      abstractions of its worlds; without a restore there is no rewind among them. */
  lemma {:induction false} RunRefines(hash: Id -> int, worlds: seq<World>, moves: seq<Move>)
    requires Course(hash, worlds, moves) && Lawful(hash, worlds[0])
    ensures Refines(hash, worlds, moves)
    ensures NoRestore(moves) ==> NoRewind(Events(hash, worlds, moves))
    decreases |moves|
  {
    if moves != [] {
      var n := |moves| - 1;
      CoursePrefix(hash, worlds, moves, n);
      RunRefines(hash, worlds[..n + 1], moves[..n]);
      CourseKeepsLawful(hash, worlds, moves, n);
      RefinesFurther(hash, worlds, moves);
    }
    if NoRestore(moves) {
      RestoreIsRewind(hash, worlds, moves);
    }
  }

  lemma {:induction false} PartGrows(hash: Id -> int, worlds: seq<World>, moves: seq<Move>, k: nat)
    requires |worlds| == |moves| + 1 && k <= |moves|
    ensures Events(hash, worlds[..k + 1], moves[..k]) <= Events(hash, worlds, moves)
    ensures Systems(hash, worlds[..k + 1], moves[..k]) <= Systems(hash, worlds, moves)
    decreases |moves|
  {
    if k < |moves| {
      var n := |moves| - 1;
      PartGrows(hash, worlds[..n + 1], moves[..n], k);
      assert worlds[..n + 1][..k + 1] == worlds[..k + 1] && moves[..n][..k] == moves[..k];
    } else {
      assert worlds[..k + 1] == worlds && moves[..k] == moves;
    }
  }

  /** And every world on the way is passed: the path of a part of the course is the beginning of the whole path. */
  lemma {:induction false} PartRefines(hash: Id -> int, worlds: seq<World>, moves: seq<Move>, k: nat)
    requires Course(hash, worlds, moves) && Lawful(hash, worlds[0]) && k <= |moves|
    ensures Events(hash, worlds[..k + 1], moves[..k]) <= Events(hash, worlds, moves)
    ensures Systems(hash, worlds[..k + 1], moves[..k]) <= Systems(hash, worlds, moves)
    ensures Systems(hash, worlds, moves)[|Events(hash, worlds[..k + 1], moves[..k])|] == Abstract(worlds[k])
  {
    PartGrows(hash, worlds, moves, k);
    CoursePrefix(hash, worlds, moves, k);
    RunRefines(hash, worlds[..k + 1], moves[..k]);
  }
}
