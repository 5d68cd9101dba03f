/** Histories from the empty database, built step by step. */
module Histories {
  import opened Records
  import opened AtomicStore
  import opened Statements
  import opened Broker
  import opened Delivery
  import opened WholeSystem
  import opened WholeRuns
  import opened Contention
  import opened Duplicates
  import opened CalmCourses

  const M := Message(1, 1)

  /** No stray message and no restore: what happens is the system's own doing, with publishers that may stop. */
  predicate Homemade(move: Move) {
    !Restores(move) && !(move.OfBroker? && move.step.Inject?)
  }

  ghost predicate AllHomemade(moves: seq<Move>) {
    forall k :: 0 <= k < |moves| ==> Homemade(moves[k])
  }

  ghost predicate Arises(hash: Id -> int, w: World) {
    w.killed == {} &&
    exists worlds, moves :: Chronicle(hash, worlds, moves) && AllHomemade(moves) && worlds[|moves|] == w
  }

  lemma ReachOn(hash: Id -> int, w: World, move: Move, w': World)
    requires Arises(hash, w) && Turns(hash, w, move, w') && Homemade(move)
    ensures Arises(hash, w')
  {
    var worlds, moves :| Chronicle(hash, worlds, moves) && AllHomemade(moves) && worlds[|moves|] == w;
    ExtendCourse(hash, worlds, moves, move, w');
    assert Chronicle(hash, worlds + [w'], moves + [move]) && AllHomemade(moves + [move]);
    assert (worlds + [w'])[|moves + [move]|] == w';
  }

  lemma Steps(hash: Id -> int, w: World, step: Step) returns (w': World)
    requires Arises(hash, w) && Enabled(w.queue, step) && !step.Inject? && w.db.open == map[]
    ensures w' == Stepped(w, step) && Arises(hash, w')
  {
    w' := Stepped(w, step);
    ReachOn(hash, w, OfBroker(step), w');
  }

  lemma Begins(hash: Id -> int, w: World, c: Client, op: Operation) returns (w': World)
    requires Arises(hash, w) && w.db.open == map[] && MayRun(w.queue, c, op)
    ensures w' == Began(w, c, op) && Arises(hash, w')
  {
    w' := Began(w, c, op);
    ReachOn(hash, w, OfDatabase(Begin(c, op), true), w');
  }

  /** The only open transaction takes its next statement. */
  lemma Runs(hash: Id -> int, w: World, c: Client) returns (w': World)
    requires Arises(hash, w) && w.db.open.Keys == {c} && !Statement(hash, w.db, c).Waits?
    ensures w' == Ran(hash, w, c) && Arises(hash, w')
    ensures Statement(hash, w.db, c).Answers? ==> w'.db.open == map[]
  {
    w' := Ran(hash, w, c);
    ReachOn(hash, w, OfDatabase(Run(c), true), w');
    assert Statement(hash, w.db, c).Answers? ==> w'.db.open.Keys == {};
  }

  lemma StartArises(hash: Id -> int)
    ensures Arises(hash, GENESIS)
  {
    var worlds, moves: seq<Move> := [GENESIS], [];
    assert Chronicle(hash, worlds, moves) && AllHomemade(moves) && worlds[|moves|] == GENESIS;
  }

  /** A history goes on with any homemade course. */
  lemma Prolonged(hash: Id -> int, w: World, worlds2: seq<World>, moves2: seq<Move>)
    returns (worlds: seq<World>, moves: seq<Move>, n: nat)
    requires Arises(hash, w) && Course(hash, worlds2, moves2) && worlds2[0] == w
    ensures Chronicle(hash, worlds, moves) && n <= |moves| && AllHomemade(moves[..n])
    ensures worlds[n..] == worlds2 && moves[n..] == moves2
  {
    var worlds1, moves1 :| Chronicle(hash, worlds1, moves1) && AllHomemade(moves1) && worlds1[|moves1|] == w;
    JoinCourses(hash, worlds1, moves1, worlds2, moves2);
    worlds, moves, n := worlds1 + worlds2[1..], moves1 + moves2, |moves1|;
    assert worlds[n..] == worlds2 && moves[n..] == moves2 && moves[..n] == moves1;
  }

  lemma CalmIsHomemade(hash: Id -> int, worlds: seq<World>, moves: seq<Move>)
    requires |worlds| == |moves| + 1 && Calm(hash, worlds, moves)
    ensures AllHomemade(moves)
  {
    forall k | 0 <= k < |moves| ensures Homemade(moves[k]) {
      assert Income(hash, worlds[k], moves[k]) == 0 && !Restores(moves[k]);
    }
  }

  lemma HomemadeParts(moves: seq<Move>, n: nat)
    requires n <= |moves| && AllHomemade(moves[..n]) && AllHomemade(moves[n..])
    ensures AllHomemade(moves)
  {
    forall k | 0 <= k < |moves| ensures Homemade(moves[k]) {
      assert if k < n then Homemade(moves[..n][k]) else Homemade(moves[n..][k - n]);
    }
  }

  lemma {:induction false} NobodyKilled(hash: Id -> int, worlds: seq<World>, moves: seq<Move>)
    requires Course(hash, worlds, moves) && AllHomemade(moves) && worlds[0].killed == {}
    ensures worlds[|moves|].killed == {}
    decreases |moves|
  {
    if moves != [] {
      var n := |moves| - 1;
      CoursePrefix(hash, worlds, moves, n);
      assert forall k :: 0 <= k < n ==> moves[..n][k] == moves[k];
      NobodyKilled(hash, worlds[..n + 1], moves[..n]);
      assert Turns(hash, worlds[n], moves[n], worlds[n + 1]) && Homemade(moves[n]);
    }
  }

  /** Where a calm course leads, a history leads. */
  lemma ArisesCalmly(hash: Id -> int, w: World, w': World, m: Message, d: nat)
    requires Arises(hash, w) && Leads(hash, w, w', m, d)
    ensures Arises(hash, w')
  {
    var worlds2, moves2 :|
      && Course(hash, worlds2, moves2) && Calm(hash, worlds2, moves2)
      && worlds2[0] == w && worlds2[|moves2|] == w' && DeliveriesOf(moves2, m) == d;
    CalmIsHomemade(hash, worlds2, moves2);
    NobodyKilled(hash, worlds2, moves2);
    var worlds, moves, n := Prolonged(hash, w, worlds2, moves2);
    HomemadeParts(moves, n);
    assert worlds[|moves|] == worlds[n..][|moves2|];
  }

  lemma {:induction false} BackupsStay(hash: Id -> int, worlds: seq<World>, moves: seq<Move>)
    requires Course(hash, worlds, moves)
    ensures worlds[0].db.backups <= worlds[|moves|].db.backups
    decreases |moves|
  {
    if moves != [] {
      var n := |moves| - 1;
      CoursePrefix(hash, worlds, moves, n);
      BackupsStay(hash, worlds[..n + 1], moves[..n]);
      assert Turns(hash, worlds[n], moves[n], worlds[n + 1]);
    }
  }

  lemma LeadsKeepsBackups(hash: Id -> int, w: World, w': World, m: Message, d: nat)
    requires Leads(hash, w, w', m, d)
    ensures w.db.backups <= w'.db.backups
  {
    var worlds, moves :|
      && Course(hash, worlds, moves) && Calm(hash, worlds, moves)
      && worlds[0] == w && worlds[|moves|] == w' && DeliveriesOf(moves, m) == d;
    BackupsStay(hash, worlds, moves);
  }

  lemma ArisesIsReachable(hash: Id -> int, w: World)
    requires Arises(hash, w)
    ensures Reachable(hash, w) && Lawful(hash, w)
  {
    var worlds, moves :| Chronicle(hash, worlds, moves) && AllHomemade(moves) && worlds[|moves|] == w;
    CourseKeepsLawful(hash, worlds, moves, |moves|);
  }

  // ----- One accepted job -----

  /** Item 1 is created. */
  lemma Created(hash: Id -> int) returns (w: World)
    ensures Arises(hash, w) && w.db.open == map[] && w.db.next == Sequences(2, 1, 1) && w.queue == EMPTY_QUEUE
    ensures w.db.tables == EMPTY.(items := map[1 := Item("", Pending)])
  {
    StartArises(hash);
    w := Begins(hash, GENESIS, Api(0), CreateItem(""));
    w := Runs(hash, w, Api(0));
    assert w.db.open[Api(0)] == CreateInserted("", 1);
    w := Runs(hash, w, Api(0));
  }

  /** Its acceptance gets as far as the pending item without an active job. */
  lemma Examined(hash: Id -> int) returns (w: World)
    ensures Arises(hash, w) && w.db.open == map[Api(0) := AcceptFree(1)] && w.db.next == Sequences(2, 1, 1)
    ensures w.queue == EMPTY_QUEUE && w.db.tables == EMPTY.(items := map[1 := Item("", Pending)])
  {
    w := Created(hash);
    w := Begins(hash, w, Api(0), AcceptJob(1));
    w := Runs(hash, w, Api(0));
    assert w.db.open[Api(0)] == AcceptLocked(1);
    w := Runs(hash, w, Api(0));
    assert w.db.open[Api(0)] == AcceptPending(1);
    assert forall job :: !Active(w.db.tables, 1, job);
    w := Runs(hash, w, Api(0));
  }

  /** Job 1 is accepted, with outbox row 1. */
  lemma AcceptedJob(hash: Id -> int) returns (w: World)
    ensures Arises(hash, w) && w.db.open == map[] && w.queue == EMPTY_QUEUE
    ensures w.db.tables == Tables(map[1 := Item("", Pending)], map[1 := NewJob(1)], map[1 := NewRow(1, 1)], [])
  {
    w := Examined(hash);
    w := Runs(hash, w, Api(0));
    assert w.db.open[Api(0)] == AcceptJobAdded(1, 1);
    w := Runs(hash, w, Api(0));
    assert w.db.open[Api(0)] == AcceptRowAdded(1, 1, 1);
    w := Runs(hash, w, Api(0));
  }

  /** The only row, unpublished. */
  predicate OneRow(t: Tables) {
    t.outbox.Keys == {1} && t.outbox[1].payload == M && !t.outbox[1].published
  }

  /** Publisher 0 finds the row and locks it. */
  lemma Locked(hash: Id -> int, w: World) returns (w': World)
    requires Arises(hash, w) && w.db.open == map[] && w.queue.publishers == map[] && OneRow(w.db.tables)
    ensures Arises(hash, w') && w'.db.open.Keys == {Publisher(0)} && w'.db.tables == w.db.tables
    ensures w'.db.backups == w.db.backups && w'.queue == w.queue.(publishers := map[0 := Taking])
    ensures var row := w.db.tables.outbox[1];
            w'.db.open[Publisher(0)] == RowWritten(BeginPublish, 1, row.(attempts := row.attempts + 1))
  {
    w' := Steps(hash, w, Take(0));
    w' := Begins(hash, w', Publisher(0), BeginPublish);
    assert NextRow(w'.db, Publisher(0), 1);
    w' := Runs(hash, w', Publisher(0));
  }

  /** Publisher 0 takes the row. */
  lemma Taken(hash: Id -> int, w: World) returns (w': World)
    requires Arises(hash, w) && w.db.open == map[] && w.queue.publishers == map[] && OneRow(w.db.tables)
    ensures Arises(hash, w') && w'.db.open == map[] && OneRow(w'.db.tables) && SameButOutbox(w, w')
    ensures w'.queue == w.queue.(publishers := map[0 := Carrying(1, M)])
  {
    w' := Locked(hash, w);
    w' := Runs(hash, w', Publisher(0));
  }

  predicate SameButOutbox(w: World, w': World) {
    && w'.db.tables.jobs == w.db.tables.jobs && w'.db.tables.items == w.db.tables.items
    && w'.db.backups == w.db.backups
  }

  /** And stores a copy of the message. */
  lemma Stored(hash: Id -> int, w: World) returns (w': World)
    requires Arises(hash, w) && w.db.open == map[] && w.queue.publishers == map[] && OneRow(w.db.tables)
    ensures Arises(hash, w') && w'.db.open == map[] && OneRow(w'.db.tables) && SameButOutbox(w, w')
    ensures w'.queue.publishers == map[0 := Landed(1, M)] && w'.queue.workers == w.queue.workers
    ensures w'.queue.ready == w.queue.ready + multiset{Process(M)} && w'.queue.limbo == w.queue.limbo
  {
    w' := Taken(hash, w);
    w' := Steps(hash, w', Send(0));
    w' := Steps(hash, w', Land(0));
  }
}
