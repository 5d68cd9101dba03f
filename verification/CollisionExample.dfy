/** A history from the empty database in which a fresh job's two copies are delivered five times without any fault. */
module CollisionExample {
  import opened Records
  import opened Broker
  import opened WholeSystem
  import opened Contention
  import opened Duplicates
  import opened Roles
  import opened Collision
  import opened Histories

  /** Publisher 0 stores a copy of the message and stops before it has marked the row. */
  lemma StoredUnmarked(hash: Id -> int, w: World) returns (w': World)
    requires Arises(hash, w) && w.db.open == map[] && w.queue.publishers == map[] && OneRow(w.db.tables)
    ensures Arises(hash, w') && w'.db.open == map[] && OneRow(w'.db.tables) && w'.db.tables.jobs == w.db.tables.jobs
    ensures w'.queue.publishers == map[] && w'.queue.workers == w.queue.workers
    ensures w'.queue.ready == w.queue.ready + multiset{Process(M)}
  {
    w' := Stored(hash, w);
    w' := Steps(hash, w', Halt(0));
    assert w'.queue.publishers.Keys == {};
  }

  /** The world with two stored copies of a job that was never attempted. */
  lemma TwoCopies(hash: Id -> int) returns (w: World)
    ensures Arises(hash, w) && w.db.tables.jobs == map[1 := NewJob(1)] && w.db.open == map[]
    ensures w.queue.ready == multiset{Process(M), Process(M)} && w.queue.workers == map[]
    ensures Promise(w, 1) == 4 && Exceeds(TallyOf(w, M), 2)
  {
    w := AcceptedJob(hash);
    w := StoredUnmarked(hash, w);
    w := StoredUnmarked(hash, w);
    assert ReturningOf(w.queue, M) == {};
    assert forall role :: Cast(w, M, role) == {};
  }

  /** Two stored copies of a job that was never attempted: the queue and the attempts promise four deliveries at most,
      and a calm course, with every answer heard and no connection lost, makes five. */
  lemma PromiseIsBroken(hash: Id -> int) returns (worlds: seq<World>, moves: seq<Move>, n: nat)
    ensures Chronicle(hash, worlds, moves) && n <= |moves| && AllHomemade(moves)
    ensures Calm(hash, worlds[n..], moves[n..])
    ensures worlds[n].db.tables.jobs == map[1 := NewJob(1)] && worlds[n].queue.ready == multiset{Process(M), Process(M)}
    ensures worlds[n].queue.workers == map[] && worlds[n].db.open == map[]
    ensures Promise(worlds[n], 1) == 4 && DeliveriesOf(moves[n..], M) == 5
  {
    var w := TwoCopies(hash);
    ArisesIsReachable(hash, w);
    var w' := CollisionExceeds(hash, w, 1);
    var worlds2, moves2 :|
      && Course(hash, worlds2, moves2) && Calm(hash, worlds2, moves2)
      && worlds2[0] == w && worlds2[|moves2|] == w' && DeliveriesOf(moves2, M) == 5;
    worlds, moves, n := Prolonged(hash, w, worlds2, moves2);
    CalmIsHomemade(hash, worlds2, moves2);
    HomemadeParts(moves, n);
    assert worlds[n] == worlds[n..][0];
  }
}
