/** A history from the empty database that loses accepted work across a restore, statement by statement. */
module RestoreExample {
  import opened Records
  import opened SuccessInvariant
  import opened Settlement
  import opened Statements
  import opened Broker
  import opened Delivery
  import opened Duty
  import opened WholeSystem
  import opened WholeRuns
  import opened Collision
  import opened Histories

  /** What the backup captures: job 1 of item 1 accepted, its row unpublished. */
  const CAPTURED :=
    Tables(map[1 := Item("", Pending)], map[1 := NewJob(1)], map[1 := NewRow(1, 1)], [])

  /** The backup is taken right after the acceptance. */
  lemma Captured(hash: Id -> int) returns (w: World, backup: Snapshot)
    ensures Arises(hash, w) && w.db.open == map[] && w.queue == EMPTY_QUEUE
    ensures w.db.tables == CAPTURED && backup.tables == CAPTURED && backup in w.db.backups
  {
    var accepted := AcceptedJob(hash);
    backup := Snapshot(accepted.db.tables, accepted.db.log);
    w := accepted.(db := accepted.db.(backups := accepted.db.backups + {backup}));
    ReachOn(hash, accepted, OfDatabase(Backup, true), w);
  }

  /** Publisher 0 has stored the message, heard the confirmation, and is about to mark its row. */
  lemma AboutToMark(hash: Id -> int) returns (w: World, backup: Snapshot)
    ensures Arises(hash, w) && w.db.open == map[] && OneRow(w.db.tables) && w.db.tables.jobs == CAPTURED.jobs
    ensures w.db.tables.items == CAPTURED.items && backup.tables == CAPTURED && backup in w.db.backups
    ensures w.queue.publishers == map[0 := Marking(1, M)] && w.queue.workers == map[]
            && w.queue.ready == multiset{Process(M)}
    ensures w.queue.limbo == multiset{}
  {
    w, backup := Captured(hash);
    w := Stored(hash, w);
    w := Steps(hash, w, Confirm(0));
  }

  /** Worker 0 has the only copy, in some stage; only it has a transaction, if anybody. */
  ghost predicate Working(hash: Id -> int, w: World, backup: Snapshot, stage: Stage) {
    && Arises(hash, w) && HasJob(w.db.tables, 1, Accepted) && w.db.tables.jobs[1].item == 1
    && backup.tables == CAPTURED && backup in w.db.backups && w.db.open - {Worker(0)} == map[]
    && w.queue.publishers == map[0 := Marking(1, M)] && w.queue.ready == multiset{} && w.queue.limbo == multiset{}
    && w.queue.workers == map[0 := Work(Process(M), stage, true)]
  }

  lemma WorksOn(hash: Id -> int, w: World, w': World, backup: Snapshot, stage: Stage, next: Stage)
    requires Working(hash, w, backup, stage) && Goes(hash, w, w', 1, 0) && Staged(w, w', 0, next)
    ensures Working(hash, w', backup, next)
  {
    ArisesCalmly(hash, w, w', M, 0);
    LeadsKeepsBackups(hash, w, w', M, 0);
  }

  lemma OnlyWorker(w: World)
    requires w.db.open - {Worker(0)} == map[] && Worker(0) in w.db.open
    ensures w.db.open.Keys == {Worker(0)}
  {
    forall c ensures c in w.db.open <==> c == Worker(0) {
      assert c != Worker(0) && c in w.db.open ==> c in w.db.open - {Worker(0)};
    }
  }

  /** Worker 0 takes the message, and its processor succeeds. */
  lemma Succeeded(hash: Id -> int) returns (w: World, backup: Snapshot)
    ensures Working(hash, w, backup, Completing) && Worker(0) !in w.db.open
  {
    var start;
    start, backup := AboutToMark(hash);
    start := Steps(hash, start, Deliver(0, Process(M)));
    assert start.db.open - {Worker(0)} == map[];
    assert Working(hash, start, backup, Received);
    ArisesIsReachable(hash, start);
    w := ToOutcome(hash, start, 1, 0, true);
    WorksOn(hash, start, w, backup, Received, Completing);
  }

  /** It gets as far as the guarded update of the job. */
  lemma BeforeUpdate(hash: Id -> int) returns (w: World, backup: Snapshot)
    ensures Working(hash, w, backup, Completing) && Worker(0) in w.db.open && w.db.open[Worker(0)].CompleteItemDone?
  {
    var start;
    start, backup := Succeeded(hash);
    ArisesIsReachable(hash, start);
    assert start.db.open == map[] by {
      assert start.db.open - {Worker(0)} == start.db.open;
    }
    var taken := TakeKey(hash, start, 1, 0);
    WorksOn(hash, start, taken, backup, Completing, Completing);
    w := WalkOn(hash, taken, 1, 0);
    WorksOn(hash, taken, w, backup, Completing, Completing);
  }

  /** Updates it. */
  lemma Updated(hash: Id -> int) returns (w: World, backup: Snapshot)
    ensures Working(hash, w, backup, Completing) && w.db.open.Keys == {Worker(0)}
            && w.db.open[Worker(0)].CompleteJobDone?
  {
    var start;
    start, backup := BeforeUpdate(hash);
    OnlyWorker(start);
    ArisesIsReachable(hash, start);
    assert MayRun(start.queue, Worker(0), Purpose(start.db.open[Worker(0)]));
    assert !JobRowTaken(start.db, Worker(0), 1);
    w := Runs(hash, start, Worker(0));
    assert w.db.open - {Worker(0)} == start.db.open - {Worker(0)};
  }

  /** And commits. */
  lemma Committed(hash: Id -> int) returns (w: World, backup: Snapshot)
    ensures Arises(hash, w) && w.db.open == map[] && backup.tables == CAPTURED && backup in w.db.backups
    ensures w.queue.publishers == map[0 := Marking(1, M)] && w.queue.ready == multiset{} && w.queue.limbo == multiset{}
    ensures w.queue.workers == map[0 := Work(Process(M), Decided(Ack), true)]
  {
    w, backup := Updated(hash);
    w := Runs(hash, w, Worker(0));
  }

  /** And acknowledges: no copy of the message is left. */
  lemma Consumed(hash: Id -> int) returns (w: World, backup: Snapshot)
    ensures Arises(hash, w) && w.db.open == map[] && backup.tables == CAPTURED && backup in w.db.backups
    ensures w.queue.publishers == map[0 := Marking(1, M)] && w.queue.ready == multiset{} && w.queue.workers == map[]
    ensures w.queue.limbo == multiset{}
  {
    w, backup := Committed(hash);
    w := Steps(hash, w, Settle(0));
    assert w.queue.workers.Keys == {};
  }

  /** The backup is restored, and its job is at a living publisher's mercy. */
  lemma Restored(hash: Id -> int) returns (w: World, restore: Move, w': World)
    ensures Arises(hash, w) && Turns(hash, w, restore, w') && Restores(restore)
            && restore.action.backup.tables == CAPTURED
    ensures w'.db.tables == CAPTURED && Quiet(w') && !InFlight(w.queue, M) && SomeoneBetrays(w, 1, M)
    ensures w'.queue.publishers == map[0 := Marking(1, M)] && Gone(w'.queue, M) && Lawful(hash, w')
  {
    var backup;
    w, backup := Consumed(hash);
    ArisesIsReachable(hash, w);
    var next := Sequences(2, 2, 2);
    restore := OfDatabase(Restore(backup, next), true);
    w' := w.(db := w.db.(tables := backup.tables, log := backup.log, open := map[], next := next));
    assert Turns(hash, w, restore, w');
    TurnKeepsLawful(hash, w, restore, w');
    assert Betrays(w.queue.publishers[0], 1, M);
  }

  /** The publisher's mark loses the restored job. */
  lemma MarkLosesJob(w: World) returns (s': System)
    requires w.db.tables == CAPTURED && w.queue.publishers == map[0 := Marking(1, M)] && Gone(w.queue, M)
             && Sound(CAPTURED)
    ensures Moves(Abstract(w), Mark(1, 0), s') && Lost(s', 1)
  {
    assert IsUnpublished(CAPTURED, 1) && CAPTURED.outbox[1].job == 1;
    assert !InFlight(w.queue, M);
    s' := MarkLoses(Abstract(w), 1, 1, 0);
  }

  /** A restore and what follows it, as one course. */
  lemma RestoredCourse(hash: Id -> int, w: World, restore: Move, restored: World, worlds1: seq<World>,
      moves1: seq<Move>)
    requires Turns(hash, w, restore, restored) && Course(hash, worlds1, moves1) && worlds1[0] == restored
    ensures var worlds := [w, restored] + worlds1[1..];
            Course(hash, worlds, [restore] + moves1) && worlds[0] == w
                && worlds[|[restore] + moves1|] == worlds1[|moves1|]
  {
    assert Course(hash, [w, restored], [restore]);
    JoinCourses(hash, [w, restored], [restore], worlds1, moves1);
  }

  /** From the restored backup, the mark of the publisher loses the job. */
  lemma LosingCourse(hash: Id -> int) returns (worlds: seq<World>, moves: seq<Move>)
    ensures Course(hash, worlds, moves) && Arises(hash, worlds[0]) && moves != [] && Restores(moves[0])
    ensures moves[0].action.backup.tables == CAPTURED && Lost(Abstract(worlds[|moves|]), 1)
    ensures forall k :: 0 < k < |moves| ==> moves[k].OfDatabase? && !Restores(moves[k])
  {
    var w, restore, restored := Restored(hash);
    LawfulIsSound(hash, restored);
    var s' := MarkLosesJob(restored);
    var worlds1, moves1 := MarkIsPossible(hash, restored, 1, 0, s');
    RestoredCourse(hash, w, restore, restored, worlds1, moves1);
    worlds, moves := [w, restored] + worlds1[1..], [restore] + moves1;
  }

  /** Job 1 is accepted and unpublished in the backup of a history without stray messages, and after its restore and the
      mark of one publisher, nothing else, it is lost: accepted, published, with no copy anywhere. */
  lemma RestoreCanLoseWork(hash: Id -> int) returns (worlds: seq<World>, moves: seq<Move>, n: nat)
    ensures Chronicle(hash, worlds, moves) && n < |moves| && AllHomemade(moves[..n]) && Restores(moves[n])
    ensures forall k :: n < k < |moves| ==> moves[k].OfDatabase? && !Restores(moves[k])
    ensures moves[n].action.backup.tables == CAPTURED && HasJob(CAPTURED, 1, Accepted) && IsUnpublished(CAPTURED, 1)
    ensures Lost(Abstract(worlds[|moves|]), 1)
  {
    var worlds2, moves2 := LosingCourse(hash);
    worlds, moves, n := Prolonged(hash, worlds2[0], worlds2, moves2);
    assert |moves| == n + |moves2|;
    assert moves[n] == moves2[0] && worlds[|moves|] == worlds2[|moves2|] by {
      assert moves[n..][0] == moves[n] && worlds[n..][|moves2|] == worlds[|moves|];
    }
    forall k | n < k < |moves| ensures moves[k].OfDatabase? && !Restores(moves[k]) {
      assert moves[k] == moves[n..][k - n] == moves2[k - n];
    }
  }
}
