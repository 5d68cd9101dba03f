/** The other half of the delivery bound: where two deliveries can get into each other's way, they can exceed it, step
    by step. Connected copies use up the attempts but the last, requeued each time; then one worker opens the completion
    of the job, another records the last failure, the completion errs, and its copy returns. */
module Collision {
  import opened Records
  import opened AtomicStore
  import opened Settlement
  import opened Statements
  import opened Serializability
  import opened LockOrder
  import opened Broker
  import opened Delivery
  import opened Deliveries
  import opened WholeSystem
  import opened Contention
  import opened Duplicates
  import opened Roles
  import opened CalmCourses
  import opened Sets

  ghost predicate Scene(hash: Id -> int, w: World, job: Id) {
    Lawful(hash, w) && HasJob(w.db.tables, job, Accepted) && NoneMissed(w.db, job)
  }

  /** A calm course that delivers the job's message d times and leaves the job's row as it is. */
  ghost predicate Goes(hash: Id -> int, w: World, w': World, job: Id, d: nat)
    requires job in w.db.tables.jobs
  {
    && Leads(hash, w, w', OwnMessage(w.db.tables, job), d) && Scene(hash, w', job)
    && w'.db.tables.jobs[job] == w.db.tables.jobs[job]
  }

  lemma GoesNowhere(hash: Id -> int, w: World, job: Id)
    requires Scene(hash, w, job)
    ensures Goes(hash, w, w, job, 0)
  {
    LeadsNowhere(hash, w, OwnMessage(w.db.tables, job));
  }

  lemma GoesByMove(hash: Id -> int, w: World, move: Move, w': World, job: Id)
    requires Scene(hash, w, job) && Turns(hash, w, move, w') && CalmMove(hash, w, move)
    requires job in w'.db.tables.jobs && w'.db.tables.jobs[job] == w.db.tables.jobs[job]
    ensures Goes(hash, w, w', job, Bit(DeliversOf(move, OwnMessage(w.db.tables, job))))
  {
    var m := OwnMessage(w.db.tables, job);
    LeadsNowhere(hash, w, m);
    LeadsOn(hash, w, w, move, w', m, 0);
    TurnKeepsLawful(hash, w, move, w');
    TurnKeepsNoneMissed(hash, w, move, w', job);
  }

  lemma GoesTwice(hash: Id -> int, w: World, w1: World, w2: World, job: Id, d: nat, e: nat)
    requires job in w.db.tables.jobs && Goes(hash, w, w1, job, d) && Goes(hash, w1, w2, job, e)
    ensures Goes(hash, w, w2, job, d + e)
  {
    LeadsFurther(hash, w, w1, w2, OwnMessage(w.db.tables, job), d, e);
  }

  lemma GoesByStep(hash: Id -> int, w: World, step: Step, job: Id)
    requires Scene(hash, w, job) && Enabled(w.queue, step) && Smooth(step) && !step.Halt?
    ensures Goes(hash, w, Stepped(w, step), job, Bit(DeliversOf(OfBroker(step), OwnMessage(w.db.tables, job))))
  {
    GoesByMove(hash, w, OfBroker(step), Stepped(w, step), job);
  }

  lemma GoesByBegin(hash: Id -> int, w: World, c: Client, op: Operation, job: Id)
    requires Scene(hash, w, job) && c !in w.db.open && c !in w.killed && MayRun(w.queue, c, op)
    ensures Goes(hash, w, Began(w, c, op), job, 0)
  {
    GoesByMove(hash, w, OfDatabase(Begin(c, op), true), Began(w, c, op), job);
  }

  lemma GoesByRun(hash: Id -> int, w: World, c: Client, job: Id)
    requires Scene(hash, w, job) && c in w.db.open && !Statement(hash, w.db, c).Waits?
    requires Statement(hash, w.db, c).Answers? ==>
               && !Statement(hash, w.db, c).answer.JobAccepted? && job in Statement(hash, w.db, c).tables.jobs
               && Statement(hash, w.db, c).tables.jobs[job] == w.db.tables.jobs[job]
    ensures Goes(hash, w, Ran(hash, w, c), job, 0)
  {
    GoesByMove(hash, w, OfDatabase(Run(c), true), Ran(hash, w, c), job);
  }

  // ----- One worker with the message -----

  /** The worker v in another stage, its transaction open or not; everything else as before. */
  predicate Staged(w: World, w': World, v: int, stage: Stage)
    requires v in w.queue.workers
  {
    && w'.queue == w.queue.(workers := w.queue.workers[v := w.queue.workers[v].(stage := stage)])
    && w'.db.tables == w.db.tables && w'.killed == w.killed
    && w'.db.open - {Worker(v)} == w.db.open - {Worker(v)}
  }

  lemma StagedTwice(w: World, w1: World, w2: World, v: int, first: Stage, second: Stage)
    requires v in w.queue.workers && Staged(w, w1, v, first) && Staged(w1, w2, v, second)
    ensures Staged(w, w2, v, second)
  {
  }

  /** The others' parts, and the copies queued, do not depend on it. */
  lemma StagedAlone(w: World, w': World, v: int, stage: Stage, m: Message)
    requires v in w.queue.workers && Staged(w, w', v, stage)
    ensures OthersPlayOn(w, w', m, v)
    ensures !stage.Decided? && !w.queue.workers[v].stage.Decided? ==> Queued(w'.queue, m) == Queued(w.queue, m)
  {
    forall u ensures u == v || PartOf(w', m, u) == PartOf(w, m, u) {
      if u != v {
        assert Worker(u) in w'.db.open <==> Worker(u) in w'.db.open - {Worker(v)};
        assert Worker(u) in w.db.open <==> Worker(u) in w.db.open - {Worker(v)};
        assert Worker(u) in w.db.open ==> (w.db.open - {Worker(v)})[Worker(u)] == w.db.open[Worker(u)];
        assert Worker(u) in w'.db.open ==> (w'.db.open - {Worker(v)})[Worker(u)] == w'.db.open[Worker(u)];
      }
    }
    if !stage.Decided? && !w.queue.workers[v].stage.Decided? {
      assert ReturningOf(w'.queue, m) == ReturningOf(w.queue, m);
    }
  }

  lemma StagedShifts(w: World, w': World, v: int, stage: Stage, m: Message)
    requires Holds(w, m, v) && Staged(w, w', v, stage) && !stage.Decided? && !w.queue.workers[v].stage.Decided?
    ensures Holds(w', m, v) && Queued(w'.queue, m) == Queued(w.queue, m)
    ensures Shifts(TallyOf(w, m), TallyOf(w', m), RoleOf(w, v), RoleOf(w', v), 0)
  {
    StagedAlone(w, w', v, stage, m);
    TallyShifts(w, w', m, v);
  }

  /** A worker that waits for nobody has no transaction, and was not killed. */
  lemma IdleMeansFree(w: World, v: int)
    requires Linked(w) && v in w.queue.workers && Awaited(w.queue, Worker(v)).None?
    ensures Worker(v) !in w.db.open && Worker(v) !in w.killed
  {
    assert Worker(v) in w.db.open ==> MayRun(w.queue, Worker(v), Purpose(w.db.open[Worker(v)]));
    assert Worker(v) in w.killed ==> IsWaiting(w.queue, Worker(v));
  }

  /** The worker's question about the job is answered: it is accepted. */
  lemma HearInspection(hash: Id -> int, w: World, job: Id, v: int) returns (w': World)
    requires Scene(hash, w, job) && Holds(w, OwnMessage(w.db.tables, job), v)
    requires w.queue.workers[v].stage.Inspecting? && Worker(v) in w.db.open
    ensures Goes(hash, w, w', job, 0) && Staged(w, w', v, Cleared) && Worker(v) !in w'.db.open
  {
    HolderRuns(hash, w, v, job);
    w' := Ran(hash, w, Worker(v));
    GoesByRun(hash, w, Worker(v), job);
  }

  /** The worker asks about the job, if it has not asked yet, and hears that it is accepted. */
  lemma HearAccepted(hash: Id -> int, w: World, job: Id, v: int) returns (w': World)
    requires Scene(hash, w, job) && Holds(w, OwnMessage(w.db.tables, job), v)
    requires w.queue.workers[v].stage.Inspecting? && Worker(v) !in w.killed
    ensures Goes(hash, w, w', job, 0) && Staged(w, w', v, Cleared) && Worker(v) !in w'.db.open
  {
    var c, m := Worker(v), OwnMessage(w.db.tables, job);
    if c in w.db.open {
      w' := HearInspection(hash, w, job, v);
    } else {
      GoesByBegin(hash, w, c, InspectJob(m.job, m.item), job);
      var asked := Began(w, c, InspectJob(m.job, m.item));
      w' := HearInspection(hash, asked, job, v);
      GoesTwice(hash, w, asked, w', job, 0, 0);
      assert w'.db.open - {c} == w.db.open - {c};
    }
  }

  /** An undecided worker gets as far as its processor. */
  lemma ToProcessor(hash: Id -> int, w: World, job: Id, v: int) returns (w': World)
    requires Scene(hash, w, job) && Holds(w, OwnMessage(w.db.tables, job), v) && Worker(v) !in w.killed
    requires var stage := w.queue.workers[v].stage; stage.Received? || stage.Inspecting? || stage.Cleared?
    ensures Goes(hash, w, w', job, 0) && Staged(w, w', v, Cleared) && Worker(v) !in w'.db.open
  {
    if w.queue.workers[v].stage.Cleared? {
      IdleMeansFree(w, v);
      GoesNowhere(hash, w, job);
      w' := w;
    } else if w.queue.workers[v].stage.Received? {
      IdleMeansFree(w, v);
      GoesByStep(hash, w, Decode(v), job);
      var decoded := Stepped(w, Decode(v));
      w' := HearAccepted(hash, decoded, job, v);
      GoesTwice(hash, w, decoded, w', job, 0, 0);
    } else {
      w' := HearAccepted(hash, w, job, v);
    }
  }

  /** And its processor speaks. */
  lemma ToOutcome(hash: Id -> int, w: World, job: Id, v: int, success: bool) returns (w': World)
    requires Scene(hash, w, job) && Holds(w, OwnMessage(w.db.tables, job), v) && Worker(v) !in w.killed
    requires var stage := w.queue.workers[v].stage; stage.Received? || stage.Inspecting? || stage.Cleared?
    ensures Goes(hash, w, w', job, 0) && Staged(w, w', v, if success then Completing else Recording)
    ensures Worker(v) !in w'.db.open
  {
    var cleared := ToProcessor(hash, w, job, v);
    GoesByStep(hash, cleared, Processed(v, success), job);
    w' := Stepped(cleared, Processed(v, success));
    GoesTwice(hash, w, cleared, w', job, 0, 0);
    StagedTwice(w, cleared, w', v, Cleared, if success then Completing else Recording);
  }

  // ----- Recording a failure -----

  function Failure(s: State, job: Id): Job
    requires job in s.tables.jobs
  {
    FailedRow(s.tables.jobs[job], FAILURE_CODE, MAX_ATTEMPTS)
  }

  predicate CanFail(role: Role) {
    role == Undecided || role == Failing || role == Loose || role == LooseWritten
  }

  predicate HasWritten(w: World, v: int) {
    Worker(v) in w.db.open && w.db.open[Worker(v)].FailureWritten?
  }

  /** The recording's guarded update, its row free. */
  lemma WriteBegun(hash: Id -> int, w: World, job: Id, v: int) returns (w': World)
    requires Scene(hash, w, job) && Holds(w, OwnMessage(w.db.tables, job), v) && w.queue.workers[v].stage.Recording?
    requires Worker(v) in w.db.open && w.db.open[Worker(v)].FailureBegun? && !JobRowTaken(w.db, Worker(v), job)
    ensures Goes(hash, w, w', job, 0) && Staged(w, w', v, Recording) && HasWritten(w', v)
  {
    HolderRuns(hash, w, v, job);
    w' := Ran(hash, w, Worker(v));
    GoesByRun(hash, w, Worker(v), job);
    assert w.queue.workers == w.queue.workers[v := w.queue.workers[v].(stage := Recording)];
  }

  /** A worker whose processor has failed writes its failure, unless it has. */
  lemma WriteFailure(hash: Id -> int, w: World, job: Id, v: int) returns (w': World)
    requires Scene(hash, w, job) && Holds(w, OwnMessage(w.db.tables, job), v) && w.queue.workers[v].stage.Recording?
    requires CanFail(RoleOf(w, v)) && (HasWritten(w, v) || !JobRowTaken(w.db, Worker(v), job))
    ensures Goes(hash, w, w', job, 0) && Staged(w, w', v, Recording) && HasWritten(w', v)
  {
    var c, m := Worker(v), OwnMessage(w.db.tables, job);
    if HasWritten(w, v) {
      GoesNowhere(hash, w, job);
      w' := w;
      assert w.queue.workers == w.queue.workers[v := w.queue.workers[v].(stage := Recording)];
    } else if c in w.db.open {
      HolderRuns(hash, w, v, job);
      w' := WriteBegun(hash, w, job, v);
    } else {
      var op := RecordFailure(m.job, m.item, FAILURE_CODE, MAX_ATTEMPTS);
      GoesByBegin(hash, w, c, op, job);
      var begun := Began(w, c, op);
      OwnRowIsIrrelevant(w.db, begun.db, c, job);
      w' := WriteBegun(hash, begun, job, v);
      GoesTwice(hash, w, begun, w', job, 0, 0);
      assert w'.db.open - {c} == w.db.open - {c};
    }
  }

  lemma OwnRowIsIrrelevant(s: State, s': State, c: Client, job: Id)
    requires !JobRowTaken(s, c, job) && s'.open - {c} == s.open - {c}
    ensures !JobRowTaken(s', c, job)
  {
    forall d | d in s'.open && d != c ensures !HoldsJobRow(s'.open[d], job) {
      assert d in s'.open - {c};
      assert d in s.open - {c} && s.open[d] == s'.open[d];
    }
  }

  /** A worker that can fail gets as far as a written failure. */
  lemma PrepareFailure(hash: Id -> int, w: World, job: Id, v: int) returns (w': World)
    requires Scene(hash, w, job) && Holds(w, OwnMessage(w.db.tables, job), v)
    requires CanFail(RoleOf(w, v)) && (HasWritten(w, v) || !JobRowTaken(w.db, Worker(v), job))
    ensures Goes(hash, w, w', job, 0) && Staged(w, w', v, Recording) && HasWritten(w', v)
  {
    if w.queue.workers[v].stage.Recording? {
      w' := WriteFailure(hash, w, job, v);
    } else {
      assert !HasWritten(w, v) by {
        if HasWritten(w, v) {
          HolderRuns(hash, w, v, job);
        }
      }
      var failed := ToOutcome(hash, w, job, v, false);
      OwnRowIsIrrelevant(w.db, failed.db, Worker(v), job);
      w' := WriteFailure(hash, failed, job, v);
      GoesTwice(hash, w, failed, w', job, 0, 0);
      StagedTwice(w, failed, w', v, Recording, Recording);
    }
  }

  /** Whoever holds the row of an accepted job has its message, and has written its failure or its success. */
  lemma RowHolderIs(hash: Id -> int, w: World, job: Id, d: Client)
    requires Scene(hash, w, job) && d in w.db.open && HoldsJobRow(w.db.open[d], job)
    ensures var m := OwnMessage(w.db.tables, job);
            d.Worker? && Holds(w, m, d.worker) && (d.worker in Cast(w, m, Blocking) || HasWritten(w, d.worker))
  {
    assert Current(w.db.tables, w.db.next, w.db.open[d]) && MayRun(w.queue, d, Purpose(w.db.open[d]));
    HolderRuns(hash, w, d.worker, job);
  }

  /** With no failure written and no completion past its update, the job's row is free. */
  lemma RowIsFree(hash: Id -> int, w: World, job: Id, c: Client)
    requires Scene(hash, w, job)
    requires var m := OwnMessage(w.db.tables, job);
             Cast(w, m, Blocking) == {} && forall v :: Holds(w, m, v) ==> !HasWritten(w, v)
    ensures !JobRowTaken(w.db, c, job)
  {
    var m := OwnMessage(w.db.tables, job);
    forall d | d in w.db.open ensures !HoldsJobRow(w.db.open[d], job) {
      if HoldsJobRow(w.db.open[d], job) {
        RowHolderIs(hash, w, job, d);
      }
    }
  }

  /** The written failure is committed, and its worker hears so. */
  lemma CommitFailure(hash: Id -> int, w: World, job: Id, v: int) returns (w': World)
    requires Scene(hash, w, job) && Holds(w, OwnMessage(w.db.tables, job), v) && HasWritten(w, v)
    requires w.queue.workers[v].stage.Recording?
    ensures var m, row := OwnMessage(w.db.tables, job), Failure(w.db, job);
            && Leads(hash, w, w', m, 0) && Lawful(hash, w') && job in w'.db.tables.jobs && NoneMissed(w'.db, job)
            && w'.db.tables.jobs == w.db.tables.jobs[job := row]
            && Heeds(w, w', v, if row.state == Failed then Exhausted(row) else Retryable(row))
  {
    var m := OwnMessage(w.db.tables, job);
    FailureCommits(hash, w, v, job);
    HolderRuns(hash, w, v, job);
    LeadsNowhere(hash, w, m);
    w' := Ran(hash, w, Worker(v));
    LeadsByRun(hash, w, w, Worker(v), m, 0);
    assert Turns(hash, w, OfDatabase(Run(Worker(v)), true), w');
    TurnKeepsLawful(hash, w, OfDatabase(Run(Worker(v)), true), w');
    TurnKeepsNoneMissed(hash, w, OfDatabase(Run(Worker(v)), true), w', job);
  }

  // ----- A copy from the queue -----

  /** The queue has one copy less, and worker v, undecided, has one. */
  ghost predicate Takes(hash: Id -> int, w: World, job: Id, w': World, v: int)
    requires job in w.db.tables.jobs
  {
    var m := OwnMessage(w.db.tables, job);
    && Goes(hash, w, w', job, 1) && w'.db == w.db && w'.killed == w.killed
    && Holds(w', m, v) && RoleOf(w', v) == Undecided && OthersPlayOn(w, w', m, v) && PartOf(w, m, v) == Out
    && Queued(w'.queue, m) + 1 == Queued(w.queue, m)
  }

  lemma TakeReady(hash: Id -> int, w: World, job: Id) returns (w': World, v: int)
    requires Scene(hash, w, job) && Process(OwnMessage(w.db.tables, job)) in w.queue.ready
    ensures Takes(hash, w, job, w', v)
  {
    var m := OwnMessage(w.db.tables, job);
    v := IdleWorker(w.queue);
    var step := Deliver(v, Process(m));
    GoesByStep(hash, w, step, job);
    w' := Stepped(w, step);
    DeliverPlays(w, v, Process(m), m);
    DeliverKeepsCopies(w.queue, v, Process(m), m);
    IdleMeansFree(w', v);
  }

  lemma TakeReturning(hash: Id -> int, w: World, job: Id, r: int) returns (w': World, v: int)
    requires Scene(hash, w, job) && r in ReturningOf(w.queue, OwnMessage(w.db.tables, job))
    ensures Takes(hash, w, job, w', v)
  {
    var m := OwnMessage(w.db.tables, job);
    SettleReturns(w.queue, r, m);
    GoesByStep(hash, w, Settle(r), job);
    var settled := Stepped(w, Settle(r));
    SettlePlays(w, r, m);
    w', v := TakeReady(hash, settled, job);
    GoesTwice(hash, w, settled, w', job, 0, 1);
    forall u ensures u == v || PartOf(w', m, u) == PartOf(w, m, u) {
      assert PartOf(settled, m, u) == PartOf(w, m, u);
      assert u == v || PartOf(w', m, u) == PartOf(settled, m, u);
    }
    assert PartOf(settled, m, v) == PartOf(w, m, v);
  }

  lemma TakingShifts(w: World, w': World, m: Message, v: int)
    requires OthersPlayOn(w, w', m, v) && PartOf(w, m, v) == Out && PartOf(w', m, v) == Undecided
    requires Queued(w'.queue, m) + 1 == Queued(w.queue, m)
    ensures TallyOf(w', m) == TallyOf(w, m)
  {
    TallyShifts(w, w', m, v);
  }

  lemma TakeCopy(hash: Id -> int, w: World, job: Id) returns (w': World, v: int)
    requires Scene(hash, w, job) && Queued(w.queue, OwnMessage(w.db.tables, job)) > 0
    ensures Takes(hash, w, job, w', v)
            && TallyOf(w', OwnMessage(w.db.tables, job)) == TallyOf(w, OwnMessage(w.db.tables, job))
  {
    var m := OwnMessage(w.db.tables, job);
    if Process(m) in w.queue.ready {
      w', v := TakeReady(hash, w, job);
    } else {
      w', v := TakeReturning(hash, w, job, AnyOf(ReturningOf(w.queue, m)));
    }
    TakingShifts(w, w', m, v);
  }

  // ----- One attempt used up, its copy requeued -----

  /** Some connected worker that can fail, if need be after a delivery, and the job's row free for it. */
  lemma SomeConnected(hash: Id -> int, w: World, job: Id) returns (w': World, v: int, d: nat)
    requires Scene(hash, w, job)
    requires var m := OwnMessage(w.db.tables, job);
             var t := TallyOf(w, m);
             t.able + t.failing > 0 && t.blocking == 0 && t.looseWritten == 0
    ensures var m := OwnMessage(w.db.tables, job);
            && Goes(hash, w, w', job, d) && Holds(w', m, v) && RoleOf(w', v) in {Undecided, Failing}
            && (HasWritten(w', v) || !JobRowTaken(w'.db, Worker(v), job))
            && TallyOf(w', m) == TallyOf(w, m) && d + Queued(w'.queue, m) == Queued(w.queue, m)
  {
    var m := OwnMessage(w.db.tables, job);
    GoesNowhere(hash, w, job);
    if u :| u in w.queue.workers && Holds(w, m, u) && HasWritten(w, u) {
      HolderRuns(hash, w, u, job);
      assert RoleOf(w, u) == LooseWritten ==> u in Cast(w, m, LooseWritten);
      w', v, d := w, u, 0;
    } else if Cast(w, m, Failing) != {} {
      w', v, d := w, AnyOf(Cast(w, m, Failing)), 0;
      RowIsFree(hash, w, job, Worker(v));
    } else if Cast(w, m, Undecided) != {} {
      w', v, d := w, AnyOf(Cast(w, m, Undecided)), 0;
      RowIsFree(hash, w, job, Worker(v));
    } else {
      w', v := TakeCopy(hash, w, job);
      d := 1;
      RowIsFree(hash, w, job, Worker(v));
    }
  }

  lemma BurnKeepsExceeding(t: Tally, t': Tally, from: Role, credit: nat)
    requires Exceeds(t, credit) && credit > 0 && from in {Undecided, Failing} && Shifts(t, t', from, Out, 1)
    requires from == Undecided ==> t.able > 0
    ensures Exceeds(t', credit - 1)
  {
  }

  /** The failure is committed: a connected worker's copy returns, or the job has failed. */
  lemma CommitShifts(hash: Id -> int, w: World, job: Id, v: int) returns (w': World)
    requires Scene(hash, w, job) && Holds(w, OwnMessage(w.db.tables, job), v) && HasWritten(w, v)
    requires w.queue.workers[v].stage.Recording? && w.queue.workers[v].owned && Credit(w.db.tables.jobs[job]) > 0
    ensures var m := OwnMessage(w.db.tables, job);
            && Leads(hash, w, w', m, 0) && Scene(hash, w', job) && OwnMessage(w'.db.tables, job) == m
            && Credit(w'.db.tables.jobs[job]) + 1 == Credit(w.db.tables.jobs[job])
            && Shifts(TallyOf(w, m), TallyOf(w', m), Failing, Out, 1) && Queued(w'.queue, m) == Queued(w.queue, m) + 1
  {
    var m, row := OwnMessage(w.db.tables, job), Failure(w.db, job);
    HolderRuns(hash, w, v, job);
    w' := CommitFailure(hash, w, job, v);
    RetryPlays(w, w', v, row, m);
    TallyShifts(w, w', m, v);
  }

  lemma ShiftsTwice(t: Tally, t1: Tally, t2: Tally, from: Role)
    requires Shifts(t, t1, from, Failing, 0) && Shifts(t1, t2, Failing, Out, 1)
    ensures Shifts(t, t2, from, Out, 1)
  {
  }

  /** A connected worker with an attempt to spare uses it up, and its copy returns. */
  ghost predicate Burns(hash: Id -> int, w: World, job: Id, w': World, d: nat)
    requires job in w.db.tables.jobs
  {
    var m := OwnMessage(w.db.tables, job);
    && Leads(hash, w, w', m, d) && Scene(hash, w', job) && OwnMessage(w'.db.tables, job) == m
    && Credit(w'.db.tables.jobs[job]) + 1 == Credit(w.db.tables.jobs[job])
    && Exceeds(TallyOf(w', m), Credit(w'.db.tables.jobs[job]))
    && d + Queued(w'.queue, m) == Queued(w.queue, m) + 1
  }

  lemma WrittenIsFailing(w: World, m: Message, v: int)
    requires Linked(w) && Holds(w, m, v) && w.queue.workers[v].stage.Recording? && w.queue.workers[v].owned
             && HasWritten(w, v)
    ensures RoleOf(w, v) == Failing
  {
  }

  lemma IsConnected(w: World, v: int)
    requires v in w.queue.workers && RoleOf(w, v) in {Undecided, Failing}
    ensures w.queue.workers[v].owned && !w.queue.workers[v].stage.Decided?
  {
  }

  /** A connected worker's failure, written. */
  lemma PrepareShifts(hash: Id -> int, w: World, job: Id, v: int) returns (w': World)
    requires Scene(hash, w, job) && Holds(w, OwnMessage(w.db.tables, job), v) && RoleOf(w, v) in {Undecided, Failing}
    requires HasWritten(w, v) || !JobRowTaken(w.db, Worker(v), job)
    ensures var m := OwnMessage(w.db.tables, job);
            && Goes(hash, w, w', job, 0) && Holds(w', m, v) && HasWritten(w', v)
            && w'.queue.workers[v].stage.Recording? && w'.queue.workers[v].owned
            && Queued(w'.queue, m) == Queued(w.queue, m)
            && Shifts(TallyOf(w, m), TallyOf(w', m), RoleOf(w, v), Failing, 0)
  {
    var m := OwnMessage(w.db.tables, job);
    IsConnected(w, v);
    w' := PrepareFailure(hash, w, job, v);
    assert w'.queue.workers[v].owned && w'.queue.workers[v].stage == Recording;
    WrittenIsFailing(w', m, v);
    StagedShifts(w, w', v, Recording, m);
  }

  lemma BurnWorker(hash: Id -> int, w: World, job: Id, v: int) returns (w': World)
    requires Scene(hash, w, job) && Credit(w.db.tables.jobs[job]) > 0
    requires Exceeds(TallyOf(w, OwnMessage(w.db.tables, job)), Credit(w.db.tables.jobs[job]))
    requires Holds(w, OwnMessage(w.db.tables, job), v) && RoleOf(w, v) in {Undecided, Failing}
    requires HasWritten(w, v) || !JobRowTaken(w.db, Worker(v), job)
    ensures Burns(hash, w, job, w', 0)
  {
    var m, credit, from := OwnMessage(w.db.tables, job), Credit(w.db.tables.jobs[job]), RoleOf(w, v);
    var written := PrepareShifts(hash, w, job, v);
    w' := CommitShifts(hash, written, job, v);
    ShiftsTwice(TallyOf(w, m), TallyOf(written, m), TallyOf(w', m), from);
    if from == Undecided {
      AbleIfUndecided(w, m, v);
    }
    BurnKeepsExceeding(TallyOf(w, m), TallyOf(w', m), from, credit);
    LeadsFurther(hash, w, written, w', m, 0, 0);
  }

  lemma AbleIfUndecided(w: World, m: Message, v: int)
    requires Holds(w, m, v) && RoleOf(w, v) == Undecided
    ensures TallyOf(w, m).able > 0
  {
    assert v in Cast(w, m, Undecided);
  }

  lemma BurnsLater(hash: Id -> int, w: World, w1: World, w2: World, job: Id, d: nat)
    requires job in w.db.tables.jobs && Goes(hash, w, w1, job, d) && Burns(hash, w1, job, w2, 0)
    requires var m := OwnMessage(w.db.tables, job); d + Queued(w1.queue, m) == Queued(w.queue, m)
    ensures Burns(hash, w, job, w2, d)
  {
    LeadsFurther(hash, w, w1, w2, OwnMessage(w.db.tables, job), d, 0);
  }

  /** While attempts are to spare, one more of them can be used up without loss. */
  lemma BurnOne(hash: Id -> int, w: World, job: Id) returns (w': World, d: nat)
    requires Scene(hash, w, job) && Credit(w.db.tables.jobs[job]) > 0
    requires Exceeds(TallyOf(w, OwnMessage(w.db.tables, job)), Credit(w.db.tables.jobs[job]))
    ensures Burns(hash, w, job, w', d)
  {
    var found, v;
    found, v, d := SomeConnected(hash, w, job);
    w' := BurnWorker(hash, found, job, v);
    BurnsLater(hash, w, found, w', job, d);
  }

  // ----- The item's advisory key -----

  ghost predicate KeyFree(hash: Id -> int, s: State, item: Id) {
    forall c :: c in s.open && HoldsAdvisory(s.open[c]) ==> hash(s.open[c].item) != hash(item)
  }

  /** For the message, the queue looks the same. */
  predicate SameFor(q: Queue, q': Queue, m: Message) {
    && q'.ready[Process(m)] == q.ready[Process(m)]
    && (forall v :: v in q.workers && q.workers[v].body == Process(m) ==>
          v in q'.workers && q'.workers[v] == q.workers[v])
    && (forall v :: v in q'.workers && q'.workers[v].body == Process(m) ==>
          v in q.workers && q'.workers[v] == q.workers[v])
  }

  lemma SameForCounts(q: Queue, q': Queue, m: Message)
    requires SameFor(q, q', m)
    ensures Queued(q', m) == Queued(q, m)
  {
    forall v ensures v in ReturningOf(q', m) <==> v in ReturningOf(q, m) {
    }
    assert ReturningOf(q', m) == ReturningOf(q, m);
  }

  /** Others came closer to their end, and nobody with the message has noticed. */
  ghost predicate Aside(hash: Id -> int, w: World, job: Id, w': World)
    requires job in w.db.tables.jobs
  {
    var m := OwnMessage(w.db.tables, job);
    Goes(hash, w, w', job, 0) && SameFor(w.queue, w'.queue, m) && forall u :: PartOf(w', m, u) == PartOf(w, m, u)
  }

  lemma AsideTwice(hash: Id -> int, w: World, job: Id, w1: World, w2: World)
    requires job in w.db.tables.jobs && Aside(hash, w, job, w1) && Aside(hash, w1, job, w2)
    ensures Aside(hash, w, job, w2)
  {
    GoesTwice(hash, w, w1, w2, job, 0, 0);
  }

  predicate IsForeign(q: Queue, c: Client, m: Message) {
    c.Worker? && c.worker in q.workers && q.workers[c.worker].body != Process(m)
  }

  lemma ForeignHearing(q: Queue, c: Client, reply: Reply, m: Message)
    requires IsForeign(q, c, m)
    ensures SameFor(q, Hear(q, c, reply), m)
  {
  }

  /** A worker with another message takes its next statement. */
  lemma ForeignRuns(hash: Id -> int, w: World, job: Id, c: Client) returns (w': World)
    requires Scene(hash, w, job) && c in w.db.open && !Statement(hash, w.db, c).Waits?
    requires IsForeign(w.queue, c, OwnMessage(w.db.tables, job))
    ensures w' == Ran(hash, w, c) && Aside(hash, w, job, w')
  {
    var m, outcome := OwnMessage(w.db.tables, job), Statement(hash, w.db, c);
    w' := Ran(hash, w, c);
    if outcome.Answers? {
      ForeignSpares(hash, w, job, c);
    }
    var reply := if outcome.Answers? then Heard(outcome.answer) else StoreError;
    ForeignHearing(w.queue, c, reply, m);
    GoesByRun(hash, w, c, job);
    ForeignPlays(w, w', c, reply, m);
  }

  /** A foreign completion on its way. */
  ghost predicate Underway(hash: Id -> int, w: World, job: Id, c: Client) {
    && Scene(hash, w, job) && c in w.db.open && IsCompletion(w.db.open[c])
    && IsForeign(w.queue, c, OwnMessage(w.db.tables, job))
  }

  /** Nothing was opened or moved but what c did itself. */
  ghost predicate OthersStay(s: State, s': State, c: Client) {
    forall e :: e in s'.open && e != c ==> e in s.open && s'.open[e] == s.open[e]
  }

  lemma Blocker(hash: Id -> int, w: World, job: Id, c: Client) returns (d: Client)
    requires Underway(hash, w, job, c) && Statement(hash, w.db, c).Waits?
    ensures w.db.open[c].CompleteItemDone? && d in w.db.open && d != c && w.db.open[d].FailureWritten?
    ensures w.db.open[d].job == w.db.open[c].job && IsForeign(w.queue, d, OwnMessage(w.db.tables, job))
  {
    CompletionConflicts(hash, w.db, c);
    d := WaitingHasReason(hash, w.db, c);
    assert Apart(hash, w.db.open[c], w.db.open[d]);
    assert Current(w.db.tables, w.db.next, w.db.open[c]) && Current(w.db.tables, w.db.next, w.db.open[d]);
    assert MayRun(w.queue, c, Purpose(w.db.open[c])) && MayRun(w.queue, d, Purpose(w.db.open[d]));
  }

  /** Whoever blocks a completion's job row is recording a failure of that job, and can finish. */
  lemma UnblockCompletion(hash: Id -> int, w: World, job: Id, c: Client) returns (w': World)
    requires Underway(hash, w, job, c) && Statement(hash, w.db, c).Waits?
    ensures Aside(hash, w, job, w') && Underway(hash, w', job, c) && OthersStay(w.db, w'.db, c)
    ensures w'.db.open[c] == w.db.open[c] && !Statement(hash, w'.db, c).Waits?
  {
    var d := Blocker(hash, w, job, c);
    w' := ForeignRuns(hash, w, job, d);
    RowIsFreed(hash, w.db, w'.db, c, d);
    FreeRowIsTaken(hash, w'.db, c);
  }

  lemma RowIsFreed(hash: Id -> int, s: State, s': State, c: Client, d: Client)
    requires Invariant(hash, s) && d in s.open && s.open[d].FailureWritten? && d !in s'.open && OthersStay(s, s', d)
    ensures !JobRowTaken(s', c, s.open[d].job)
  {
    forall e | e in s'.open ensures !HoldsJobRow(s'.open[e], s.open[d].job) {
      assert Apart(hash, s.open[d], s.open[e]) && HoldsJobRow(s.open[d], s.open[d].job);
    }
  }

  lemma FreeRowIsTaken(hash: Id -> int, s: State, c: Client)
    requires c in s.open && s.open[c].CompleteItemDone? && !JobRowTaken(s, c, s.open[c].job)
    ensures !Statement(hash, s, c).Waits?
  {
  }

  lemma CompletionStays(hash: Id -> int, s: State, c: Client)
    requires c in s.open && IsCompletion(s.open[c]) && Statement(hash, s, c).Proceeds?
    ensures IsCompletion(Statement(hash, s, c).tx)
  {
  }

  lemma AdvanceCompletion(hash: Id -> int, w: World, job: Id, c: Client) returns (w': World)
    requires Underway(hash, w, job, c) && Statement(hash, w.db, c).Proceeds?
    ensures Aside(hash, w, job, w') && Underway(hash, w', job, c) && OthersStay(w.db, w'.db, c)
    ensures Ahead(w'.db.open[c]) < Ahead(w.db.open[c])
  {
    StatementsRunOut(hash, w.db, c);
    CompletionStays(hash, w.db, c);
    w' := ForeignRuns(hash, w, job, c);
    assert w'.queue == w.queue && w'.db.open == w.db.open[c := Statement(hash, w.db, c).tx];
  }

  /** A foreign completion runs to its end and gives its key back. */
  lemma {:induction false} FinishCompletion(hash: Id -> int, w: World, job: Id, c: Client) returns (w': World)
    requires Underway(hash, w, job, c)
    ensures Aside(hash, w, job, w') && c !in w'.db.open && OthersStay(w.db, w'.db, c)
    decreases Ahead(w.db.open[c]), if Statement(hash, w.db, c).Waits? then 1 else 0
  {
    if Statement(hash, w.db, c).Waits? {
      var w1 := UnblockCompletion(hash, w, job, c);
      w' := FinishCompletion(hash, w1, job, c);
      AsideTwice(hash, w, job, w1, w');
    } else if Statement(hash, w.db, c).Proceeds? {
      var w1 := AdvanceCompletion(hash, w, job, c);
      w' := FinishCompletion(hash, w1, job, c);
      AsideTwice(hash, w, job, w1, w');
    } else {
      w' := ForeignRuns(hash, w, job, c);
    }
  }

  /** An acceptance that holds the key is given up: the API, not a worker, fails here. */
  lemma DropAcceptance(hash: Id -> int, w: World, job: Id, c: Client) returns (w': World)
    requires Scene(hash, w, job) && c in w.db.open && c.Api?
    ensures Aside(hash, w, job, w') && c !in w'.db.open && OthersStay(w.db, w'.db, c)
  {
    w' := w.(db := w.db.(open := w.db.open - {c}));
    GoesByMove(hash, w, OfDatabase(Drop(c), true), w', job);
    ForeignPlays(w, w', c, StoreError, OwnMessage(w.db.tables, job));
  }

  lemma OnlyHolderLeaves(hash: Id -> int, s: State, s': State, c: Client, item: Id)
    requires Invariant(hash, s) && c in s.open && HoldsAdvisory(s.open[c]) && hash(s.open[c].item) == hash(item)
    requires c !in s'.open && OthersStay(s, s', c)
    ensures KeyFree(hash, s', item)
  {
    forall e | e in s'.open && HoldsAdvisory(s'.open[e]) ensures hash(s'.open[e].item) != hash(item) {
      assert Apart(hash, s.open[c], s.open[e]);
    }
  }

  lemma KeyMeansClosing(hash: Id -> int, w: World, job: Id, v: int)
    requires Scene(hash, w, job) && Holds(w, OwnMessage(w.db.tables, job), v)
    requires Worker(v) in w.db.open && HoldsAdvisory(w.db.open[Worker(v)])
    ensures var m := OwnMessage(w.db.tables, job); v in Cast(w, m, Closing) || v in Cast(w, m, Blocking)
  {
    HolderRuns(hash, w, v, job);
  }

  /** Whoever has a key is a foreign completion, or an acceptance, if no completion of the job has the key. */
  lemma KeyHolder(hash: Id -> int, w: World, job: Id, c: Client)
    requires Scene(hash, w, job) && c in w.db.open && HoldsAdvisory(w.db.open[c])
    requires var m := OwnMessage(w.db.tables, job); Cast(w, m, Closing) == {} && Cast(w, m, Blocking) == {}
    ensures c.Api? || Underway(hash, w, job, c)
  {
    var m := OwnMessage(w.db.tables, job);
    assert MayRun(w.queue, c, Purpose(w.db.open[c]));
    if c.Worker? && Holds(w, m, c.worker) {
      KeyMeansClosing(hash, w, job, c.worker);
    }
  }

  /** Whoever holds the item's key, the job's own completions aside, can let go of it, and nobody takes it meanwhile. */
  lemma FreeKey(hash: Id -> int, w: World, job: Id) returns (w': World)
    requires Scene(hash, w, job)
    requires var m := OwnMessage(w.db.tables, job); Cast(w, m, Closing) == {} && Cast(w, m, Blocking) == {}
    ensures Aside(hash, w, job, w') && KeyFree(hash, w'.db, w.db.tables.jobs[job].item)
  {
    var m := OwnMessage(w.db.tables, job);
    if c :| c in w.db.open && HoldsAdvisory(w.db.open[c]) && hash(w.db.open[c].item) == hash(m.item) {
      KeyHolder(hash, w, job, c);
      if c.Api? {
        w' := DropAcceptance(hash, w, job, c);
      } else {
        w' := FinishCompletion(hash, w, job, c);
      }
      OnlyHolderLeaves(hash, w.db, w'.db, c, m.item);
    } else {
      GoesNowhere(hash, w, job);
      w' := w;
    }
  }

  // ----- The trap -----

  /** Worker x stands before the guarded update of the job. */
  predicate Stuck(w: World, x: int, m: Message) {
    && x in w.queue.workers && w.queue.workers[x] == Work(Process(m), Completing, true)
    && Worker(x) in w.db.open && w.db.open[Worker(x)].CompleteItemDone?
  }

  /** A completion of the job with the key, before its guarded update, takes its next statement. */
  lemma ClosingRuns(hash: Id -> int, w: World, job: Id, x: int) returns (w': World)
    requires Scene(hash, w, job) && Holds(w, OwnMessage(w.db.tables, job), x) && RoleOf(w, x) == Closing
    requires !w.db.open[Worker(x)].CompleteItemDone?
    ensures Goes(hash, w, w', job, 0) && Staged(w, w', x, Completing) && RoleOf(w', x) == Closing
    ensures Ahead(w'.db.open[Worker(x)]) < Ahead(w.db.open[Worker(x)])
  {
    var c := Worker(x);
    HolderRuns(hash, w, x, job);
    ClosingProceeds(hash, w, job, x);
    StatementsRunOut(hash, w.db, c);
    w' := Ran(hash, w, c);
    GoesByRun(hash, w, c, job);
    assert w.queue.workers == w.queue.workers[x := w.queue.workers[x].(stage := Completing)];
  }

  lemma ClosingProceeds(hash: Id -> int, w: World, job: Id, x: int)
    requires Scene(hash, w, job) && Holds(w, OwnMessage(w.db.tables, job), x) && RoleOf(w, x) == Closing
    requires !w.db.open[Worker(x)].CompleteItemDone?
    ensures Statement(hash, w.db, Worker(x)).Proceeds?
    ensures PastRead(Statement(hash, w.db, Worker(x)).tx)
  {
    HolderRuns(hash, w, x, job);
    if w.db.open[Worker(x)].CompleteInspected? || w.db.open[Worker(x)].CompleteResultAdded? {
      CompletionConflicts(hash, w.db, Worker(x));
    }
  }

  /** And walks on to its guarded update. */
  lemma {:induction false} WalkOn(hash: Id -> int, w: World, job: Id, x: int) returns (w': World)
    requires Scene(hash, w, job) && Holds(w, OwnMessage(w.db.tables, job), x) && RoleOf(w, x) == Closing
    ensures Goes(hash, w, w', job, 0) && Staged(w, w', x, Completing) && Stuck(w', x, OwnMessage(w.db.tables, job))
    decreases Ahead(w.db.open[Worker(x)])
  {
    if w.db.open[Worker(x)].CompleteItemDone? {
      GoesNowhere(hash, w, job);
      w' := w;
      assert w.queue.workers == w.queue.workers[x := w.queue.workers[x].(stage := Completing)];
    } else {
      var w1 := ClosingRuns(hash, w, job, x);
      w' := WalkOn(hash, w1, job, x);
      GoesTwice(hash, w, w1, w', job, 0, 0);
      StagedTwice(w, w1, w', x, Completing, Completing);
    }
  }

  /** A completion without the key has begun, or begins. */
  lemma BeginCompletion(hash: Id -> int, w: World, job: Id, x: int) returns (w': World)
    requires Scene(hash, w, job) && Holds(w, OwnMessage(w.db.tables, job), x) && RoleOf(w, x) == Succeeding
    requires KeyFree(hash, w.db, w.db.tables.jobs[job].item)
    ensures Goes(hash, w, w', job, 0) && Staged(w, w', x, Completing)
    ensures Worker(x) in w'.db.open && w'.db.open[Worker(x)] == CompleteBegun(job, w.db.tables.jobs[job].item)
    ensures KeyFree(hash, w'.db, w.db.tables.jobs[job].item)
  {
    var c, m := Worker(x), OwnMessage(w.db.tables, job);
    assert w.queue.workers == w.queue.workers[x := w.queue.workers[x].(stage := Completing)];
    if c in w.db.open {
      HolderRuns(hash, w, x, job);
      GoesNowhere(hash, w, job);
      w' := w;
    } else {
      GoesByBegin(hash, w, c, CompleteJob(m.job, m.item), job);
      w' := Began(w, c, CompleteJob(m.job, m.item));
      assert w'.db.open - {c} == w.db.open - {c};
    }
  }

  /** The key is granted. */
  lemma LockItem(hash: Id -> int, w: World, job: Id, x: int) returns (w': World)
    requires Scene(hash, w, job) && Holds(w, OwnMessage(w.db.tables, job), x)
    requires Worker(x) in w.db.open && w.db.open[Worker(x)] == CompleteBegun(job, w.db.tables.jobs[job].item)
    requires KeyFree(hash, w.db, w.db.tables.jobs[job].item)
    ensures Goes(hash, w, w', job, 0) && w'.queue == w.queue && w'.db.tables == w.db.tables && w'.killed == w.killed
    ensures w'.db.open == w.db.open[Worker(x) := CompleteLocked(job, w.db.tables.jobs[job].item)]
  {
    var c := Worker(x);
    assert !KeyTaken(hash, w.db, c);
    w' := Ran(hash, w, c);
    GoesByRun(hash, w, c, job);
  }

  lemma Restaged(w: World, w': World, v: int, stage: Stage)
    requires v in w.queue.workers && w.queue.workers[v].stage == stage && w'.queue == w.queue
    requires w'.db.tables == w.db.tables && w'.killed == w.killed && Worker(v) in w'.db.open
    requires w'.db.open == w.db.open[Worker(v) := w'.db.open[Worker(v)]]
    ensures Staged(w, w', v, stage)
  {
    assert w.queue.workers == w.queue.workers[v := w.queue.workers[v].(stage := stage)];
    assert w'.db.open - {Worker(v)} == w.db.open - {Worker(v)};
  }

  lemma LockedIsClosing(w: World, m: Message, x: int)
    requires Holds(w, m, x) && w.queue.workers[x].stage.Completing? && w.queue.workers[x].owned
             && Worker(x) !in w.killed
    requires Worker(x) in w.db.open && w.db.open[Worker(x)].CompleteLocked?
    ensures RoleOf(w, x) == Closing
  {
  }

  /** With the key free, a completion that has not begun, or has only just, takes it. */
  lemma TakeKey(hash: Id -> int, w: World, job: Id, x: int) returns (w': World)
    requires Scene(hash, w, job) && Holds(w, OwnMessage(w.db.tables, job), x) && RoleOf(w, x) == Succeeding
    requires KeyFree(hash, w.db, w.db.tables.jobs[job].item)
    ensures Goes(hash, w, w', job, 0) && Staged(w, w', x, Completing) && RoleOf(w', x) == Closing
  {
    var begun := BeginCompletion(hash, w, job, x);
    w' := LockItem(hash, begun, job, x);
    GoesTwice(hash, w, begun, w', job, 0, 0);
    Restaged(begun, w', x, Completing);
    StagedTwice(w, begun, w', x, Completing, Completing);
    LockedIsClosing(w', OwnMessage(w.db.tables, job), x);
  }

  /** The trap is set with worker x, and somebody is left who can fail. */
  ghost predicate Trapped(hash: Id -> int, w: World, job: Id, w': World, x: int, d: nat)
    requires job in w.db.tables.jobs
  {
    var m := OwnMessage(w.db.tables, job);
    && Goes(hash, w, w', job, d) && Stuck(w', x, m) && d + Queued(w'.queue, m) == Queued(w.queue, m)
    && TallyOf(w', m).blocking == 0 && Failers(TallyOf(w', m)) > 0
  }

  lemma StuckIsClosing(w: World, m: Message, x: int)
    requires Linked(w) && Stuck(w, x, m)
    ensures RoleOf(w, x) == Closing
  {
  }

  lemma WalkShifts(hash: Id -> int, w: World, job: Id, x: int) returns (w': World)
    requires Scene(hash, w, job) && Holds(w, OwnMessage(w.db.tables, job), x) && RoleOf(w, x) == Closing
    ensures var m := OwnMessage(w.db.tables, job);
            && Goes(hash, w, w', job, 0) && Stuck(w', x, m)
            && TallyOf(w', m) == TallyOf(w, m) && Queued(w'.queue, m) == Queued(w.queue, m)
  {
    var m := OwnMessage(w.db.tables, job);
    w' := WalkOn(hash, w, job, x);
    StagedShifts(w, w', x, Completing, m);
    StuckIsClosing(w', m, x);
  }

  lemma AsideShifts(hash: Id -> int, w: World, job: Id, w': World, x: int)
    requires Scene(hash, w, job) && Aside(hash, w, job, w') && Holds(w, OwnMessage(w.db.tables, job), x)
    ensures var m := OwnMessage(w.db.tables, job);
            && TallyOf(w', m) == TallyOf(w, m) && Queued(w'.queue, m) == Queued(w.queue, m)
            && Holds(w', m, x) && RoleOf(w', x) == RoleOf(w, x)
  {
    var m := OwnMessage(w.db.tables, job);
    SameForCounts(w.queue, w'.queue, m);
    TallyShifts(w, w', m, x);
    assert PartOf(w', m, x) == PartOf(w, m, x);
  }

  lemma NoneCloses(w: World, m: Message)
    requires TallyOf(w, m).closing == 0 && TallyOf(w, m).blocking == 0
    ensures Cast(w, m, Closing) == {} && Cast(w, m, Blocking) == {}
  {
  }

  lemma TakeKeyShifts(hash: Id -> int, w: World, job: Id, x: int) returns (w': World)
    requires Scene(hash, w, job) && Holds(w, OwnMessage(w.db.tables, job), x) && RoleOf(w, x) == Succeeding
    requires KeyFree(hash, w.db, w.db.tables.jobs[job].item)
    ensures var m := OwnMessage(w.db.tables, job);
            && Goes(hash, w, w', job, 0) && Holds(w', m, x) && RoleOf(w', x) == Closing
            && Queued(w'.queue, m) == Queued(w.queue, m)
            && Shifts(TallyOf(w, m), TallyOf(w', m), Succeeding, Closing, 0)
  {
    var m := OwnMessage(w.db.tables, job);
    w' := TakeKey(hash, w, job, x);
    StagedShifts(w, w', x, Completing, m);
  }

  /** From a processor that has succeeded to the key. */
  lemma FreeAndTake(hash: Id -> int, w: World, job: Id, x: int) returns (w': World)
    requires Scene(hash, w, job) && Holds(w, OwnMessage(w.db.tables, job), x) && RoleOf(w, x) == Succeeding
    requires var t := TallyOf(w, OwnMessage(w.db.tables, job)); t.closing == 0 && t.blocking == 0
    ensures var m := OwnMessage(w.db.tables, job);
            && Goes(hash, w, w', job, 0) && Holds(w', m, x) && RoleOf(w', x) == Closing
            && Queued(w'.queue, m) == Queued(w.queue, m)
            && Shifts(TallyOf(w, m), TallyOf(w', m), Succeeding, Closing, 0)
  {
    NoneCloses(w, OwnMessage(w.db.tables, job));
    var free := FreeKey(hash, w, job);
    AsideShifts(hash, w, job, free, x);
    w' := TakeKeyShifts(hash, free, job, x);
    GoesTwice(hash, w, free, w', job, 0, 0);
  }

  /** And on to the guarded update. */
  lemma SucceedingShifts(hash: Id -> int, w: World, job: Id, x: int) returns (w': World)
    requires Scene(hash, w, job) && Holds(w, OwnMessage(w.db.tables, job), x) && RoleOf(w, x) == Succeeding
    requires var t := TallyOf(w, OwnMessage(w.db.tables, job)); t.closing == 0 && t.blocking == 0
    ensures var m := OwnMessage(w.db.tables, job);
            && Goes(hash, w, w', job, 0) && Stuck(w', x, m) && Queued(w'.queue, m) == Queued(w.queue, m)
            && Shifts(TallyOf(w, m), TallyOf(w', m), Succeeding, Closing, 0)
  {
    var taken := FreeAndTake(hash, w, job, x);
    w' := WalkShifts(hash, taken, job, x);
    GoesTwice(hash, w, taken, w', job, 0, 0);
  }

  /** An undecided connected worker's processor succeeds. */
  lemma SucceedShifts(hash: Id -> int, w: World, job: Id, x: int) returns (w': World)
    requires Scene(hash, w, job) && Holds(w, OwnMessage(w.db.tables, job), x) && RoleOf(w, x) == Undecided
    ensures var m := OwnMessage(w.db.tables, job);
            && Goes(hash, w, w', job, 0) && Holds(w', m, x) && RoleOf(w', x) == Succeeding
            && Queued(w'.queue, m) == Queued(w.queue, m)
            && Shifts(TallyOf(w, m), TallyOf(w', m), Undecided, Succeeding, 0)
  {
    var m := OwnMessage(w.db.tables, job);
    w' := ToOutcome(hash, w, job, x, true);
    StagedShifts(w, w', x, Completing, m);
  }

  /** A connected undecided worker, if need be after a delivery. */
  lemma SomeUndecided(hash: Id -> int, w: World, job: Id) returns (w': World, v: int, d: nat)
    requires Scene(hash, w, job) && TallyOf(w, OwnMessage(w.db.tables, job)).able > 0
    ensures var m := OwnMessage(w.db.tables, job);
            && Goes(hash, w, w', job, d) && Holds(w', m, v) && RoleOf(w', v) == Undecided
            && TallyOf(w', m) == TallyOf(w, m) && d + Queued(w'.queue, m) == Queued(w.queue, m)
  {
    var m := OwnMessage(w.db.tables, job);
    if Cast(w, m, Undecided) != {} {
      GoesNowhere(hash, w, job);
      w', v, d := w, AnyOf(Cast(w, m, Undecided)), 0;
    } else {
      w', v := TakeCopy(hash, w, job);
      d := 1;
    }
  }

  lemma TrapWithClosing(hash: Id -> int, w: World, job: Id) returns (w': World, x: int)
    requires Scene(hash, w, job) && Cast(w, OwnMessage(w.db.tables, job), Closing) != {}
    requires var t := TallyOf(w, OwnMessage(w.db.tables, job)); t.blocking == 0 && Failers(t) > 0
    ensures Trapped(hash, w, job, w', x, 0)
  {
    x := AnyOf(Cast(w, OwnMessage(w.db.tables, job), Closing));
    w' := WalkShifts(hash, w, job, x);
  }

  lemma TrapWithSucceeding(hash: Id -> int, w: World, job: Id, x: int) returns (w': World)
    requires Scene(hash, w, job) && Holds(w, OwnMessage(w.db.tables, job), x) && RoleOf(w, x) == Succeeding
    requires var t := TallyOf(w, OwnMessage(w.db.tables, job)); t.closing == 0 && t.blocking == 0 && Failers(t) > 0
    ensures Trapped(hash, w, job, w', x, 0)
  {
    w' := SucceedingShifts(hash, w, job, x);
  }

  lemma AbleSucceeds(hash: Id -> int, w: World, job: Id) returns (w': World, x: int, d: nat)
    requires Scene(hash, w, job) && TallyOf(w, OwnMessage(w.db.tables, job)).able > 0
    ensures var m := OwnMessage(w.db.tables, job);
            && Goes(hash, w, w', job, d) && Holds(w', m, x) && RoleOf(w', x) == Succeeding
            && d + Queued(w'.queue, m) == Queued(w.queue, m)
            && Shifts(TallyOf(w, m), TallyOf(w', m), Undecided, Succeeding, 0)
  {
    var found;
    found, x, d := SomeUndecided(hash, w, job);
    w' := SucceedShifts(hash, found, job, x);
    GoesTwice(hash, w, found, w', job, d, 0);
  }

  lemma TrappedLater(hash: Id -> int, w: World, w1: World, w2: World, job: Id, x: int, d: nat)
    requires job in w.db.tables.jobs && Goes(hash, w, w1, job, d) && Trapped(hash, w1, job, w2, x, 0)
    requires var m := OwnMessage(w.db.tables, job); d + Queued(w1.queue, m) == Queued(w.queue, m)
    ensures Trapped(hash, w, job, w2, x, d)
  {
    GoesTwice(hash, w, w1, w2, job, d, 0);
  }

  lemma OneLessFails(t: Tally, t': Tally)
    requires Shifts(t, t', Undecided, Succeeding, 0)
    ensures t'.closing == t.closing && t'.blocking == t.blocking && Failers(t') + 1 == Failers(t)
  {
  }

  lemma TrapWithAble(hash: Id -> int, w: World, job: Id) returns (w': World, x: int, d: nat)
    requires Scene(hash, w, job)
    requires var t := TallyOf(w, OwnMessage(w.db.tables, job));
             t.closing == 0 && t.blocking == 0 && t.able > 0 && Failers(t) > 1
    ensures Trapped(hash, w, job, w', x, d)
  {
    var m := OwnMessage(w.db.tables, job);
    var succeeded;
    succeeded, x, d := AbleSucceeds(hash, w, job);
    OneLessFails(TallyOf(w, m), TallyOf(succeeded, m));
    w' := TrapWithSucceeding(hash, succeeded, job, x);
    TrappedLater(hash, w, succeeded, w', job, x, d);
  }

  /** The trap can be set wherever the bound can be exceeded and no attempt is left to spare. */
  lemma SetTrap(hash: Id -> int, w: World, job: Id) returns (w': World, x: int, d: nat)
    requires Scene(hash, w, job) && Exceeds(TallyOf(w, OwnMessage(w.db.tables, job)), 0)
    ensures Trapped(hash, w, job, w', x, d)
  {
    var m := OwnMessage(w.db.tables, job);
    var t := TallyOf(w, m);
    if t.closing > 0 {
      w', x := TrapWithClosing(hash, w, job);
      d := 0;
    } else if t.succeeding > 0 && Failers(t) > 0 {
      x := AnyOf(Cast(w, m, Succeeding));
      w' := TrapWithSucceeding(hash, w, job, x);
      d := 0;
    } else {
      w', x, d := TrapWithAble(hash, w, job);
    }
  }

  // ----- The last failure, and the clash -----

  /** Somebody who can fail, other than x, with the job's row free for him. */
  ghost predicate Offers(hash: Id -> int, w: World, job: Id, x: int, w': World, v: int, d: nat)
    requires job in w.db.tables.jobs
  {
    var m := OwnMessage(w.db.tables, job);
    && Goes(hash, w, w', job, d) && Stuck(w', x, m) && v != x && Holds(w', m, v) && CanFail(RoleOf(w', v))
    && (HasWritten(w', v) || !JobRowTaken(w'.db, Worker(v), job)) && d + Queued(w'.queue, m) == Queued(w.queue, m)
  }

  lemma WrittenOffers(hash: Id -> int, w: World, job: Id, x: int, v: int)
    requires Scene(hash, w, job) && Stuck(w, x, OwnMessage(w.db.tables, job))
    requires Holds(w, OwnMessage(w.db.tables, job), v) && HasWritten(w, v)
    ensures Offers(hash, w, job, x, w, v, 0)
  {
    GoesNowhere(hash, w, job);
    HolderRuns(hash, w, v, job);
    HolderRuns(hash, w, x, job);
  }

  lemma FailerOffers(hash: Id -> int, w: World, job: Id, x: int, v: int)
    requires Scene(hash, w, job) && Stuck(w, x, OwnMessage(w.db.tables, job))
    requires Holds(w, OwnMessage(w.db.tables, job), v) && CanFail(RoleOf(w, v)) && !JobRowTaken(w.db, Worker(v), job)
    ensures Offers(hash, w, job, x, w, v, 0)
  {
    GoesNowhere(hash, w, job);
    HolderRuns(hash, w, x, job);
  }

  lemma CopyOffers(hash: Id -> int, w: World, job: Id, x: int) returns (w': World, v: int)
    requires Scene(hash, w, job) && Stuck(w, x, OwnMessage(w.db.tables, job))
    requires var m := OwnMessage(w.db.tables, job);
             && Queued(w.queue, m) > 0 && Cast(w, m, Blocking) == {} && forall u :: Holds(w, m, u) ==> !HasWritten(w, u)
    ensures Offers(hash, w, job, x, w', v, 1)
  {
    var m := OwnMessage(w.db.tables, job);
    HolderRuns(hash, w, x, job);
    w', v := TakeCopy(hash, w, job);
    RowIsFree(hash, w, job, Worker(v));
    assert PartOf(w', m, x) == PartOf(w, m, x);
  }

  function AllFailers(w: World, m: Message): set<int> {
    Cast(w, m, Undecided) + Cast(w, m, Failing) + Cast(w, m, Loose) + Cast(w, m, LooseWritten)
  }

  /** Nobody has written a failure yet. */
  lemma UnwrittenFailer(hash: Id -> int, w: World, job: Id, x: int) returns (w': World, v: int, d: nat)
    requires Scene(hash, w, job) && Stuck(w, x, OwnMessage(w.db.tables, job))
    requires var m := OwnMessage(w.db.tables, job);
             && Cast(w, m, Blocking) == {} && (forall u :: Holds(w, m, u) ==> !HasWritten(w, u))
             && (AllFailers(w, m) != {} || Queued(w.queue, m) > 0)
    ensures Offers(hash, w, job, x, w', v, d)
  {
    var m := OwnMessage(w.db.tables, job);
    if AllFailers(w, m) != {} {
      v := AnyOf(AllFailers(w, m));
      RowIsFree(hash, w, job, Worker(v));
      FailerOffers(hash, w, job, x, v);
      w', d := w, 0;
    } else {
      w', v := CopyOffers(hash, w, job, x);
      d := 1;
    }
  }

  lemma SomeFailer(hash: Id -> int, w: World, job: Id, x: int) returns (w': World, v: int, d: nat)
    requires Scene(hash, w, job) && Stuck(w, x, OwnMessage(w.db.tables, job))
    requires var t := TallyOf(w, OwnMessage(w.db.tables, job)); t.blocking == 0 && Failers(t) > 0
    ensures Offers(hash, w, job, x, w', v, d)
  {
    var m := OwnMessage(w.db.tables, job);
    if u :| u in w.queue.workers && Holds(w, m, u) && HasWritten(w, u) {
      WrittenOffers(hash, w, job, x, u);
      w', v, d := w, u, 0;
    } else {
      EmptyCasts(w, m);
      w', v, d := UnwrittenFailer(hash, w, job, x);
    }
  }

  lemma EmptyCasts(w: World, m: Message)
    ensures AllFailers(w, m) == {} ==> Failers(TallyOf(w, m)) == Queued(w.queue, m)
    ensures TallyOf(w, m).blocking == 0 ==> Cast(w, m, Blocking) == {}
  {
    assert Cast(w, m, Undecided) <= AllFailers(w, m) && Cast(w, m, Failing) <= AllFailers(w, m);
    assert Cast(w, m, Loose) <= AllFailers(w, m) && Cast(w, m, LooseWritten) <= AllFailers(w, m);
  }

  lemma StagedKeepsStuck(w: World, w': World, v: int, stage: Stage, x: int, m: Message)
    requires v in w.queue.workers && Staged(w, w', v, stage) && v != x && Stuck(w, x, m)
    ensures Stuck(w', x, m)
  {
    assert Worker(x) in w.db.open - {Worker(v)};
    assert (w.db.open - {Worker(v)})[Worker(x)] == w.db.open[Worker(x)];
    assert Worker(x) in w'.db.open - {Worker(v)};
    assert (w'.db.open - {Worker(v)})[Worker(x)] == w'.db.open[Worker(x)];
  }

  /** The job has failed, and worker x is still before its update. */
  ghost predicate Doomed(hash: Id -> int, w: World, job: Id, w': World, x: int, d: nat)
    requires job in w.db.tables.jobs
  {
    var m := OwnMessage(w.db.tables, job);
    && Leads(hash, w, w', m, d) && Lawful(hash, w') && HasJob(w'.db.tables, job, Failed)
    && OwnMessage(w'.db.tables, job) == m && Stuck(w', x, m) && d + Queued(w'.queue, m) == Queued(w.queue, m)
  }

  lemma DoomedLater(hash: Id -> int, w: World, w1: World, w2: World, job: Id, x: int, d: nat)
    requires job in w.db.tables.jobs && Goes(hash, w, w1, job, d) && Doomed(hash, w1, job, w2, x, 0)
    requires var m := OwnMessage(w.db.tables, job); d + Queued(w1.queue, m) == Queued(w.queue, m)
    ensures Doomed(hash, w, job, w2, x, d)
  {
    LeadsFurther(hash, w, w1, w2, OwnMessage(w.db.tables, job), d, 0);
  }

  /** He uses up the last attempt. */
  lemma LastFailure(hash: Id -> int, w: World, job: Id, x: int, v: int) returns (w': World)
    requires Scene(hash, w, job) && Stuck(w, x, OwnMessage(w.db.tables, job)) && v != x
    requires Credit(w.db.tables.jobs[job]) == 0
    requires Holds(w, OwnMessage(w.db.tables, job), v) && CanFail(RoleOf(w, v))
    requires HasWritten(w, v) || !JobRowTaken(w.db, Worker(v), job)
    ensures Doomed(hash, w, job, w', x, 0)
  {
    var m := OwnMessage(w.db.tables, job);
    var written := PrepareFailure(hash, w, job, v);
    StagedAlone(w, written, v, Recording, m);
    StagedKeepsStuck(w, written, v, Recording, x, m);
    w' := LastCommit(hash, written, job, x, v);
    DoomedLater(hash, w, written, w', job, x, 0);
  }

  lemma OthersStuck(w: World, w': World, v: int, x: int, m: Message)
    requires Stuck(w, x, m) && v != x && x in w'.queue.workers && w'.queue.workers[x] == w.queue.workers[x]
    requires w'.db.open == w.db.open - {Worker(v)}
    ensures Stuck(w', x, m)
  {
  }

  /** The last failure is heard: its copy does not return. */
  lemma LastHeard(hash: Id -> int, w: World, w': World, job: Id, v: int)
    requires Scene(hash, w, job) && Holds(w, OwnMessage(w.db.tables, job), v) && HasWritten(w, v)
    requires w.queue.workers[v].stage.Recording? && Heeds(w, w', v, Exhausted(Failure(w.db, job)))
    ensures Queued(w'.queue, OwnMessage(w.db.tables, job)) == Queued(w.queue, OwnMessage(w.db.tables, job))
    ensures w'.queue.workers.Keys == w.queue.workers.Keys
    ensures forall u :: u in w.queue.workers && u != v ==> w'.queue.workers[u] == w.queue.workers[u]
  {
    var m := OwnMessage(w.db.tables, job);
    HolderRuns(hash, w, v, job);
    HeedsAlone(w, w', v, Exhausted(Failure(w.db, job)), m);
    StagesKeepQueued(w.queue, w'.queue, m, v);
  }

  lemma LastCommit(hash: Id -> int, w: World, job: Id, x: int, v: int) returns (w': World)
    requires Scene(hash, w, job) && Stuck(w, x, OwnMessage(w.db.tables, job)) && v != x
    requires Credit(w.db.tables.jobs[job]) == 0 && Holds(w, OwnMessage(w.db.tables, job), v) && HasWritten(w, v)
    requires w.queue.workers[v].stage.Recording?
    ensures Doomed(hash, w, job, w', x, 0)
  {
    var m := OwnMessage(w.db.tables, job);
    AcceptedHasAttempts(hash, w, job);
    w' := CommitFailure(hash, w, job, v);
    LastHeard(hash, w, w', job, v);
    OthersStuck(w, w', v, x, m);
  }

  /** The trapped completion finds its job failed, and its copy returns for nothing. */
  lemma Collide(hash: Id -> int, w: World, job: Id, x: int) returns (w': World)
    requires Lawful(hash, w) && HasJob(w.db.tables, job, Failed) && Stuck(w, x, OwnMessage(w.db.tables, job))
    ensures var m := OwnMessage(w.db.tables, job);
            Leads(hash, w, w', m, 0) && Queued(w'.queue, m) == Queued(w.queue, m) + 1
  {
    var c, m := Worker(x), OwnMessage(w.db.tables, job);
    CompletionConflicts(hash, w.db, c);
    assert MayRun(w.queue, c, Purpose(w.db.open[c]));
    LeadsNowhere(hash, w, m);
    LeadsByRun(hash, w, w, c, m, 0);
    w' := Ran(hash, w, c);
    assert w'.queue == w.queue.(workers := w.queue.workers[x := Work(Process(m), Decided(NackRequeue), true)]);
    assert ReturningOf(w'.queue, m) == ReturningOf(w.queue, m) + {x};
  }

  lemma OffersLater(hash: Id -> int, w: World, w1: World, w2: World, job: Id, x: int, v: int, d: nat, e: nat)
    requires job in w.db.tables.jobs && Trapped(hash, w, job, w1, x, d) && Offers(hash, w1, job, x, w2, v, e)
    ensures Offers(hash, w, job, x, w2, v, d + e)
  {
    GoesTwice(hash, w, w1, w2, job, d, e);
  }

  /** The trap is set, and somebody is there to use up the last attempt. */
  lemma TrapAndOffer(hash: Id -> int, w: World, job: Id) returns (w': World, x: int, v: int, d: nat)
    requires Scene(hash, w, job) && Exceeds(TallyOf(w, OwnMessage(w.db.tables, job)), 0)
    ensures Offers(hash, w, job, x, w', v, d)
  {
    var trapped, first;
    trapped, x, first := SetTrap(hash, w, job);
    var second;
    w', v, second := SomeFailer(hash, trapped, job, x);
    OffersLater(hash, w, trapped, w', job, x, v, first, second);
    d := first + second;
  }

  /** The trap is set, and the last attempt is used up. */
  lemma TrapAndFail(hash: Id -> int, w: World, job: Id) returns (w': World, x: int, d: nat)
    requires Scene(hash, w, job) && Credit(w.db.tables.jobs[job]) == 0
    requires Exceeds(TallyOf(w, OwnMessage(w.db.tables, job)), 0)
    ensures Doomed(hash, w, job, w', x, d)
  {
    var offered, v;
    offered, x, v, d := TrapAndOffer(hash, w, job);
    w' := LastFailure(hash, offered, job, x, v);
    DoomedLater(hash, w, offered, w', job, x, d);
  }

  /** The clash, and every copy delivered. */
  lemma DoomedExceeds(hash: Id -> int, w: World, failed: World, job: Id, x: int, d: nat) returns (w': World)
    requires job in w.db.tables.jobs && Doomed(hash, w, job, failed, x, d)
    ensures var m := OwnMessage(w.db.tables, job); Leads(hash, w, w', m, Queued(w.queue, m) + 1)
  {
    var m := OwnMessage(w.db.tables, job);
    var requeued := Collide(hash, failed, job, x);
    LeadsFurther(hash, w, failed, requeued, m, d, 0);
    w' := Flush(hash, requeued, m);
    LeadsFurther(hash, w, requeued, w', m, d, Queued(requeued.queue, m));
  }

  /** With no attempt to spare: the trap, the last failure, the clash, and every copy delivered. */
  lemma ClashExceeds(hash: Id -> int, w: World, job: Id) returns (w': World)
    requires Scene(hash, w, job) && Credit(w.db.tables.jobs[job]) == 0
    requires Exceeds(TallyOf(w, OwnMessage(w.db.tables, job)), 0)
    ensures Leads(hash, w, w', OwnMessage(w.db.tables, job), Promise(w, job) + 1)
  {
    var failed, x, d := TrapAndFail(hash, w, job);
    w' := DoomedExceeds(hash, w, failed, job, x, d);
  }

  /** Wherever two deliveries can get into each other's way, one more than promised can happen. */
  lemma {:induction false} CollisionExceeds(hash: Id -> int, w: World, job: Id) returns (w': World)
    requires Scene(hash, w, job)
    requires Exceeds(TallyOf(w, OwnMessage(w.db.tables, job)), Credit(w.db.tables.jobs[job]))
    ensures Leads(hash, w, w', OwnMessage(w.db.tables, job), Promise(w, job) + 1)
    decreases Credit(w.db.tables.jobs[job])
  {
    if Credit(w.db.tables.jobs[job]) == 0 {
      w' := ClashExceeds(hash, w, job);
    } else {
      var m := OwnMessage(w.db.tables, job);
      var burnt, d := BurnOne(hash, w, job);
      w' := CollisionExceeds(hash, burnt, job);
      LeadsFurther(hash, w, burnt, w', m, d, Promise(burnt, job) + 1);
    }
  }

  // ----- The exact condition -----

  /** No calm course from here delivers the job's message more often than its queued copies and attempts promise. */
  ghost predicate PromiseHolds(hash: Id -> int, w: World, job: Id)
    requires job in w.db.tables.jobs
  {
    forall worlds, moves :: Course(hash, worlds, moves) && Calm(hash, worlds, moves) && worlds[0] == w ==>
      DeliveriesOf(moves, OwnMessage(w.db.tables, job)) <= Promise(w, job)
  }

  /** Exactly when (2 - attempt_count) bounds the redeliveries of an accepted job, whatever the workers are about: the
      bound holds in every calm continuation if and only if no two deliveries of the message, nor a delivery and a
      queued copy, can get into each other's way. Set aside is only a lookup about to find accepted what its update
      has missed, which NoRestoreMissesNone leaves to histories with a restore. */
  lemma {:induction false} PromiseIsExact(hash: Id -> int, w: World, job: Id)
    requires Reachable(hash, w) && HasJob(w.db.tables, job, Accepted) && NoneMissed(w.db, job)
    ensures PromiseHolds(hash, w, job) <==>
              !Exceeds(TallyOf(w, OwnMessage(w.db.tables, job)), Credit(w.db.tables.jobs[job]))
  {
    var m := OwnMessage(w.db.tables, job);
    ReachableIsLawful(hash, w);
    if Exceeds(TallyOf(w, m), Credit(w.db.tables.jobs[job])) {
      var w' := CollisionExceeds(hash, w, job);
    } else {
      forall worlds, moves | Course(hash, worlds, moves) && Calm(hash, worlds, moves) && worlds[0] == w
        ensures DeliveriesOf(moves, m) <= Promise(w, job)
      {
        ProspectBounds(hash, worlds, moves, job);
      }
    }
  }

  /** In every world of every history without a restore, exactly. */
  lemma {:induction false} PromiseIsExactUnrestored(
    hash: Id -> int, worlds: seq<World>, moves: seq<Move>, k: nat, job: Id)
    requires Chronicle(hash, worlds, moves) && NoRestore(moves) && k < |worlds|
    requires HasJob(worlds[k].db.tables, job, Accepted)
    ensures var w := worlds[k];
            PromiseHolds(hash, w, job) <==>
              !Exceeds(TallyOf(w, OwnMessage(w.db.tables, job)), Credit(w.db.tables.jobs[job]))
  {
    NoRestoreMissesNone(hash, worlds, moves, k);
    CoursePrefix(hash, worlds, moves, k);
    assert worlds[..k + 1][|moves[..k]|] == worlds[k] && Chronicle(hash, worlds[..k + 1], moves[..k]);
    PromiseIsExact(hash, worlds[k], job);
  }
}
