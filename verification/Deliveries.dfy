/** What pays for a delivery: a queued copy, a job's remaining attempts, or a fault. */
module Deliveries {
  import opened Records
  import opened AtomicStore
  import opened SuccessInvariant
  import opened Settlement
  import opened Statements
  import opened Broker
  import opened Delivery
  import opened Sets

  /** Requeues an accepted job still has before its next failure is terminal. */
  function Credit(row: Job): nat {
    if row.state == Accepted && row.attempts + 1 < MAX_ATTEMPTS then MAX_ATTEMPTS - 1 - row.attempts else 0
  }

  /** Attempts an accepted job still has. */
  function AttemptsLeft(row: Job): nat {
    if row.state == Accepted && row.attempts < MAX_ATTEMPTS then MAX_ATTEMPTS - row.attempts else 0
  }

  /** What all jobs are worth together. */
  ghost function Total(jobs: map<Id, Job>, worth: Job -> nat): nat
    decreases |jobs|
  {
    if jobs.Keys == {} then 0
    else
      var job := AnyOf(jobs.Keys);
      worth(jobs[job]) + Total(jobs - {job}, worth)
  }

  ghost function Budget(jobs: map<Id, Job>): nat {
    Total(jobs, Credit)
  }

  lemma {:induction false} TotalWithout(jobs: map<Id, Job>, worth: Job -> nat, job: Id)
    requires job in jobs
    ensures Total(jobs, worth) == worth(jobs[job]) + Total(jobs - {job}, worth)
    decreases |jobs|
  {
    var first := AnyOf(jobs.Keys);
    if first != job {
      TotalWithout(jobs - {first}, worth, job);
      TotalWithout(jobs - {job}, worth, first);
      assert jobs - {first} - {job} == jobs - {job} - {first};
    }
  }

  lemma TotalUpdate(jobs: map<Id, Job>, worth: Job -> nat, job: Id, row: Job)
    ensures job in jobs ==> Total(jobs[job := row], worth) + worth(jobs[job]) == Total(jobs, worth) + worth(row)
    ensures job !in jobs ==> Total(jobs[job := row], worth) == Total(jobs, worth) + worth(row)
  {
    TotalWithout(jobs[job := row], worth, job);
    if job in jobs {
      TotalWithout(jobs, worth, job);
      assert jobs[job := row] - {job} == jobs - {job};
    } else {
      assert jobs[job := row] - {job} == jobs;
    }
  }

  predicate IsReturning(work: Work) {
    work.owned && work.stage == Decided(NackRequeue)
  }

  /** Workers about to requeue their copy. */
  function Returning(q: Queue): set<int> {
    set w | w in q.workers && IsReturning(q.workers[w])
  }

  ghost function Potential(s: System): nat {
    |s.queue.ready| + |Returning(s.queue)| + Budget(s.tables.jobs)
  }

  /** What an event adds from outside: new copies, new jobs, and faults. A refusal heard by a worker is a fault,
      also when it is a completion that lost its job to a concurrent failure. */
  function Supply(q: Queue, event: Event): nat {
    match event
    case Local(Land(_)) => 1
    case Local(LateLand(_, _)) => 1
    case Local(Inject(_)) => 1
    case Local(Disconnect(_)) => 1
    case Local(Crash(_)) => 1
    case Refuse(c) => if c.Worker? then 1 else 0
    case Execute(c, e, heard) =>
      (if e.answer.JobAccepted? then MAX_ATTEMPTS - 1 else 0) + (if c.Worker? && !heard then 1 else 0)
    case _ => 0
  }

  function Deliveries(events: seq<Event>): nat {
    if events == [] then 0
    else Deliveries(events[..|events| - 1]) + (if IsDelivery(events[|events| - 1]) then 1 else 0)
  }

  predicate IsDelivery(event: Event) {
    event.Local? && event.step.Deliver?
  }

  function Supplies(states: seq<System>, events: seq<Event>): nat
    requires |states| == |events| + 1
  {
    if events == [] then 0
    else
      var n := |events| - 1;
      Supplies(states[..n + 1], events[..n]) + Supply(states[n].queue, events[n])
  }

  /** A worker that ends its delivery gives back at most what it was returning. */
  lemma EndingIsPaid(q: Queue, step: Step)
    requires Enabled(q, step) && (step.Settle? || step.Disconnect? || step.Crash?)
    ensures |Apply(q, step).ready| + |Returning(Apply(q, step))|
         <= |q.ready| + |Returning(q)| + (if step.Settle? then 0 else 1)
  {
    var w := step.worker;
    var q' := Apply(q, step);
    assert Returning(q') == Returning(q) - {w};
    if w in Returning(q) {
      assert |Returning(q')| == |Returning(q)| - 1;
    }
  }

  lemma LocalIsPaid(s: System, step: Step)
    requires Enabled(s.queue, step)
    ensures Potential(s.(queue := Apply(s.queue, step))) + (if step.Deliver? then 1 else 0)
         <= Potential(s) + Supply(s.queue, Local(step))
  {
    if step.Settle? || step.Disconnect? || step.Crash? {
      EndingIsPaid(s.queue, step);
    } else {
      assert Returning(Apply(s.queue, step)) == Returning(s.queue);
    }
  }

  /** What an operation does to the worth of all jobs: nothing, or it changes one row. */
  lemma EffectOnTotal(t: Tables, e: Entry, worth: Job -> nat)
    requires Allowed(t, e)
    ensures var before, after := Total(t.jobs, worth), Total(Effect(t, e).jobs, worth);
            match (e.op, e.answer)
            case (AcceptJob(item), JobAccepted(_, _)) => after == before + worth(NewJob(item))
            case (CompleteJob(job, _), CompletedNow(record)) => after + worth(t.jobs[job]) == before + worth(record)
            case (RecordFailure(job, _, _, _), Retryable(record)) =>
              after + worth(t.jobs[job]) == before + worth(record)
            case (RecordFailure(job, _, _, _), Exhausted(record)) =>
              after + worth(t.jobs[job]) == before + worth(record)
            case _ => after == before
  {
    match (e.op, e.answer)
    case (AcceptJob(item), JobAccepted(job, _)) => TotalUpdate(t.jobs, worth, job, NewJob(item));
    case (CompleteJob(job, _), CompletedNow(record)) => TotalUpdate(t.jobs, worth, job, record);
    case (RecordFailure(job, _, _, _), Retryable(record)) => TotalUpdate(t.jobs, worth, job, record);
    case (RecordFailure(job, _, _, _), Exhausted(record)) => TotalUpdate(t.jobs, worth, job, record);
    case _ =>
  }

  /** Tables change the budget only by a spent attempt, an ended job or a new one. */
  lemma EffectOnBudget(t: Tables, e: Entry)
    requires Allowed(t, e)
    ensures Budget(Effect(t, e).jobs) <= Budget(t.jobs) + (if e.answer.JobAccepted? then MAX_ATTEMPTS - 1 else 0)
    ensures e.op.RecordFailure? && e.op.limit == MAX_ATTEMPTS && e.answer.Retryable? ==>
              Budget(Effect(t, e).jobs) + 1 == Budget(t.jobs)
  {
    EffectOnTotal(t, e, Credit);
  }

  /** A counted failure or completion spends one of the job's attempts; only an acceptance adds any. */
  lemma EffectOnAttempts(t: Tables, e: Entry)
    requires Allowed(t, e)
    ensures Total(Effect(t, e).jobs, AttemptsLeft) <= Total(t.jobs, AttemptsLeft)
            + (if e.answer.JobAccepted? then MAX_ATTEMPTS else 0)
    ensures e.op.RecordFailure? && e.op.limit == MAX_ATTEMPTS && (e.answer.Retryable? || e.answer.Exhausted?)
              && t.jobs[e.op.job].attempts < MAX_ATTEMPTS ==>
              Total(Effect(t, e).jobs, AttemptsLeft) + 1 <= Total(t.jobs, AttemptsLeft)
  {
    EffectOnTotal(t, e, AttemptsLeft);
  }

  lemma HearReturns(q: Queue, c: Client, reply: Reply)
    ensures Hear(q, c, reply).ready == q.ready
    ensures |Returning(Hear(q, c, reply))| <= |Returning(q)| + (if Returns(q, c, reply) then 1 else 0)
  {
    var q' := Hear(q, c, reply);
    if c.Worker? && Awaited(q, c).Some? && c.worker in Returning(q') {
      assert Returning(q') == Returning(q) + {c.worker};
    } else {
      assert Returning(q') == Returning(q);
    }
  }

  predicate Returns(q: Queue, c: Client, reply: Reply) {
    c.Worker? && Awaited(q, c).Some? && NextStage(q.workers[c.worker].stage, reply) == Decided(NackRequeue)
  }

  /** An answer makes a worker requeue only if it is a retryable failure. */
  lemma RequeueMeansRetry(s: System, c: Client, e: Entry)
    requires Sound(s.tables) && MayRun(s.queue, c, e.op) && Allowed(s.tables, e)
    requires Returns(s.queue, c, Heard(e.answer))
    ensures e.op.RecordFailure? && e.op.limit == MAX_ATTEMPTS && e.answer.Retryable?
  {
    if e.op.CompleteJob? && HasJob(s.tables, e.op.job, Accepted) {
      AcceptedMeansPending(s.tables, e.op.job);
    }
  }

  lemma EventIsPaid(s: System, event: Event, s': System)
    requires Sound(s.tables) && Moves(s, event, s') && !event.Rewind?
    ensures Potential(s') + (if IsDelivery(event) then 1 else 0) <= Potential(s) + Supply(s.queue, event)
  {
    match event
    case Local(step) => LocalIsPaid(s, step);
    case Refuse(c) => HearReturns(s.queue, c, StoreError);
    case Execute(c, e, heard) =>
      var reply := if heard then Heard(e.answer) else StoreError;
      HearReturns(s.queue, c, reply);
      EffectOnBudget(s.tables, e);
      if heard && Returns(s.queue, c, reply) {
        RequeueMeansRetry(s, c, e);
      }
  }

  /** Over any run without a restore, with any number of workers and any processor: deliveries never exceed the copies
      queued at the start, plus the attempts accepted jobs had left, plus what arrived or went wrong on the way. */
  lemma {:induction false} DeliveriesArePaid(states: seq<System>, events: seq<Event>)
    requires Path(states, events) && NoRewind(events) && Sound(states[0].tables)
    ensures Sound(states[|events|].tables)
    ensures Deliveries(events) + Potential(states[|events|]) <= Potential(states[0]) + Supplies(states, events)
    decreases |events|
  {
    if events != [] {
      var n := |events| - 1;
      var states', events' := states[..n + 1], events[..n];
      forall k | 0 <= k < n ensures Moves(states'[k], events'[k], states'[k + 1]) && !events'[k].Rewind? {
        assert Moves(states[k], events[k], states[k + 1]);
      }
      DeliveriesArePaid(states', events');
      EventIsPaid(states[n], events[n], states[n + 1]);
      if events[n].Execute? {
        EffectKeepsSound(states[n].tables, events[n].entry);
      }
    }
  }
}
