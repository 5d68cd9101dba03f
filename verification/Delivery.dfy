/** Database, broker, publishers and workers together, the store taking whole operations at a time. */
module Delivery {
  import opened Option
  import opened Records
  import opened AtomicStore
  import opened SuccessInvariant
  import opened History
  import opened Settlement
  import opened Statements
  import opened Broker

  datatype System = System(tables: Tables, queue: Queue)

  const INITIAL := System(EMPTY, EMPTY_QUEUE)

  datatype Event =
    | Local(step: Step)
    | Execute(client: Client, entry: Entry, heard: bool)  // heard == false: it took effect, the caller saw an error
    | Refuse(client: Client)                              // it took no effect, the caller saw an error
    | Rewind(tables: Tables)                              // a backup is restored, the broker and all clients go on

  /** What the API does to the store on behalf of a request. */
  predicate IsRequest(op: Operation) {
    op.CreateItem? || op.AcceptJob? || op.InspectJob?
  }

  /** Workers and publishers run what they wait for, API requests what they are there for. */
  predicate MayRun(q: Queue, c: Client, op: Operation) {
    if c.Api? then IsRequest(op) else Awaited(q, c) == Some(op)
  }

  ghost predicate Moves(s: System, event: Event, s': System) {
    match event
    case Local(step) => Enabled(s.queue, step) && s' == s.(queue := Apply(s.queue, step))
    case Execute(c, e, heard) =>
      && MayRun(s.queue, c, e.op) && Allowed(s.tables, e)
      && s' == System(Effect(s.tables, e), Hear(s.queue, c, if heard then Heard(e.answer) else StoreError))
    case Refuse(c) => s' == s.(queue := Hear(s.queue, c, StoreError))
    case Rewind(tables) => Sound(tables) && s' == s.(tables := tables)
  }

  ghost predicate Path(states: seq<System>, events: seq<Event>) {
    && |states| == |events| + 1
    && forall k :: 0 <= k < |events| ==> Moves(states[k], events[k], states[k + 1])
  }

  ghost predicate NoRewind(events: seq<Event>) {
    forall k :: 0 <= k < |events| ==> !events[k].Rewind?
  }

  // ----- The duty to deliver -----

  function OwnMessage(t: Tables, job: Id): Message
    requires job in t.jobs
  {
    Message(job, t.jobs[job].item)
  }

  /** The worker still owns the copy and has not decided to end it. */
  predicate KeepsCopy(work: Work) {
    work.owned && work.stage != Decided(Ack) && work.stage != Decided(Reject)
  }

  /** A copy of the message is ready, or held by a worker that keeps it. */
  ghost predicate InFlight(q: Queue, m: Message) {
    Process(m) in q.ready || exists w :: w in q.workers && q.workers[w].body == Process(m) && KeepsCopy(q.workers[w])
  }

  predicate OnRow(cycle: Cycle, row: Id) {
    (Publishing(cycle) || cycle.Marking?) && cycle.row == row
  }

  /** The publisher will publish the message m before it can mark the row. */
  predicate StillToSend(cycle: Cycle, m: Message) {
    (cycle.Carrying? || cycle.Sent?) && cycle.payload == m
  }

  /** The row will be published again, or for the first time. */
  ghost predicate WillPublish(s: System, row: Id, m: Message) {
    && IsUnpublished(s.tables, row) && s.tables.outbox[row].payload == m
    && forall p :: p in s.queue.publishers && OnRow(s.queue.publishers[p], row) ==>
          StillToSend(s.queue.publishers[p], m)
  }

  ghost predicate HasUnpublishedRow(s: System, job: Id) {
    exists row :: IsUnpublished(s.tables, row) && s.tables.outbox[row].job == job
  }

  /** The job is terminal, or its delivery is still owed by the queue or by its outbox row. */
  ghost predicate Safe(s: System, job: Id) {
    HasJob(s.tables, job, Accepted) ==>
      || InFlight(s.queue, OwnMessage(s.tables, job))
      || exists row :: row in s.tables.outbox && s.tables.outbox[row].job == job
                       && WillPublish(s, row, OwnMessage(s.tables, job))
  }

  /** No copy of the message anywhere: not ready, not with a worker in whatever state, not with a publisher that
      will still send it, not on the wire. */
  ghost predicate Gone(q: Queue, m: Message) {
    && Process(m) !in q.ready
    && (forall w :: w in q.workers ==> q.workers[w].body != Process(m))
    && (forall p :: p in q.publishers ==> !StillToSend(q.publishers[p], m))
    && (forall row :: (row, m) !in q.limbo)
  }

  /** Accepted, with no copy of its message anywhere and nothing left to publish: nobody will ever deliver it. */
  ghost predicate Lost(s: System, job: Id) {
    && HasJob(s.tables, job, Accepted) && Gone(s.queue, OwnMessage(s.tables, job))
    && !HasUnpublishedRow(s, job)
  }

  lemma SafeIsNotLost(s: System, job: Id)
    requires Safe(s, job)
    ensures !Lost(s, job)
  {
    if HasJob(s.tables, job, Accepted) && !InFlight(s.queue, OwnMessage(s.tables, job)) {
      var row :| row in s.tables.outbox && s.tables.outbox[row].job == job
          && WillPublish(s, row, OwnMessage(s.tables, job));
      assert IsUnpublished(s.tables, row);
    }
  }

  // ----- One step keeps the duty -----

  /** A worker ends its copy only for a job that is terminal, or for identities that are no job's. */
  lemma DecisionsJustified(s: System, w: int, e: Entry, heard: bool)
    requires Sound(s.tables) && Allowed(s.tables, e) && Awaited(s.queue, Worker(w)) == Some(e.op)
    ensures var work := s.queue.workers[w];
            var stage := NextStage(work.stage, if heard then Heard(e.answer) else StoreError);
            EndingJustified(Effect(s.tables, e), work.(stage := stage))
  {
    var m := s.queue.workers[w].body.message;
    if HasJob(s.tables, m.job, Accepted) {
      AcceptedMeansPending(s.tables, m.job);
    }
  }

  /** Decided to acknowledge: the job is terminal. Decided to reject: the message is no job's own. */
  predicate EndingJustified(t: Tables, work: Work)
    requires work.body.Process?
  {
    var m := work.body.message;
    && (work.stage == Decided(Ack) ==> m.job in t.jobs && OwnMessage(t, m.job) == m && Terminal(t.jobs[m.job]))
    && (work.stage == Decided(Reject) ==> m.job !in t.jobs || OwnMessage(t, m.job) != m)
  }

  /** No broker step decides about a decoded message. */
  lemma LocalDecidesNothing(q: Queue, step: Step, w: int)
    requires Enabled(q, step) && w in q.workers && !q.workers[w].stage.Decided? && q.workers[w].body.Process?
    requires w in Apply(q, step).workers
    ensures !Apply(q, step).workers[w].stage.Decided?
  {
  }

  /** The step that turns an undecided worker into a decided one justifies its decision. */
  lemma EndingsOfEvent(s: System, event: Event, s': System, w: int)
    requires Sound(s.tables) && Moves(s, event, s')
    requires w in s.queue.workers && !s.queue.workers[w].stage.Decided?
    requires w in s'.queue.workers && s'.queue.workers[w].body == s.queue.workers[w].body
    requires s.queue.workers[w].body.Process?
    ensures EndingJustified(s'.tables, s'.queue.workers[w])
  {
    if event.Execute? && event.client == Worker(w) {
      DecisionsJustified(s, w, event.entry, event.heard);
    } else if event.Local? {
      LocalDecidesNothing(s.queue, event.step, w);
    }
  }

  /** A ready copy stays, or is delivered. */
  lemma ReadyStaysInFlight(q: Queue, step: Step, m: Message)
    requires Enabled(q, step) && Process(m) in q.ready
    ensures InFlight(Apply(q, step), m)
  {
    if step.Deliver? && step.body == Process(m) {
      var q' := Apply(q, step);
      assert step.worker in q'.workers && q'.workers[step.worker].body == Process(m)
             && KeepsCopy(q'.workers[step.worker]);
    }
  }

  /** A copy some worker keeps stays with it, or goes back to the queue. */
  lemma HeldStaysInFlight(q: Queue, step: Step, m: Message, w: int)
    requires Enabled(q, step) && w in q.workers && q.workers[w].body == Process(m) && KeepsCopy(q.workers[w])
    ensures InFlight(Apply(q, step), m)
  {
    var q' := Apply(q, step);
    if (step.Settle? || step.Crash? || step.Disconnect?) && step.worker == w {
      assert Process(m) in q'.ready;
    } else {
      assert w in q'.workers && q'.workers[w].body == Process(m) && KeepsCopy(q'.workers[w]);
    }
  }

  lemma LocalKeepsFlight(q: Queue, step: Step, m: Message)
    requires Enabled(q, step) && InFlight(q, m)
    ensures InFlight(Apply(q, step), m)
  {
    if Process(m) in q.ready {
      ReadyStaysInFlight(q, step, m);
    } else {
      var w :| w in q.workers && q.workers[w].body == Process(m) && KeepsCopy(q.workers[w]);
      HeldStaysInFlight(q, step, m, w);
    }
  }

  lemma LocalKeepsWill(s: System, step: Step, row: Id, m: Message)
    requires Enabled(s.queue, step) && WillPublish(s, row, m)
    ensures var s' := s.(queue := Apply(s.queue, step)); InFlight(s'.queue, m) || WillPublish(s', row, m)
  {
    var q, q' := s.queue, Apply(s.queue, step);
    if !(step.Land? && OnRow(q.publishers[step.publisher], row)) {
      forall p | p in q'.publishers && OnRow(q'.publishers[p], row) ensures StillToSend(q'.publishers[p], m) {
        assert p in q.publishers && OnRow(q.publishers[p], row);
      }
    }
  }

  lemma HearKeepsFlight(q: Queue, c: Client, reply: Reply, m: Message)
    requires InFlight(q, m)
    requires c.Worker? && Awaited(q, c).Some? && q.workers[c.worker].body == Process(m) ==>
               NextStage(q.workers[c.worker].stage, reply) != Decided(Ack)
               && NextStage(q.workers[c.worker].stage, reply) != Decided(Reject)
    ensures InFlight(Hear(q, c, reply), m)
  {
    var q' := Hear(q, c, reply);
    if Process(m) !in q.ready {
      var w :| w in q.workers && q.workers[w].body == Process(m) && KeepsCopy(q.workers[w]);
      assert w in q'.workers && q'.workers[w].body == Process(m) && KeepsCopy(q'.workers[w]);
    }
  }

  /** Hearing an answer leaves every row that will be published so, once the tables agree. */
  lemma HearKeepsWill(s: System, c: Client, reply: Reply, t': Tables, row: Id, m: Message)
    requires WillPublish(s, row, m) && IsUnpublished(t', row) && t'.outbox[row].payload == m
    requires Awaited(s.queue, c) == Some(BeginPublish) && reply.Heard? && reply.answer.RowTaken?
             && reply.answer.row == row ==>
               reply.answer.payload == m
    ensures WillPublish(System(t', Hear(s.queue, c, reply)), row, m)
  {
    var q, q' := s.queue, Hear(s.queue, c, reply);
    forall p | p in q'.publishers && OnRow(q'.publishers[p], row) ensures StillToSend(q'.publishers[p], m) {
      if c == Publisher(p) && Awaited(q, c).Some? {
        assert q.publishers[p].Taking?;
      } else {
        assert p in q.publishers && OnRow(q.publishers[p], row);
      }
    }
  }

  lemma ExecuteKeepsFlight(s: System, c: Client, e: Entry, heard: bool, s': System, job: Id)
    requires Sound(s.tables) && Moves(s, Execute(c, e, heard), s') && job in s.tables.jobs
    requires InFlight(s.queue, OwnMessage(s.tables, job)) && HasJob(s'.tables, job, Accepted)
    requires s'.tables.jobs[job].item == s.tables.jobs[job].item
    ensures InFlight(s'.queue, OwnMessage(s'.tables, job))
  {
    var m := OwnMessage(s.tables, job);
    if c.Worker? && s.queue.workers[c.worker].body == Process(m) {
      DecisionsJustified(s, c.worker, e, heard);
    }
    HearKeepsFlight(s.queue, c, if heard then Heard(e.answer) else StoreError, m);
  }

  /** Nobody marks a row that will still be published. */
  lemma ExecuteKeepsWill(s: System, c: Client, e: Entry, heard: bool, s': System, row: Id, m: Message)
    requires Moves(s, Execute(c, e, heard), s') && WillPublish(s, row, m)
    ensures WillPublish(s', row, m)
  {
    if c.Publisher? && e.op == MarkPublished(row) {
      assert OnRow(s.queue.publishers[c.publisher], row);
    }
    assert e.op != MarkPublished(row);
    RowStaysUnpublished(s.tables, e, row);
    HearKeepsWill(s, c, if heard then Heard(e.answer) else StoreError, s'.tables, row, m);
  }

  lemma RowStaysUnpublished(t: Tables, e: Entry, row: Id)
    requires Allowed(t, e) && IsUnpublished(t, row) && e.op != MarkPublished(row)
    ensures IsUnpublished(Effect(t, e), row) && Effect(t, e).outbox[row].payload == t.outbox[row].payload
    ensures Effect(t, e).outbox[row].job == t.outbox[row].job
  {
  }

  lemma ExecuteKeepsSafe(s: System, c: Client, e: Entry, heard: bool, s': System, job: Id)
    requires Sound(s.tables) && Moves(s, Execute(c, e, heard), s') && job in s.tables.jobs && Safe(s, job)
    ensures Safe(s', job)
  {
    EffectExtends(s.tables, e);
    if HasJob(s'.tables, job, Accepted) {
      var m := OwnMessage(s.tables, job);
      if InFlight(s.queue, m) {
        ExecuteKeepsFlight(s, c, e, heard, s', job);
      } else {
        var row :| row in s.tables.outbox && s.tables.outbox[row].job == job && WillPublish(s, row, m);
        ExecuteKeepsWill(s, c, e, heard, s', row, m);
      }
    }
  }

  /** Whatever happens short of a restore, an existing job that is safe stays safe. */
  lemma StepKeepsSafe(s: System, event: Event, s': System, job: Id)
    requires Sound(s.tables) && Moves(s, event, s') && !event.Rewind? && job in s.tables.jobs && Safe(s, job)
    ensures Sound(s'.tables) && job in s'.tables.jobs && Safe(s', job)
  {
    match event
    case Execute(c, e, heard) =>
      ExecuteKeepsSafe(s, c, e, heard, s', job);
      EffectKeepsSound(s.tables, e);
      EffectExtends(s.tables, e);
    case Local(step) =>
      if HasJob(s.tables, job, Accepted) {
        var m := OwnMessage(s.tables, job);
        if InFlight(s.queue, m) {
          LocalKeepsFlight(s.queue, step, m);
        } else {
          var row :| row in s.tables.outbox && s.tables.outbox[row].job == job && WillPublish(s, row, m);
          LocalKeepsWill(s, step, row, m);
        }
      }
    case Refuse(c) =>
      if HasJob(s.tables, job, Accepted) {
        var m := OwnMessage(s.tables, job);
        if InFlight(s.queue, m) {
          HearKeepsFlight(s.queue, c, StoreError, m);
        } else {
          var row :| row in s.tables.outbox && s.tables.outbox[row].job == job && WillPublish(s, row, m);
          HearKeepsWill(s, c, StoreError, s.tables, row, m);
        }
      }
  }
}
