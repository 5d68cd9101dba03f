/** Runs of the whole system: no accepted work is lost, exactly which jobs a restore puts at risk,
    and how many copies of a message there can be. */
module Duty {
  import opened Records
  import opened AtomicStore
  import opened SuccessInvariant
  import opened History
  import opened Settlement
  import opened Statements
  import opened Broker
  import opened Delivery

  /** Publishers work on rows that exist. Only a restore can break this. */
  ghost predicate RowsKnown(s: System) {
    forall p :: p in s.queue.publishers && HasRowId(s.queue.publishers[p]) ==>
      s.queue.publishers[p].row in s.tables.outbox
  }

  predicate HasRowId(cycle: Cycle) {
    !cycle.Taking?
  }

  ghost predicate AllSafe(s: System) {
    Sound(s.tables) && RowsKnown(s) && forall job :: job in s.tables.jobs ==> Safe(s, job)
  }

  lemma LocalKeepsRowsKnown(s: System, step: Step)
    requires RowsKnown(s) && Enabled(s.queue, step)
    ensures RowsKnown(s.(queue := Apply(s.queue, step)))
  {
    var q, q' := s.queue, Apply(s.queue, step);
    forall p | p in q'.publishers && HasRowId(q'.publishers[p]) ensures q'.publishers[p].row in s.tables.outbox {
      assert p in q.publishers && HasRowId(q.publishers[p]) && q.publishers[p].row == q'.publishers[p].row;
    }
  }

  lemma StepKeepsRowsKnown(s: System, event: Event, s': System)
    requires RowsKnown(s) && Moves(s, event, s') && !event.Rewind?
    ensures RowsKnown(s')
  {
    match event
    case Local(step) => LocalKeepsRowsKnown(s, step);
    case Execute(c, e, heard) => EffectExtends(s.tables, e);
    case Refuse(c) =>
  }

  /** A job accepted in this step is safe: nobody can be publishing its brand-new row. */
  lemma NewJobIsSafe(s: System, event: Event, s': System, job: Id)
    requires Sound(s.tables) && RowsKnown(s) && Moves(s, event, s') && !event.Rewind?
    requires job !in s.tables.jobs && job in s'.tables.jobs
    ensures Safe(s', job)
  {
    var e := event.entry;
    assert e.op.AcceptJob? && e.answer.JobAccepted? && e.answer.job == job;
    var row := e.answer.row;
    assert event.client.Api?;
    assert s'.queue == s.queue;
    assert WillPublish(s', row, OwnMessage(s'.tables, job));
  }

  lemma StepKeepsAllSafe(s: System, event: Event, s': System)
    requires AllSafe(s) && Moves(s, event, s') && !event.Rewind?
    ensures AllSafe(s')
  {
    StepKeepsRowsKnown(s, event, s');
    if event.Execute? {
      EffectKeepsSound(s.tables, event.entry);
    }
    forall job | job in s'.tables.jobs ensures Safe(s', job) {
      if job in s.tables.jobs {
        StepKeepsSafe(s, event, s', job);
      } else {
        NewJobIsSafe(s, event, s', job);
      }
    }
  }

  lemma {:induction false} PathKeepsAllSafe(states: seq<System>, events: seq<Event>, k: nat)
    requires Path(states, events) && NoRewind(events) && k < |states| && AllSafe(states[0])
    ensures AllSafe(states[k])
    decreases k
  {
    if k > 0 {
      PathKeepsAllSafe(states, events, k - 1);
      StepKeepsAllSafe(states[k - 1], events[k - 1], states[k]);
    }
  }

  /** No accepted work is lost: at every point of every run without a restore, an accepted job has an
      unpublished outbox row or a copy of its message in the queue or with a worker that will not drop it. */
  lemma {:induction false} NoAcceptedWorkLost(states: seq<System>, events: seq<Event>, k: nat, job: Id)
    requires Path(states, events) && NoRewind(events) && k < |states| && states[0] == INITIAL
    requires HasJob(states[k].tables, job, Accepted)
    ensures HasUnpublishedRow(states[k], job) || InFlight(states[k].queue, OwnMessage(states[k].tables, job))
  {
    PathKeepsAllSafe(states, events, k);
    SafeIsNotLost(states[k], job);
  }

  /** Once the outbox and the queue are drained and the workers idle, every job has succeeded or failed. */
  lemma {:induction false} DrainedMeansDone(states: seq<System>, events: seq<Event>, k: nat)
    requires Path(states, events) && NoRewind(events) && k < |states| && states[0] == INITIAL
    requires states[k].queue.ready == multiset{} && states[k].queue.workers == map[]
    requires forall row :: row in states[k].tables.outbox ==> states[k].tables.outbox[row].published
    ensures forall job :: job in states[k].tables.jobs ==> Terminal(states[k].tables.jobs[job])
  {
    forall job | job in states[k].tables.jobs ensures Terminal(states[k].tables.jobs[job]) {
      if HasJob(states[k].tables, job, Accepted) {
        NoAcceptedWorkLost(states, events, k, job);
      }
    }
  }

  // ----- Restores -----

  /** A safe job stays deliverable on every path without a further restore. */
  lemma {:induction false} SafeIsNeverLost(states: seq<System>, events: seq<Event>, k: nat, job: Id)
    requires Path(states, events) && NoRewind(events) && k < |states|
    requires Sound(states[0].tables) && job in states[0].tables.jobs && Safe(states[0], job)
    ensures Sound(states[k].tables) && job in states[k].tables.jobs && Safe(states[k], job) && !Lost(states[k], job)
    decreases k
  {
    if k > 0 {
      SafeIsNeverLost(states, events, k - 1, job);
      StepKeepsSafe(states[k - 1], events[k - 1], states[k], job);
    }
    SafeIsNotLost(states[k], job);
  }

  // What is lost stays lost.

  lemma NobodyReceives(q: Queue, step: Step, m: Message)
    requires Enabled(q, step) && Gone(q, m) && step != Inject(Process(m))
    ensures Process(m) !in Apply(q, step).ready
    ensures forall w :: w in Apply(q, step).workers ==> Apply(q, step).workers[w].body != Process(m)
  {
    forall w | w in Apply(q, step).workers ensures Apply(q, step).workers[w].body != Process(m) {
      assert w in q.workers || step.Deliver?;
    }
  }

  lemma NobodySends(q: Queue, step: Step, m: Message)
    requires Enabled(q, step) && Gone(q, m)
    ensures forall p :: p in Apply(q, step).publishers ==> !StillToSend(Apply(q, step).publishers[p], m)
    ensures forall row :: (row, m) !in Apply(q, step).limbo
  {
    forall p | p in Apply(q, step).publishers ensures !StillToSend(Apply(q, step).publishers[p], m) {
      assert p in q.publishers || step.Take?;
    }
    forall row ensures (row, m) !in Apply(q, step).limbo {
      assert (row, m) !in q.limbo;
    }
  }

  lemma LocalKeepsGone(q: Queue, step: Step, m: Message)
    requires Enabled(q, step) && Gone(q, m) && step != Inject(Process(m))
    ensures Gone(Apply(q, step), m)
  {
    NobodyReceives(q, step, m);
    NobodySends(q, step, m);
  }

  /** No operation of somebody without the message touches the job. */
  lemma OthersSpareJob(s: System, c: Client, e: Entry, job: Id)
    requires MayRun(s.queue, c, e.op) && Allowed(s.tables, e) && job in s.tables.jobs
    requires c.Worker? ==> s.queue.workers[c.worker].body != Process(OwnMessage(s.tables, job))
    ensures job in Effect(s.tables, e).jobs && Effect(s.tables, e).jobs[job] == s.tables.jobs[job]
  {
  }

  /** No operation brings back an unpublished row of a job without one. */
  lemma NoRowReturns(t: Tables, e: Entry, job: Id, row: Id)
    requires Allowed(t, e) && job in t.jobs
    requires IsUnpublished(Effect(t, e), row) && Effect(t, e).outbox[row].job == job
    ensures IsUnpublished(t, row) && t.outbox[row].job == job
  {
  }

  /** No operation that can still run ends, republishes or otherwise touches a lost job. */
  lemma ExecuteSparesLost(s: System, c: Client, e: Entry, heard: bool, s': System, job: Id)
    requires Sound(s.tables) && Moves(s, Execute(c, e, heard), s') && Lost(s, job)
    ensures job in s'.tables.jobs && s'.tables.jobs[job] == s.tables.jobs[job]
    ensures !HasUnpublishedRow(s', job)
    ensures e.answer.RowTaken? ==> e.answer.payload != OwnMessage(s.tables, job)
  {
    OthersSpareJob(s, c, e, job);
    if row :| IsUnpublished(s'.tables, row) && s'.tables.outbox[row].job == job {
      NoRowReturns(s.tables, e, job, row);
    }
  }

  lemma HearKeepsGone(q: Queue, c: Client, reply: Reply, m: Message)
    requires Gone(q, m) && (reply.Heard? && reply.answer.RowTaken? ==> reply.answer.payload != m)
    ensures Gone(Hear(q, c, reply), m)
  {
    var q' := Hear(q, c, reply);
    assert forall p :: p in q'.publishers && p !in q.publishers ==> false;
  }

  lemma StepKeepsLost(s: System, event: Event, s': System, job: Id)
    requires Sound(s.tables) && Moves(s, event, s') && Lost(s, job)
    requires !event.Rewind? && event != Local(Inject(Process(OwnMessage(s.tables, job))))
    ensures Lost(s', job) && OwnMessage(s'.tables, job) == OwnMessage(s.tables, job)
  {
    var m := OwnMessage(s.tables, job);
    match event
    case Local(step) => LocalKeepsGone(s.queue, step, m);
    case Execute(c, e, heard) =>
      ExecuteSparesLost(s, c, e, heard, s', job);
      HearKeepsGone(s.queue, c, if heard then Heard(e.answer) else StoreError, m);
    case Refuse(c) => HearKeepsGone(s.queue, c, StoreError, m);
  }

  /** A lost job stays accepted and undeliverable through everything but a restore, or somebody else who
      happens to send its message. */
  lemma {:induction false} LostForGood(states: seq<System>, events: seq<Event>, k: nat, job: Id)
    requires Path(states, events) && NoRewind(events) && k < |states| && Sound(states[0].tables) && Lost(states[0], job)
    requires Local(Inject(Process(OwnMessage(states[0].tables, job)))) !in events
    ensures Sound(states[k].tables) && Lost(states[k], job)
    ensures OwnMessage(states[k].tables, job) == OwnMessage(states[0].tables, job)
    decreases k
  {
    if k > 0 {
      LostForGood(states, events, k - 1, job);
      assert events[k - 1] in events;
      StepKeepsLost(states[k - 1], events[k - 1], states[k], job);
      if events[k - 1].Execute? {
        EffectKeepsSound(states[k - 1].tables, events[k - 1].entry);
      }
    }
  }

  // How an unsafe job is lost: every remaining trace of its message disappears, and its row is marked.

  function Holders(q: Queue, m: Message): set<int> {
    set w | w in q.workers && q.workers[w].body == Process(m)
  }

  function Carriers(q: Queue, m: Message): set<int> {
    set p | p in q.publishers && StillToSend(q.publishers[p], m)
  }

  /** Steps left until no trace of the message is left, at most. */
  function Traces(q: Queue, m: Message): nat {
    |Holders(q, m)| + 2 * |Carriers(q, m)| + |q.limbo|
  }

  /** The step removes a trace of the message, and no publisher but those that would still send it. */
  ghost predicate Fades(q: Queue, step: Step, m: Message) {
    && Enabled(q, step) && !step.Inject? && !InFlight(Apply(q, step), m) && Traces(Apply(q, step), m) < Traces(q, m)
    && forall p :: p in q.publishers && !StillToSend(q.publishers[p], m) ==>
         p in Apply(q, step).publishers && Apply(q, step).publishers[p] == q.publishers[p]
  }

  /** A worker that will not give its copy back. */
  lemma WorkerFades(q: Queue, m: Message, w: int) returns (step: Step)
    requires !InFlight(q, m) && w in q.workers && q.workers[w].body == Process(m)
    ensures Fades(q, step, m)
  {
    assert !KeepsCopy(q.workers[w]);
    step := if q.workers[w].owned then Settle(w) else Crash(w);
    var q' := Apply(q, step);
    assert q' == q.(workers := q.workers - {w});
    assert w in Holders(q, m) && Holders(q', m) == Holders(q, m) - {w};
    assert Carriers(q', m) == Carriers(q, m);
  }

  lemma CarrierFades(q: Queue, m: Message, p: int) returns (step: Step)
    requires !InFlight(q, m) && p in q.publishers && StillToSend(q.publishers[p], m)
    ensures Fades(q, step, m)
  {
    step := Halt(p);
    var q' := Apply(q, step);
    assert q'.workers == q.workers && q'.ready == q.ready;
    assert p in Carriers(q, m) && Carriers(q', m) == Carriers(q, m) - {p};
    assert Holders(q', m) == Holders(q, m);
  }

  lemma StrayFades(q: Queue, m: Message, row: Id) returns (step: Step)
    requires !InFlight(q, m) && (row, m) in q.limbo
    ensures Fades(q, step, m)
  {
    step := Vanish(row, m);
    var q' := Apply(q, step);
    assert q'.workers == q.workers && q'.ready == q.ready;
    assert Holders(q', m) == Holders(q, m) && Carriers(q', m) == Carriers(q, m);
  }

  /** A message that is not in flight can lose one more of its traces. */
  lemma TraceVanishes(q: Queue, m: Message) returns (step: Step)
    requires !InFlight(q, m) && !Gone(q, m)
    ensures Fades(q, step, m)
  {
    if w :| w in q.workers && q.workers[w].body == Process(m) {
      step := WorkerFades(q, m, w);
    } else if p :| p in q.publishers && StillToSend(q.publishers[p], m) {
      step := CarrierFades(q, m, p);
    } else {
      var row :| (row, m) in q.limbo;
      step := StrayFades(q, m, row);
    }
  }

  /** How many steps a publisher still needs until it marks its row. */
  function StepsToMark(cycle: Cycle): nat {
    match cycle
    case Carrying(_, _) => 4
    case Sent(_, _) => 3
    case Landed(_, _) => 2
    case _ => 1
  }

  /** The publisher can mark the row without ever storing the message m. */
  predicate Betrays(cycle: Cycle, row: Id, m: Message) {
    OnRow(cycle, row) && !StillToSend(cycle, m)
  }

  /** The job has no copy in flight; its row is published, or publisher p can mark it without sending one. */
  ghost predicate AtMercy(s: System, job: Id, row: Id, p: int) {
    && Sound(s.tables) && HasJob(s.tables, job, Accepted) && !InFlight(s.queue, OwnMessage(s.tables, job))
    && row in s.tables.outbox && s.tables.outbox[row].job == job
    && (s.tables.outbox[row].published
        || (p in s.queue.publishers && Betrays(s.queue.publishers[p], row, OwnMessage(s.tables, job))))
  }

  /** One more step of the cycle, short of the mark. */
  lemma BetrayalAdvances(s: System, job: Id, row: Id, p: int) returns (step: Step)
    requires AtMercy(s, job, row, p) && !s.tables.outbox[row].published && !s.queue.publishers[p].Marking?
    ensures Enabled(s.queue, step) && !step.Inject?
    ensures var s' := s.(queue := Apply(s.queue, step));
            AtMercy(s', job, row, p) && StepsToMark(s'.queue.publishers[p]) < StepsToMark(s.queue.publishers[p])
    ensures Traces(Apply(s.queue, step), OwnMessage(s.tables, job)) == Traces(s.queue, OwnMessage(s.tables, job))
  {
    var m := OwnMessage(s.tables, job);
    var cycle := s.queue.publishers[p];
    step := if cycle.Carrying? then Send(p) else if cycle.Sent? then Land(p) else Confirm(p);
    var q' := Apply(s.queue, step);
    assert q'.workers == s.queue.workers;
    assert !InFlight(q', m);
    assert Holders(q', m) == Holders(s.queue, m) && Carriers(q', m) == Carriers(s.queue, m);
  }

  lemma PublishedMeansLost(s: System, job: Id, row: Id)
    requires Sound(s.tables) && HasJob(s.tables, job, Accepted) && Gone(s.queue, OwnMessage(s.tables, job))
    requires row in s.tables.outbox && s.tables.outbox[row].job == job && s.tables.outbox[row].published
    ensures Lost(s, job)
  {
  }

  /** The publisher marks the row, and hears so. */
  function Mark(row: Id, p: int): Event {
    Execute(Publisher(p), Entry(MarkPublished(row), RowUpdated), true)
  }

  lemma MarkLoses(s: System, job: Id, row: Id, p: int) returns (s': System)
    requires AtMercy(s, job, row, p) && !s.tables.outbox[row].published && s.queue.publishers[p].Marking?
    requires Gone(s.queue, OwnMessage(s.tables, job))
    ensures Moves(s, Mark(row, p), s') && Lost(s', job)
  {
    var e := Entry(MarkPublished(row), RowUpdated);
    s' := System(Effect(s.tables, e), Hear(s.queue, Publisher(p), Heard(RowUpdated)));
    EffectKeepsSound(s.tables, e);
    HearKeepsGone(s.queue, Publisher(p), Heard(RowUpdated), OwnMessage(s.tables, job));
    PublishedMeansLost(s', job, row);
  }

  /** Broker steps that bring no message, and marks: what a loss takes. */
  predicate Losing(event: Event) {
    match event
    case Local(step) => !step.Inject?
    case Execute(c, e, heard) => c.Publisher? && e.op.MarkPublished? && event == Mark(e.op.row, c.publisher)
    case _ => false
  }

  ghost predicate AllLosing(events: seq<Event>) {
    forall k :: 0 <= k < |events| ==> Losing(events[k])
  }

  lemma PrependStep(s: System, event: Event, states: seq<System>, events: seq<Event>)
    requires Path(states, events) && AllLosing(events) && Moves(s, event, states[0]) && Losing(event)
    ensures Path([s] + states, [event] + events) && AllLosing([event] + events)
  {
    var states', events' := [s] + states, [event] + events;
    forall k | 0 <= k < |events'| ensures Moves(states'[k], events'[k], states'[k + 1]) && Losing(events'[k]) {
      if k > 0 {
        assert Moves(states[k - 1], events[k - 1], states[k]);
      }
    }
  }

  /** A job at the mercy of a publisher, or already given up by all of them, can end up lost for good. */
  lemma {:induction false} BetrayalLoses(s: System, job: Id, row: Id, p: int)
    returns (states: seq<System>, events: seq<Event>)
    requires AtMercy(s, job, row, p)
    ensures Path(states, events) && AllLosing(events) && states[0] == s && Lost(states[|events|], job)
    decreases Traces(s.queue, OwnMessage(s.tables, job)),
              if s.tables.outbox[row].published then 0 else StepsToMark(s.queue.publishers[p])
  {
    var m := OwnMessage(s.tables, job);
    if Gone(s.queue, m) && s.tables.outbox[row].published {
      PublishedMeansLost(s, job, row);
      states, events := [s], [];
    } else if Gone(s.queue, m) && s.queue.publishers[p].Marking? {
      var s' := MarkLoses(s, job, row, p);
      states, events := [s, s'], [Mark(row, p)];
    } else {
      var step;
      if Gone(s.queue, m) {
        step := BetrayalAdvances(s, job, row, p);
      } else {
        step := TraceVanishes(s.queue, m);
      }
      var s' := s.(queue := Apply(s.queue, step));
      var rest, later := BetrayalLoses(s', job, row, p);
      PrependStep(s, Local(step), rest, later);
      states, events := [s] + rest, [Local(step)] + later;
    }
  }

  /** Exactly when a job is at risk, in any state whatever: a path to its final loss exists if and only if it is
      not safe; and broker steps and marks are enough for it. */
  lemma {:induction false} LossNeedsUnsafe(s: System, job: Id)
    requires Sound(s.tables) && job in s.tables.jobs
    ensures Safe(s, job) <==> !CanBeLost(s, job)
    ensures !Safe(s, job) <==> CanSlipAway(s, job)
  {
    if Safe(s, job) {
      forall states, events | Path(states, events) && NoRewind(events) && states[0] == s
        ensures !Lost(states[|events|], job)
      {
        SafeIsNeverLost(states, events, |events|, job);
      }
      forall states, events | Path(states, events) && AllLosing(events) && states[0] == s
        ensures !Lost(states[|events|], job)
      {
        LosingIsNoRewind(events);
        SafeIsNeverLost(states, events, |events|, job);
      }
    } else {
      var states, events := UnsafeLoses(s, job);
      LosingIsNoRewind(events);
    }
  }

  lemma LosingIsNoRewind(events: seq<Event>)
    requires AllLosing(events)
    ensures NoRewind(events)
  {
    forall k | 0 <= k < |events| ensures !events[k].Rewind? {
      assert Losing(events[k]);
    }
  }

  lemma UnsafeLoses(s: System, job: Id) returns (states: seq<System>, events: seq<Event>)
    requires Sound(s.tables) && job in s.tables.jobs && !Safe(s, job)
    ensures Path(states, events) && AllLosing(events) && states[0] == s && Lost(states[|events|], job)
  {
    var row :| row in s.tables.outbox && s.tables.outbox[row].job == job;
    var p := 0;
    if IsUnpublished(s.tables, row) {
      p :| p in s.queue.publishers && Betrays(s.queue.publishers[p], row, OwnMessage(s.tables, job));
    }
    states, events := BetrayalLoses(s, job, row, p);
  }

  ghost predicate CanBeLost(s: System, job: Id) {
    exists states, events :: Path(states, events) && NoRewind(events) && states[0] == s && Lost(states[|events|], job)
  }

  ghost predicate CanSlipAway(s: System, job: Id) {
    exists states, events :: Path(states, events) && AllLosing(events) && states[0] == s && Lost(states[|events|], job)
  }

  /** No publisher is in a cycle on the row. */
  ghost predicate NobodyPublishes(q: Queue, row: Id) {
    forall p :: p in q.publishers ==> !OnRow(q.publishers[p], row)
  }

  /** After a restore, a job whose outbox row was unpublished in the backup is delivered for sure if no publisher
      was inside a cycle on that row; if one was, past sending its message, with no copy left, the job can be lost. */
  lemma {:induction false} RestoredDuty(s: System, backup: Tables, s': System, job: Id, row: Id)
    requires Moves(s, Rewind(backup), s') && HasJob(backup, job, Accepted)
    requires IsUnpublished(backup, row) && backup.outbox[row].job == job
    ensures NobodyPublishes(s.queue, row) ==> !CanBeLost(s', job)
    ensures CanBeLost(s', job) <==>
              && !InFlight(s.queue, OwnMessage(backup, job))
              && exists p :: p in s.queue.publishers && Betrays(s.queue.publishers[p], row, OwnMessage(backup, job))
  {
    var m := OwnMessage(backup, job);
    LossNeedsUnsafe(s', job);
    assert backup.outbox[row].payload == m;
    if Safe(s', job) && !InFlight(s.queue, m) {
      var r :| r in backup.outbox && backup.outbox[r].job == job && WillPublish(s', r, m);
      assert r == row;
    }
    if forall p :: p in s.queue.publishers ==> !Betrays(s.queue.publishers[p], row, m) {
      assert WillPublish(s', row, m);
    }
  }
}
