/** Publication conservation, with any number of publishers: how many copies of an outbox row can exist. */
module Copies {
  import opened Option
  import opened Records
  import opened AtomicStore
  import opened History
  import opened Settlement
  import opened Statements
  import opened Broker
  import opened Delivery

  predicate OnTheWay(cycle: Cycle, row: Id) {
    (cycle.Carrying? || cycle.Sent?) && cycle.row == row
  }

  /** The publishers that may still store a copy of the row. */
  function Unsent(q: Queue, row: Id): set<int> {
    set p | p in q.publishers && OnTheWay(q.publishers[p], row)
  }

  /** Publications still travelling without a publisher waiting for them. */
  function Stray(s: System, row: Id): nat {
    if row in s.tables.outbox then s.queue.limbo[(row, s.tables.outbox[row].payload)] else 0
  }

  function Begun(t: Tables, row: Id): nat {
    if row in t.outbox then t.outbox[row].attempts else 0
  }

  /** Everything underway carries the payload of an existing row. */
  ghost predicate Authentic(s: System) {
    && (forall p :: p in s.queue.publishers && (Publishing(s.queue.publishers[p]) || s.queue.publishers[p].Marking?) ==>
          RowHas(s.tables, s.queue.publishers[p].row, s.queue.publishers[p].payload))
    && (forall row, m :: (row, m) in s.queue.limbo ==> RowHas(s.tables, row, m))
  }

  predicate RowHas(t: Tables, row: Id, m: Message) {
    row in t.outbox && t.outbox[row].payload == m
  }

  ghost predicate Conserved(s: System, row: Id) {
    && s.queue.landed[row] + Stray(s, row) + |Unsent(s.queue, row)| <= Begun(s.tables, row)
    && Founded(s, row)
  }

  predicate AfterLanding(cycle: Cycle, row: Id) {
    (cycle.Landed? || cycle.Marking?) && cycle.row == row
  }

  lemma LocalKeepsAuthentic(s: System, step: Step)
    requires Authentic(s) && Enabled(s.queue, step)
    ensures Authentic(s.(queue := Apply(s.queue, step)))
  {
    var q, q' := s.queue, Apply(s.queue, step);
    forall p | p in q'.publishers && (Publishing(q'.publishers[p]) || q'.publishers[p].Marking?)
      ensures RowHas(s.tables, q'.publishers[p].row, q'.publishers[p].payload)
    {
      assert p in q.publishers && (Publishing(q.publishers[p]) || q.publishers[p].Marking?);
    }
    forall row, m | (row, m) in q'.limbo ensures RowHas(s.tables, row, m) {
      assert (row, m) in q.limbo
             || (Publishing(q.publishers[step.publisher]) && q.publishers[step.publisher].row == row);
    }
  }

  lemma ExecuteKeepsAuthentic(s: System, c: Client, e: Entry, heard: bool, s': System)
    requires Authentic(s) && Moves(s, Execute(c, e, heard), s')
    ensures Authentic(s')
  {
    EffectExtends(s.tables, e);
    var q, q' := s.queue, s'.queue;
    assert q'.limbo == q.limbo;
    forall p | p in q'.publishers && (Publishing(q'.publishers[p]) || q'.publishers[p].Marking?)
      ensures RowHas(s'.tables, q'.publishers[p].row, q'.publishers[p].payload)
    {
      assert q'.publishers[p] == q.publishers[p] || (c == Publisher(p) && e.op.BeginPublish?);
    }
  }

  lemma StepKeepsAuthentic(s: System, event: Event, s': System)
    requires Authentic(s) && Moves(s, event, s') && !event.Rewind?
    ensures Authentic(s')
  {
    match event
    case Local(step) => LocalKeepsAuthentic(s, step);
    case Execute(c, e, heard) => ExecuteKeepsAuthentic(s, c, e, heard, s');
    case Refuse(c) =>
  }

  /** A publisher that leaves the way to the queue: its copy is stored, or strays, or is gone. */
  lemma LeavingKeepsConserved(s: System, step: Step, row: Id)
    requires Authentic(s) && Conserved(s, row) && Enabled(s.queue, step)
    requires (step.Land? || step.PublishFails? || step.Halt?) && OnTheWay(s.queue.publishers[step.publisher], row)
    ensures Conserved(s.(queue := Apply(s.queue, step)), row)
  {
    var q, q' := s.queue, Apply(s.queue, step);
    assert step.publisher in Unsent(q, row);
    assert Unsent(q', row) == Unsent(q, row) - {step.publisher};
    assert RowHas(s.tables, row, q.publishers[step.publisher].payload);
  }

  lemma StrayLandingKeepsConserved(s: System, step: Step, row: Id)
    requires Authentic(s) && Conserved(s, row) && Enabled(s.queue, step) && (step.LateLand? || step.Vanish?)
    ensures Conserved(s.(queue := Apply(s.queue, step)), row)
  {
    assert Unsent(Apply(s.queue, step), row) == Unsent(s.queue, row);
    assert RowHas(s.tables, step.row, step.payload);
  }

  /** The parts of Conserved that count nothing. */
  ghost predicate Founded(s: System, row: Id) {
    && (IsPublished(s.tables, row) ==> s.queue.landed[row] > 0)
    && (forall p :: p in s.queue.publishers && AfterLanding(s.queue.publishers[p], row) ==> s.queue.landed[row] > 0)
  }

  lemma LocalKeepsFounded(s: System, step: Step, row: Id)
    requires Founded(s, row) && Enabled(s.queue, step)
    ensures Founded(s.(queue := Apply(s.queue, step)), row)
  {
    var q, q' := s.queue, Apply(s.queue, step);
    assert q.landed[row] <= q'.landed[row];
    forall p | p in q'.publishers && AfterLanding(q'.publishers[p], row) ensures q'.landed[row] > 0 {
      if step.Land? && step.publisher == p {
        assert q'.landed[row] > 0;
      } else {
        assert p in q.publishers && AfterLanding(q.publishers[p], row);
      }
    }
  }

  predicate LeavesTheWay(q: Queue, step: Step, row: Id)
    requires Enabled(q, step)
  {
    (step.Land? || step.PublishFails? || step.Halt?) && OnTheWay(q.publishers[step.publisher], row)
  }

  /** Steps touch one publisher's cycle, or none. */
  lemma OthersCyclesStay(q: Queue, step: Step, p: int)
    requires Enabled(q, step)
    requires (step.Take? || step.Send? || step.Land? || step.Confirm? || step.PublishFails? || step.Halt?) ==>
               p != step.publisher
    ensures p in Apply(q, step).publishers <==> p in q.publishers
    ensures p in q.publishers ==> Apply(q, step).publishers[p] == q.publishers[p]
  {
  }

  /** Every other step moves no copy of the row. */
  lemma OtherStepSendsSame(q: Queue, step: Step, row: Id)
    requires Enabled(q, step) && !LeavesTheWay(q, step, row)
    ensures Unsent(Apply(q, step), row) == Unsent(q, row)
  {
    var q' := Apply(q, step);
    forall p ensures p in Unsent(q', row) <==> p in Unsent(q, row) {
      if !((step.Take? || step.Send? || step.Land? || step.Confirm? || step.PublishFails? || step.Halt?)
          && p == step.publisher) {
        OthersCyclesStay(q, step, p);
      }
    }
  }

  lemma OtherStepStoresSame(s: System, step: Step, row: Id)
    requires Enabled(s.queue, step) && !step.LateLand? && !step.Vanish? && !LeavesTheWay(s.queue, step, row)
    ensures var q' := Apply(s.queue, step);
            q'.landed[row] == s.queue.landed[row] && Stray(s.(queue := q'), row) == Stray(s, row)
  {
    if (step.PublishFails? || step.Halt?) && s.queue.publishers[step.publisher].Sent? {
      assert s.queue.publishers[step.publisher].row != row;
    }
  }

  lemma LocalKeepsConserved(s: System, step: Step, row: Id)
    requires Authentic(s) && Conserved(s, row) && Enabled(s.queue, step)
    ensures Conserved(s.(queue := Apply(s.queue, step)), row)
  {
    if LeavesTheWay(s.queue, step, row) {
      LeavingKeepsConserved(s, step, row);
    } else if step.LateLand? || step.Vanish? {
      StrayLandingKeepsConserved(s, step, row);
    } else {
      OtherStepSendsSame(s.queue, step, row);
      OtherStepStoresSame(s, step, row);
      LocalKeepsFounded(s, step, row);
    }
  }

  /** What an operation does to the publish attempts and the payloads of the outbox. */
  lemma EntryCounts(t: Tables, e: Entry, row: Id)
    requires Allowed(t, e)
    ensures Begun(Effect(t, e), row) >= Begun(t, row)
            + (if e.op.BeginPublish? && e.answer == RowTaken(row, PayloadOf(t, row)) then 1 else 0)
    ensures row in t.outbox ==> row in Effect(t, e).outbox && Effect(t, e).outbox[row].payload == t.outbox[row].payload
    ensures IsPublished(Effect(t, e), row) ==> IsPublished(t, row) || e.op == MarkPublished(row)
  {
  }

  function PayloadOf(t: Tables, row: Id): Message {
    if row in t.outbox then t.outbox[row].payload else Message(0, 0)
  }

  /** Hearing that a row was taken puts one publisher on the way; nothing else does. */
  lemma HearCounts(q: Queue, c: Client, reply: Reply, row: Id)
    ensures Hear(q, c, reply).landed == q.landed && Hear(q, c, reply).limbo == q.limbo
    ensures |Unsent(Hear(q, c, reply), row)| <= |Unsent(q, row)| + (if PutsOnTheWay(q, c, reply, row) then 1 else 0)
    ensures forall p :: p in Hear(q, c, reply).publishers && AfterLanding(Hear(q, c, reply).publishers[p], row) ==>
              p in q.publishers && AfterLanding(q.publishers[p], row)
  {
    var q' := Hear(q, c, reply);
    if PutsOnTheWay(q, c, reply, row) {
      assert Unsent(q', row) == Unsent(q, row) + {c.publisher};
    } else {
      assert Unsent(q', row) == Unsent(q, row);
    }
  }

  predicate PutsOnTheWay(q: Queue, c: Client, reply: Reply, row: Id) {
    c.Publisher? && Awaited(q, c) == Some(BeginPublish) && reply.Heard? && reply.answer.RowTaken?
        && reply.answer.row == row
  }

  lemma ExecuteKeepsConserved(s: System, c: Client, e: Entry, heard: bool, s': System, row: Id)
    requires Authentic(s) && Conserved(s, row) && Moves(s, Execute(c, e, heard), s')
    ensures Conserved(s', row)
  {
    EntryCounts(s.tables, e, row);
    HearCounts(s.queue, c, if heard then Heard(e.answer) else StoreError, row);
    assert row !in s.tables.outbox ==> s.queue.limbo[(row, PayloadOf(s'.tables, row))] == 0;
    if e.op == MarkPublished(row) {
      assert AfterLanding(s.queue.publishers[c.publisher], row);
    }
  }

  lemma StepKeepsConserved(s: System, event: Event, s': System, row: Id)
    requires Authentic(s) && Conserved(s, row) && Moves(s, event, s') && !event.Rewind?
    ensures Conserved(s', row)
  {
    match event
    case Local(step) => LocalKeepsConserved(s, step, row);
    case Execute(c, e, heard) => ExecuteKeepsConserved(s, c, e, heard, s', row);
    case Refuse(c) => assert Unsent(s'.queue, row) == Unsent(s.queue, row);
  }

  /** In every run without a restore, the copies ever stored for a row never exceed its publish attempts,
      and a row is marked published only after at least one copy was stored. */
  lemma {:induction false} CopiesConserved(states: seq<System>, events: seq<Event>, k: nat, row: Id)
    requires Path(states, events) && NoRewind(events) && k < |states| && states[0] == INITIAL
    ensures Authentic(states[k]) && Conserved(states[k], row)
    decreases k
  {
    if k > 0 {
      CopiesConserved(states, events, k - 1, row);
      StepKeepsAuthentic(states[k - 1], events[k - 1], states[k]);
      StepKeepsConserved(states[k - 1], events[k - 1], states[k], row);
    } else {
      assert Unsent(EMPTY_QUEUE, row) == {};
    }
  }

  predicate IsPublished(t: Tables, row: Id) {
    row in t.outbox && t.outbox[row].published
  }

  predicate Takes(event: Event, row: Id) {
    event.Execute? && event.entry.answer.RowTaken? && event.entry.answer.row == row
  }

  lemma PublishedEntry(t: Tables, e: Entry, row: Id)
    requires Allowed(t, e) && IsPublished(t, row)
    ensures IsPublished(Effect(t, e), row) && !(e.answer.RowTaken? && e.answer.row == row)
  {
  }

  lemma PublishedStep(s: System, event: Event, s': System, row: Id)
    requires Moves(s, event, s') && !event.Rewind? && IsPublished(s.tables, row)
    ensures IsPublished(s'.tables, row) && !Takes(event, row)
  {
    if event.Execute? {
      PublishedEntry(s.tables, event.entry, row);
    }
  }

  lemma PublishedAt(states: seq<System>, events: seq<Event>, k: nat, row: Id)
    requires Path(states, events) && NoRewind(events) && k < |events| && IsPublished(states[k].tables, row)
    ensures IsPublished(states[k + 1].tables, row) && !Takes(events[k], row)
  {
    PublishedStep(states[k], events[k], states[k + 1], row);
  }

  /** A published row stays published and is never taken again. */
  lemma {:induction false} PublishedIsFinal(states: seq<System>, events: seq<Event>, j: nat, k: nat, row: Id)
    requires Path(states, events) && NoRewind(events) && j <= k < |events| && IsPublished(states[j].tables, row)
    ensures IsPublished(states[k + 1].tables, row) && !Takes(events[k], row)
    decreases k - j
  {
    if j < k {
      PublishedIsFinal(states, events, j, k - 1, row);
    }
    PublishedAt(states, events, k, row);
  }
}
