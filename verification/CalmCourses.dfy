/** Courses without arrivals and faults, known by where they lead and how often they deliver a message. */
module CalmCourses {
  import opened Records
  import opened AtomicStore
  import opened Settlement
  import opened Statements
  import opened Broker
  import opened Delivery
  import opened Duty
  import opened WholeSystem
  import opened WholeRuns
  import opened Contention
  import opened Duplicates
  import opened Sets

  /** A calm course from one world to another delivers the message d times. */
  ghost predicate Leads(hash: Id -> int, w: World, w': World, m: Message, d: nat) {
    exists worlds, moves ::
      && Course(hash, worlds, moves) && Calm(hash, worlds, moves)
      && worlds[0] == w && worlds[|moves|] == w' && DeliveriesOf(moves, m) == d
  }

  lemma LeadsNowhere(hash: Id -> int, w: World, m: Message)
    ensures Leads(hash, w, w, m, 0)
  {
    var worlds, moves: seq<Move> := [w], [];
    assert Course(hash, worlds, moves) && Calm(hash, worlds, moves) && DeliveriesOf(moves, m) == 0;
  }

  lemma LeadsOn(hash: Id -> int, w: World, now: World, move: Move, next: World, m: Message, d: nat)
    requires Leads(hash, w, now, m, d) && Turns(hash, now, move, next) && CalmMove(hash, now, move)
    ensures Leads(hash, w, next, m, d + (if DeliversOf(move, m) then 1 else 0))
  {
    var worlds, moves :|
      Course(hash, worlds, moves) && Calm(hash, worlds, moves)
      && worlds[0] == w && worlds[|moves|] == now && DeliveriesOf(moves, m) == d;
    var worlds', moves' := worlds + [next], moves + [move];
    ExtendCourse(hash, worlds, moves, move, next);
    forall k | 0 <= k < |moves'| ensures Income(hash, worlds'[k], moves'[k]) == 0 && !Restores(moves'[k]) {
      assert k < |moves| ==> Income(hash, worlds[k], moves[k]) == 0 && !Restores(moves[k]);
    }
    assert moves'[..|moves|] == moves;
  }

  lemma {:induction false} DeliveriesJoin(moves: seq<Move>, moves': seq<Move>, m: Message)
    ensures DeliveriesOf(moves + moves', m) == DeliveriesOf(moves, m) + DeliveriesOf(moves', m)
    decreases |moves'|
  {
    if moves' == [] {
      assert moves + moves' == moves;
    } else {
      var n := |moves'| - 1;
      assert (moves + moves')[..|moves| + n] == moves + moves'[..n];
      DeliveriesJoin(moves, moves'[..n], m);
    }
  }

  lemma CalmJoins(
    hash: Id -> int, worlds: seq<World>, moves: seq<Move>, worlds': seq<World>, moves': seq<Move>)
    requires |worlds| == |moves| + 1 && |worlds'| == |moves'| + 1 && worlds[|moves|] == worlds'[0]
    requires Calm(hash, worlds, moves) && Calm(hash, worlds', moves')
    ensures Calm(hash, worlds + worlds'[1..], moves + moves')
  {
    var ws, ms := worlds + worlds'[1..], moves + moves';
    forall k | 0 <= k < |ms| ensures Income(hash, ws[k], ms[k]) == 0 && !Restores(ms[k]) {
      if k < |moves| {
        assert Income(hash, worlds[k], moves[k]) == 0 && !Restores(moves[k]);
        assert ws[k] == worlds[k] && ms[k] == moves[k];
      } else {
        var i := k - |moves|;
        assert Income(hash, worlds'[i], moves'[i]) == 0 && !Restores(moves'[i]);
        assert ws[k] == worlds'[i] && ms[k] == moves'[i];
      }
    }
  }

  lemma LeadsFurther(hash: Id -> int, w: World, now: World, next: World, m: Message, d: nat, e: nat)
    requires Leads(hash, w, now, m, d) && Leads(hash, now, next, m, e)
    ensures Leads(hash, w, next, m, d + e)
  {
    var worlds, moves :|
      Course(hash, worlds, moves) && Calm(hash, worlds, moves)
      && worlds[0] == w && worlds[|moves|] == now && DeliveriesOf(moves, m) == d;
    var worlds', moves' :|
      Course(hash, worlds', moves') && Calm(hash, worlds', moves')
      && worlds'[0] == now && worlds'[|moves'|] == next && DeliveriesOf(moves', m) == e;
    JoinCourses(hash, worlds, moves, worlds', moves');
    DeliveriesJoin(moves, moves', m);
    CalmJoins(hash, worlds, moves, worlds', moves');
  }

  lemma LeadsToLawful(hash: Id -> int, w: World, w': World, m: Message, d: nat)
    requires Lawful(hash, w) && Leads(hash, w, w', m, d)
    ensures Lawful(hash, w')
  {
    var worlds, moves :|
      Course(hash, worlds, moves) && Calm(hash, worlds, moves)
      && worlds[0] == w && worlds[|moves|] == w' && DeliveriesOf(moves, m) == d;
    CourseKeepsLawful(hash, worlds, moves, |moves|);
  }

  /** The world after a broker step. */
  function Stepped(w: World, step: Step): World
    requires Enabled(w.queue, step)
  {
    w.(queue := Apply(w.queue, step))
  }

  lemma LeadsByStep(hash: Id -> int, w: World, now: World, step: Step, m: Message, d: nat)
    requires Leads(hash, w, now, m, d) && Enabled(now.queue, step) && Smooth(step) && !step.Halt?
    ensures Leads(hash, w, Stepped(now, step), m, d + (if DeliversOf(OfBroker(step), m) then 1 else 0))
  {
    LeadsOn(hash, w, now, OfBroker(step), Stepped(now, step), m, d);
  }

  function Began(w: World, c: Client, op: Operation): World {
    w.(db := w.db.(open := w.db.open[c := Open(op)]))
  }

  lemma LeadsByBegin(hash: Id -> int, w: World, now: World, c: Client, op: Operation, m: Message, d: nat)
    requires Leads(hash, w, now, m, d) && c !in now.db.open && c !in now.killed && MayRun(now.queue, c, op)
    ensures Leads(hash, w, Began(now, c, op), m, d)
  {
    LeadsOn(hash, w, now, OfDatabase(Begin(c, op), true), Began(now, c, op), m, d);
  }

  /** The world after the client's next statement, its answer heard. */
  ghost function Ran(hash: Id -> int, w: World, c: Client): World
    requires c in w.db.open
  {
    match Statement(hash, w.db, c)
    case Waits => w
    case Proceeds(tx, next) => w.(db := w.db.(open := w.db.open[c := tx], next := next))
    case Answers(answer, tables) =>
      var log := w.db.log + [Entry(Purpose(w.db.open[c]), answer)];
      w.(db := w.db.(tables := tables, log := log, open := w.db.open - {c}), queue := Hear(w.queue, c, Heard(answer)))
    case Errs => w.(db := w.db.(open := w.db.open - {c}), queue := Hear(w.queue, c, StoreError))
  }

  lemma LeadsByRun(hash: Id -> int, w: World, now: World, c: Client, m: Message, d: nat)
    requires Leads(hash, w, now, m, d) && c in now.db.open && !Statement(hash, now.db, c).Waits?
    requires Statement(hash, now.db, c).Answers? ==> !Statement(hash, now.db, c).answer.JobAccepted?
    ensures Leads(hash, w, Ran(hash, now, c), m, d)
  {
    LeadsOn(hash, w, now, OfDatabase(Run(c), true), Ran(hash, now, c), m, d);
  }

  lemma {:induction false} UpperBound(s: set<int>) returns (bound: int)
    ensures forall x :: x in s ==> x < bound
    decreases |s|
  {
    bound := 0;
    if s != {} {
      var x := AnyOf(s);
      var rest := UpperBound(s - {x});
      bound := if x < rest then rest else x + 1;
      assert forall y :: y in s ==> y == x || y in s - {x};
    }
  }

  lemma IdleWorker(q: Queue) returns (v: int)
    ensures v !in q.workers
  {
    v := UpperBound(q.workers.Keys);
    assert v !in q.workers.Keys;
  }

  /** A worker that was idle takes a queued copy. */
  lemma DeliverToIdle(hash: Id -> int, w0: World, w: World, m: Message, d: nat) returns (v: int)
    requires Leads(hash, w0, w, m, d) && Process(m) in w.queue.ready
    ensures v !in w.queue.workers && Leads(hash, w0, Stepped(w, Deliver(v, Process(m))), m, d + 1)
  {
    v := IdleWorker(w.queue);
    LeadsByStep(hash, w0, w, Deliver(v, Process(m)), m, d);
  }

  lemma SettleReturns(q: Queue, r: int, m: Message)
    requires r in ReturningOf(q, m)
    ensures Enabled(q, Settle(r))
    ensures var q' := Apply(q, Settle(r));
            && q' == q.(workers := q.workers - {r}, ready := q.ready + multiset{Process(m)})
            && Around(q', m) == Around(q, m) && Queued(q', m) == Queued(q, m)
            && ReturningOf(q', m) == ReturningOf(q, m) - {r}
  {
    var q' := Apply(q, Settle(r));
    assert r in Holders(q, m);
    assert Holders(q', m) == Holders(q, m) - {r};
    assert ReturningOf(q', m) == ReturningOf(q, m) - {r};
  }

  /** In calm, every copy queued or about to be requeued can be delivered. */
  lemma {:induction false} Flush(hash: Id -> int, w: World, m: Message) returns (w': World)
    ensures Leads(hash, w, w', m, Queued(w.queue, m))
    decreases |ReturningOf(w.queue, m)|, w.queue.ready[Process(m)]
  {
    LeadsNowhere(hash, w, m);
    if ReturningOf(w.queue, m) != {} {
      var r := AnyOf(ReturningOf(w.queue, m));
      SettleReturns(w.queue, r, m);
      var settled := Stepped(w, Settle(r));
      LeadsByStep(hash, w, w, Settle(r), m, 0);
      w' := Flush(hash, settled, m);
      LeadsFurther(hash, w, settled, w', m, 0, Queued(settled.queue, m));
    } else if Process(m) in w.queue.ready {
      var v := DeliverToIdle(hash, w, w, m, 0);
      var taken := Stepped(w, Deliver(v, Process(m)));
      DeliverKeepsCopies(w.queue, v, Process(m), m);
      assert ReturningOf(taken.queue, m) == {};
      w' := Flush(hash, taken, m);
      LeadsFurther(hash, w, taken, w', m, 1, Queued(taken.queue, m));
    } else {
      w' := w;
    }
  }
}
