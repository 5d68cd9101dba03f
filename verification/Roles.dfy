/** What every delivery of a message can still do to its job, and how many deliveries the job can still cost at most. */
module Roles {
  import opened Records
  import opened AtomicStore
  import opened SuccessInvariant
  import opened History
  import opened Settlement
  import opened Statements
  import opened Serializability
  import opened Broker
  import opened Delivery
  import opened Deliveries
  import opened WholeSystem
  import opened Contention
  import opened Duplicates

  // ----- Roles -----

  /** The parts a worker with a copy of an accepted job's message can play. */
  datatype Role =
    | Undecided     // connected, its processor has not spoken
    | Failing       // connected, its processor has failed, the failure is not committed
    | Succeeding    // connected, its processor has succeeded, it is without the item's key
    | Closing       // connected, its completion has the key and has not updated the job
    | Loose         // disconnected, it can still come to record a failure
    | LooseWritten  // disconnected, its failure is written and not committed
    | Blocking      // its completion has the key and will return no copy: it is disconnected, or has updated the job
    | Out           // it has decided, or was killed, or is disconnected and without the key

  /** The completion has the item's key. */
  predicate IsCompletion(tx: Transaction) {
    tx.CompleteLocked? || PastRead(tx) || tx.CompleteJobDone?
  }

  function RoleOf(w: World, v: int): Role
    requires v in w.queue.workers
  {
    var work, c := w.queue.workers[v], Worker(v);
    if c in w.killed || work.stage.Decided? then Out
    else match work.stage
      case Recording =>
        if c in w.db.open && w.db.open[c].FailureMissed? then Out
        else if work.owned then Failing
        else if c in w.db.open && w.db.open[c].FailureWritten? then LooseWritten
        else Loose
      case Completing =>
        if c in w.db.open && IsCompletion(w.db.open[c]) then
          if work.owned && !w.db.open[c].CompleteJobDone? then Closing else Blocking
        else if work.owned then Succeeding
        else Out
      case _ => if work.owned then Undecided else Loose
  }

  predicate Holds(w: World, m: Message, v: int) {
    v in w.queue.workers && w.queue.workers[v].body == Process(m)
  }

  /** A worker without the message plays no part. */
  function PartOf(w: World, m: Message, v: int): Role {
    if Holds(w, m, v) then RoleOf(w, v) else Out
  }

  function Cast(w: World, m: Message, role: Role): set<int> {
    set v | v in w.queue.workers && w.queue.workers[v].body == Process(m) && RoleOf(w, v) == role
  }

  /** How many play each part; queued copies count with the undecided, for what they can become. */
  datatype Tally = Tally(
    able: nat, failing: nat, succeeding: nat, closing: nat, loose: nat, looseWritten: nat, blocking: nat)

  function TallyOf(w: World, m: Message): Tally {
    Tally(Queued(w.queue, m) + |Cast(w, m, Undecided)|, |Cast(w, m, Failing)|, |Cast(w, m, Succeeding)|,
          |Cast(w, m, Closing)|, |Cast(w, m, Loose)|, |Cast(w, m, LooseWritten)|, |Cast(w, m, Blocking)|)
  }

  /** Who can still fail: connected ones, whose copies return, and all. */
  function Failers(t: Tally): nat {
    t.able + t.failing + t.loose + t.looseWritten
  }

  /** One delivery can be brought before its guarded update, as a connected copy that will be requeued in vain, while
      others use up the remaining attempts, each but the last requeueing a connected copy.
      - A completion with the key that returns no copy shuts out every other one; a written failure of a disconnected
        worker that is not the last wastes an attempt.
      - If a connected completion has the key, the others need a connected failure, or any if it is the last.
      - If nobody has it, two are needed: with attempts to spare one connected that can fail, and one more of any kind;
        without, one that can complete and another that can fail. */
  predicate Exceeds(t: Tally, credit: nat) {
    && t.blocking == 0 && (t.looseWritten > 0 ==> credit == 0)
    && if t.closing > 0 then t.able + t.failing > 0 || (credit == 0 && t.loose + t.looseWritten > 0)
       else if credit > 0 then t.able + t.failing > 0 && t.able + t.failing + t.loose + t.succeeding >= 2
       else (t.able > 0 && Failers(t) + t.succeeding >= 2) || (t.succeeding > 0 && Failers(t) > 0)
  }

  // ----- The tally over one turn -----

  ghost predicate OthersPlayOn(w: World, w': World, m: Message, v: int) {
    forall u :: u == v || PartOf(w', m, u) == PartOf(w, m, u)
  }

  function Is(role: Role, other: Role): int {
    if role == other then 1 else 0
  }

  lemma OneChanges(w: World, w': World, m: Message, v: int, role: Role)
    requires OthersPlayOn(w, w', m, v) && role != Out
    ensures |Cast(w', m, role)| == |Cast(w, m, role)| - Is(PartOf(w, m, v), role) + Is(PartOf(w', m, v), role)
  {
    var cast, cast' := Cast(w, m, role), Cast(w', m, role);
    forall u ensures u in cast - {v} <==> u in cast' - {v} {
      assert u == v || PartOf(w', m, u) == PartOf(w, m, u);
    }
    assert cast - {v} == cast' - {v};
    assert |cast| == |cast - {v}| + (if v in cast then 1 else 0);
    assert |cast'| == |cast' - {v}| + (if v in cast' then 1 else 0);
    assert v in cast <==> PartOf(w, m, v) == role;
    assert v in cast' <==> PartOf(w', m, v) == role;
  }

  /** One worker goes from one part to another, and the queue gets some copies more or less. */
  predicate Shifts(t: Tally, t': Tally, from: Role, to: Role, more: int) {
    && t'.able == t.able + more - Is(from, Undecided) + Is(to, Undecided)
    && t'.failing == t.failing - Is(from, Failing) + Is(to, Failing)
    && t'.succeeding == t.succeeding - Is(from, Succeeding) + Is(to, Succeeding)
    && t'.closing == t.closing - Is(from, Closing) + Is(to, Closing)
    && t'.loose == t.loose - Is(from, Loose) + Is(to, Loose)
    && t'.looseWritten == t.looseWritten - Is(from, LooseWritten) + Is(to, LooseWritten)
    && t'.blocking == t.blocking - Is(from, Blocking) + Is(to, Blocking)
  }

  lemma TallyShifts(w: World, w': World, m: Message, v: int)
    requires OthersPlayOn(w, w', m, v)
    ensures Shifts(TallyOf(w, m), TallyOf(w', m), PartOf(w, m, v), PartOf(w', m, v),
                   Queued(w'.queue, m) - Queued(w.queue, m))
  {
    OneChanges(w, w', m, v, Undecided);
    OneChanges(w, w', m, v, Failing);
    OneChanges(w, w', m, v, Succeeding);
    OneChanges(w, w', m, v, Closing);
    OneChanges(w, w', m, v, Loose);
    OneChanges(w, w', m, v, LooseWritten);
    OneChanges(w, w', m, v, Blocking);
  }

  /** What a calm turn can do to the part of one worker and the queue, while the job stays accepted: spent attempts,
      and deliveries. */
  predicate Plays(from: Role, to: Role, more: int, spent: nat, delivered: nat) {
    || (from == to && more == 0 && spent == 0 && delivered == 0)
    || (from == Out && to == Undecided && more == -1 && spent == 0 && delivered == 1)
    || (more == 0 && spent == 0 && delivered == 0 &&
        ((from == Undecided && to in {Succeeding, Failing}) || (from == Loose && to in {Out, LooseWritten})
         || (from == Succeeding && to == Closing) || (from in {Out, Closing} && to == Blocking)))
    || (from == Failing && to == Out && more == 1 && spent == 1 && delivered == 0)
    || (from == LooseWritten && to == Out && more == 0 && spent == 1 && delivered == 0)
  }

  function Bit(b: bool): nat {
    if b then 1 else 0
  }

  /** No play gains anything; a written failure is the only one, since it locks the job's row. */
  lemma PlayPays(t: Tally, t': Tally, from: Role, to: Role, more: int, credit: nat, spent: nat, delivered: nat)
    requires Shifts(t, t', from, to, more) && Plays(from, to, more, spent, delivered) && spent <= credit
    requires from == Failing && to == Out ==> t.looseWritten == 0
    ensures more + credit - spent + Bit(Exceeds(t', credit - spent)) + delivered <= credit + Bit(Exceeds(t, credit))
  {
  }

  // ----- The most a job can still cost -----

  /** Connected completions past their read: if the job has failed, each will return its copy. */
  function Clashers(w: World, m: Message): set<int> {
    set v | v in w.queue.workers && w.queue.workers[v].body == Process(m) && w.queue.workers[v].owned
            && Worker(v) in w.db.open && PastRead(w.db.open[Worker(v)])
  }

  /** The deliveries a job's message can still cost in calm. */
  function Prospect(w: World, job: Id): nat
    requires job in w.db.tables.jobs
  {
    var m, row := OwnMessage(w.db.tables, job), w.db.tables.jobs[job];
    match row.state
    case Accepted => Queued(w.queue, m) + Credit(row) + Bit(Exceeds(TallyOf(w, m), Credit(row)))
    case Failed => Queued(w.queue, m) + |Clashers(w, m)|
    case Succeeded => Queued(w.queue, m)
  }

  /** No failure recording that has missed the job is about to find it accepted: only a restore can lead there. */
  ghost predicate NoneMissed(s: State, job: Id) {
    forall c :: c in s.open && s.open[c].FailureMissed? && s.open[c].job == job ==>
          !Active(s.tables, s.open[c].item, job)
  }

  // Without a restore, nobody ever looks up a job he missed and finds it accepted.

  /** A worker past its inspection knows a job that exists. */
  predicate IsInformed(t: Tables, work: Work) {
    work.body.Process? && (work.stage.Cleared? || work.stage.Completing? || work.stage.Recording?) ==>
      work.body.message.job in t.jobs && OwnMessage(t, work.body.message.job) == work.body.message
  }

  /** What a recording has missed has ended. */
  predicate HasEnded(t: Tables, tx: Transaction) {
    tx.FailureMissed? ==> tx.job in t.jobs && t.jobs[tx.job].item == tx.item && Terminal(t.jobs[tx.job])
  }

  ghost predicate Informed(w: World) {
    && (forall v :: v in w.queue.workers ==> IsInformed(w.db.tables, w.queue.workers[v]))
    && (forall c :: c in w.db.open ==> HasEnded(w.db.tables, w.db.open[c]))
  }

  lemma InformedMissesNone(w: World, job: Id)
    requires Informed(w)
    ensures NoneMissed(w.db, job)
  {
    forall c | c in w.db.open && w.db.open[c].FailureMissed? && w.db.open[c].job == job
      ensures !Active(w.db.tables, w.db.open[c].item, job)
    {
      assert HasEnded(w.db.tables, w.db.open[c]);
    }
  }

  lemma StepKeepsInformed(t: Tables, q: Queue, step: Step)
    requires Enabled(q, step) && forall v :: v in q.workers ==> IsInformed(t, q.workers[v])
    ensures forall v :: v in Apply(q, step).workers ==> IsInformed(t, Apply(q, step).workers[v])
  {
    forall v | v in Apply(q, step).workers ensures IsInformed(t, Apply(q, step).workers[v]) {
      assert v in q.workers ==> IsInformed(t, q.workers[v]);
    }
  }

  /** An inspection lets a worker go on only with a job that exists. */
  lemma HearKeepsInformed(t: Tables, q: Queue, c: Client, reply: Reply)
    requires forall v :: v in q.workers ==> IsInformed(t, q.workers[v])
    requires c.Worker? && Awaited(q, c).Some? && Awaited(q, c).value.InspectJob? && reply.Heard?
             && reply.answer.JobFound? ==>
               var op := Awaited(q, c).value; op.job in t.jobs && t.jobs[op.job].item == op.item
    ensures forall v :: v in Hear(q, c, reply).workers ==> IsInformed(t, Hear(q, c, reply).workers[v])
  {
    forall v | v in Hear(q, c, reply).workers ensures IsInformed(t, Hear(q, c, reply).workers[v]) {
      assert v in q.workers && IsInformed(t, q.workers[v]);
    }
  }

  lemma ExtensionKeepsInformed(t: Tables, t': Tables, q: Queue)
    requires Extends(t, t') && forall v :: v in q.workers ==> IsInformed(t, q.workers[v])
    ensures forall v :: v in q.workers ==> IsInformed(t', q.workers[v])
  {
    forall v | v in q.workers ensures IsInformed(t', q.workers[v]) {
      assert IsInformed(t, q.workers[v]);
    }
  }

  lemma RunKeepsEnded(hash: Id -> int, w: World, c: Client, d: Client)
    requires Lawful(hash, w) && Informed(w) && c in w.db.open && d in w.db.open && d != c
    ensures HasEnded(if Statement(hash, w.db, c).Answers?
            then Statement(hash, w.db, c).tables else w.db.tables, w.db.open[d])
  {
    assert HasEnded(w.db.tables, w.db.open[d]);
    if Statement(hash, w.db, c).Answers? {
      AnswerRefines(hash, w.db, c);
      EffectExtends(w.db.tables, Entry(Purpose(w.db.open[c]), Statement(hash, w.db, c).answer));
    }
  }

  lemma ProceedKeepsEnded(hash: Id -> int, w: World, c: Client)
    requires Lawful(hash, w) && Informed(w) && c in w.db.open && Statement(hash, w.db, c).Proceeds?
    ensures HasEnded(w.db.tables, Statement(hash, w.db, c).tx)
  {
    assert MayRun(w.queue, c, Purpose(w.db.open[c]));
    if w.db.open[c].FailureBegun? {
      assert IsInformed(w.db.tables, w.queue.workers[c.worker]);
    }
  }

  lemma RunKeepsInformed(hash: Id -> int, w: World, c: Client, heard: bool, w': World)
    requires Lawful(hash, w) && Informed(w) && Turns(hash, w, OfDatabase(Run(c), heard), w')
    ensures Informed(w')
  {
    var outcome, reply := Statement(hash, w.db, c), HeardReply(hash, w, Run(c), heard);
    forall d | d in w'.db.open ensures HasEnded(w'.db.tables, w'.db.open[d]) {
      if d != c {
        RunKeepsEnded(hash, w, c, d);
      } else {
        ProceedKeepsEnded(hash, w, c);
      }
    }
    if outcome.Answers? {
      var e := Entry(Purpose(w.db.open[c]), outcome.answer);
      assert MayRun(w.queue, c, e.op);
      AnswerRefines(hash, w.db, c);
      EffectExtends(w.db.tables, e);
      ExtensionKeepsInformed(w.db.tables, w'.db.tables, w.queue);
    }
    if !outcome.Proceeds? {
      HearKeepsInformed(w'.db.tables, w.queue, c, reply);
    }
  }

  lemma TurnKeepsInformed(hash: Id -> int, w: World, move: Move, w': World)
    requires Lawful(hash, w) && Informed(w) && Turns(hash, w, move, w') && !Restores(move)
    ensures Informed(w')
  {
    match move
    case OfBroker(step) => StepKeepsInformed(w.db.tables, w.queue, step);
    case GivesUp(c) => HearKeepsInformed(w.db.tables, w.queue, c, StoreError);
    case OfDatabase(Run(c), heard) => RunKeepsInformed(hash, w, c, heard, w');
    case OfDatabase(Drop(c), _) => HearKeepsInformed(w.db.tables, w.queue, c, StoreError);
    case OfDatabase(Begin(c, op), _) =>
    case OfDatabase(Backup, _) =>
  }

  lemma {:induction false} NoRestoreMissesNone(hash: Id -> int, worlds: seq<World>, moves: seq<Move>, k: nat)
    requires Chronicle(hash, worlds, moves) && NoRestore(moves) && k < |worlds|
    ensures Informed(worlds[k]) && forall job :: NoneMissed(worlds[k].db, job)
    decreases k
  {
    if k > 0 {
      NoRestoreMissesNone(hash, worlds, moves, k - 1);
      CourseKeepsLawful(hash, worlds, moves, k - 1);
      assert !Restores(moves[k - 1]);
      TurnKeepsInformed(hash, worlds[k - 1], moves[k - 1], worlds[k]);
    }
    forall job ensures NoneMissed(worlds[k].db, job) {
      InformedMissesNone(worlds[k], job);
    }
  }

  // ----- Broker steps -----

  lemma DeliverPlays(w: World, u: int, body: Body, m: Message)
    requires Linked(w) && Enabled(w.queue, Deliver(u, body))
    ensures var w' := w.(queue := Apply(w.queue, Deliver(u, body)));
            && OthersPlayOn(w, w', m, u)
            && Plays(PartOf(w, m, u), PartOf(w', m, u), Queued(w'.queue, m) - Queued(w.queue, m), 0,
                Bit(body == Process(m)))
  {
    DeliverKeepsCopies(w.queue, u, body, m);
    assert Worker(u) in w.killed ==> IsWaiting(w.queue, Worker(u));
  }

  lemma SettlePlays(w: World, u: int, m: Message)
    requires Enabled(w.queue, Settle(u))
    ensures var w' := w.(queue := Apply(w.queue, Settle(u)));
            OthersPlayOn(w, w', m, u) && PartOf(w', m, u) == PartOf(w, m, u)
            && Queued(w'.queue, m) <= Queued(w.queue, m)
  {
    SettleKeepsCopies(w.queue, u, m);
  }

  /** The worker decodes, or its processor speaks. */
  lemma StagePlays(w: World, step: Step, m: Message)
    requires Linked(w) && Enabled(w.queue, step) && (step.Decode? || step.Processed?)
    ensures var w' := w.(queue := Apply(w.queue, step));
            && OthersPlayOn(w, w', m, step.worker) && Queued(w'.queue, m) == Queued(w.queue, m)
            && Plays(PartOf(w, m, step.worker), PartOf(w', m, step.worker), 0, 0, 0)
  {
    var u, q' := step.worker, Apply(w.queue, step);
    assert Worker(u) in w.killed ==> IsWaiting(w.queue, Worker(u));
    assert Worker(u) in w.db.open ==> MayRun(w.queue, Worker(u), Purpose(w.db.open[Worker(u)]));
    StagesKeepQueued(w.queue, q', m, u);
  }

  lemma StagesKeepQueued(q: Queue, q': Queue, m: Message, u: int)
    requires q'.ready == q.ready && u in q.workers && u in q'.workers && q'.workers == q.workers[u := q'.workers[u]]
    requires q'.workers[u].body == q.workers[u].body && (q.workers[u].body == Process(m) ==>
               !IsReturning(q.workers[u]) && !IsReturning(q'.workers[u]))
    ensures Queued(q', m) == Queued(q, m)
  {
    assert ReturningOf(q', m) == ReturningOf(q, m);
  }

  /** Everything else in the broker. */
  lemma OtherPlays(w: World, step: Step, m: Message)
    requires Enabled(w.queue, step) && Smooth(step)
    requires !(step.Deliver? || step.Settle? || step.Decode? || step.Processed?)
    ensures var w' := w.(queue := Apply(w.queue, step));
            w'.queue.workers == w.queue.workers && w'.queue.ready == w.queue.ready
  {
  }

  /** The same part for everybody, and the same copies. */
  ghost predicate Unmoved(w: World, w': World, m: Message) {
    (forall u :: PartOf(w', m, u) == PartOf(w, m, u)) && Queued(w'.queue, m) <= Queued(w.queue, m)
  }

  /** Nobody with the message does anything. */
  lemma NobodyActs(w: World, w': World, m: Message)
    requires w'.queue.workers == w.queue.workers && w'.queue.ready == w.queue.ready
    requires forall u :: Holds(w, m, u) ==> (Worker(u) in w'.killed <==> Worker(u) in w.killed)
    requires forall u :: Holds(w, m, u) ==> (Worker(u) in w'.db.open <==> Worker(u) in w.db.open)
    requires forall u :: Holds(w, m, u) && Worker(u) in w.db.open ==> w'.db.open[Worker(u)] == w.db.open[Worker(u)]
    ensures Unmoved(w, w', m)
  {
    SameCopies(w.queue, w'.queue, m);
  }

  // ----- The account of one job -----

  /** One worker's play, the job still accepted. */
  lemma PlayIsPaid(w: World, w': World, job: Id, v: int, spent: nat, delivered: nat)
    requires HasJob(w.db.tables, job, Accepted) && HasJob(w'.db.tables, job, Accepted)
    requires OwnMessage(w'.db.tables, job) == OwnMessage(w.db.tables, job)
    requires Credit(w'.db.tables.jobs[job]) + spent == Credit(w.db.tables.jobs[job])
    requires var m := OwnMessage(w.db.tables, job);
             && OthersPlayOn(w, w', m, v)
             && Plays(PartOf(w, m, v), PartOf(w', m, v), Queued(w'.queue, m) - Queued(w.queue, m), spent, delivered)
             && (PartOf(w, m, v) == Failing && PartOf(w', m, v) == Out ==> Cast(w, m, LooseWritten) == {})
    ensures Prospect(w', job) + delivered <= Prospect(w, job)
  {
    var m := OwnMessage(w.db.tables, job);
    TallyShifts(w, w', m, v);
    PlayPays(TallyOf(w, m), TallyOf(w', m), PartOf(w, m, v), PartOf(w', m, v),
             Queued(w'.queue, m) - Queued(w.queue, m), Credit(w.db.tables.jobs[job]), spent, delivered);
  }

  /** Fewer queued copies, the same parts. */
  lemma UnmovedIsPaid(w: World, w': World, job: Id)
    requires HasJob(w.db.tables, job, Accepted) && HasJob(w'.db.tables, job, Accepted)
    requires w'.db.tables.jobs[job] == w.db.tables.jobs[job] && Unmoved(w, w', OwnMessage(w.db.tables, job))
    ensures Prospect(w', job) <= Prospect(w, job)
  {
    var m := OwnMessage(w.db.tables, job);
    TallyShifts(w, w', m, 0);
    FewerCopies(TallyOf(w, m), TallyOf(w', m), Credit(w.db.tables.jobs[job]));
  }

  lemma FewerCopies(t: Tally, t': Tally, credit: nat)
    requires t'.able <= t.able && t' == t.(able := t'.able)
    ensures Exceeds(t', credit) ==> Exceeds(t, credit)
  {
  }

  lemma BrokerIsPaidBy(hash: Id -> int, w: World, step: Step, w': World, job: Id)
    requires Lawful(hash, w) && HasJob(w.db.tables, job, Accepted)
    requires Turns(hash, w, OfBroker(step), w') && CalmMove(hash, w, OfBroker(step))
    ensures Prospect(w', job) + Bit(DeliversOf(OfBroker(step), OwnMessage(w.db.tables, job))) <= Prospect(w, job)
  {
    var m := OwnMessage(w.db.tables, job);
    if step.Deliver? {
      DeliverPlays(w, step.worker, step.body, m);
      PlayIsPaid(w, w', job, step.worker, 0, Bit(step.body == Process(m)));
    } else if step.Settle? {
      SettlePlays(w, step.worker, m);
      UnmovedIsPaid(w, w', job);
    } else if step.Decode? || step.Processed? {
      StagePlays(w, step, m);
      PlayIsPaid(w, w', job, step.worker, 0, 0);
    } else {
      OtherPlays(w, step, m);
      NobodyActs(w, w', m);
      UnmovedIsPaid(w, w', job);
    }
  }

  // ----- Database moves -----

  predicate IsHolder(w: World, c: Client, m: Message) {
    c.Worker? && Holds(w, m, c.worker)
  }

  /** A transaction opens: it has locked and missed nothing. */
  lemma BeginPlays(hash: Id -> int, w: World, c: Client, op: Operation, heard: bool, w': World, m: Message)
    requires Turns(hash, w, OfDatabase(Begin(c, op), heard), w')
    ensures Unmoved(w, w', m)
  {
    SameCopies(w.queue, w'.queue, m);
    var tx := Open(op);
    assert !IsCompletion(tx) && !tx.FailureMissed? && !tx.FailureWritten?;
    assert w'.queue == w.queue && w'.killed == w.killed && w'.db.open == w.db.open[c := tx];
    forall u ensures PartOf(w', m, u) == PartOf(w, m, u) {
      assert Worker(u) != c ==> (Worker(u) in w'.db.open <==> Worker(u) in w.db.open);
    }
  }

  /** A client without the message moves: no part changes. */
  lemma ForeignPlays(w: World, w': World, c: Client, reply: Reply, m: Message)
    requires !IsHolder(w, c, m) && w'.killed - {c} == w.killed - {c} && w'.db.open.Keys - {c} == w.db.open.Keys - {c}
    requires forall d :: d in w.db.open && d in w'.db.open && d != c ==> w'.db.open[d] == w.db.open[d]
    requires w'.queue == w.queue || w'.queue == Hear(w.queue, c, reply)
    ensures Unmoved(w, w', m)
  {
    HearKeepsCopies(w.queue, c, reply, m);
    forall u ensures PartOf(w', m, u) == PartOf(w, m, u) {
      if Holds(w, m, u) {
        assert Worker(u) != c;
        assert Worker(u) in w'.killed <==> Worker(u) in w'.killed - {c};
        assert Worker(u) in w.killed <==> Worker(u) in w.killed - {c};
        assert Worker(u) in w'.db.open.Keys <==> Worker(u) in w'.db.open.Keys - {c};
        assert Worker(u) in w.db.open.Keys <==> Worker(u) in w.db.open.Keys - {c};
      }
    }
  }

  /** What a client without the job's message does to the job: nothing. */
  lemma ForeignSpares(hash: Id -> int, w: World, job: Id, c: Client)
    requires Lawful(hash, w) && job in w.db.tables.jobs && c in w.db.open && Statement(hash, w.db, c).Answers?
    requires !IsHolder(w, c, OwnMessage(w.db.tables, job))
    ensures var outcome := Statement(hash, w.db, c);
            && job in outcome.tables.jobs && outcome.tables.jobs[job] == w.db.tables.jobs[job]
            && (outcome.answer.JobAccepted? ==> c.Api?)
  {
    assert MayRun(w.queue, c, Purpose(w.db.open[c]));
    AnswerRefines(hash, w.db, c);
    ForeignEntry(w.db.tables, w.queue, c, Entry(Purpose(w.db.open[c]), Statement(hash, w.db, c).answer), job);
  }

  lemma ForeignEntry(t: Tables, q: Queue, c: Client, e: Entry, job: Id)
    requires MayRun(q, c, e.op) && Allowed(t, e) && job in t.jobs
    requires c.Worker? ==> q.workers[c.worker].body != Process(OwnMessage(t, job))
    ensures job in Effect(t, e).jobs && Effect(t, e).jobs[job] == t.jobs[job] && (e.answer.JobAccepted? ==> c.Api?)
  {
  }

  lemma ForeignRunIsPaid(hash: Id -> int, w: World, c: Client, heard: bool, w': World, job: Id)
    requires Lawful(hash, w) && job in w.db.tables.jobs && !IsHolder(w, c, OwnMessage(w.db.tables, job))
    requires Turns(hash, w, OfDatabase(Run(c), heard), w')
    ensures job in w'.db.tables.jobs && w'.db.tables.jobs[job] == w.db.tables.jobs[job]
    ensures Unmoved(w, w', OwnMessage(w.db.tables, job))
  {
    var m := OwnMessage(w.db.tables, job);
    if Statement(hash, w.db, c).Answers? {
      ForeignSpares(hash, w, job, c);
    }
    ForeignPlays(w, w', c, HeardReply(hash, w, Run(c), heard), m);
  }

  /** The holder of a job's row, and of an item's key, is one. */
  lemma RowHolder(hash: Id -> int, s: State, c: Client, d: Client, job: Id)
    requires Invariant(hash, s) && c in s.open && d in s.open && HoldsJobRow(s.open[c], job)
             && HoldsJobRow(s.open[d], job)
    ensures c == d
  {
    assert c != d ==> Apart(hash, s.open[c], s.open[d]);
  }

  lemma OneKey(hash: Id -> int, s: State, c: Client, d: Client)
    requires Invariant(hash, s) && c in s.open && d in s.open && IsCompletion(s.open[c]) && IsCompletion(s.open[d])
    requires s.open[c].item == s.open[d].item
    ensures c == d
  {
    assert c != d ==> Apart(hash, s.open[c], s.open[d]);
  }

  /** The worker's transaction is about its message, and does what its stage says. */
  lemma HolderRuns(hash: Id -> int, w: World, v: int, job: Id)
    requires Lawful(hash, w) && HasJob(w.db.tables, job, Accepted) && Worker(v) in w.db.open
    requires Holds(w, OwnMessage(w.db.tables, job), v)
    ensures var m, tx, stage := OwnMessage(w.db.tables, job), w.db.open[Worker(v)], w.queue.workers[v].stage;
            && Worker(v) !in w.killed
            && (stage.Inspecting? ==> tx == InspectBegun(m.job, m.item))
            && (stage.Completing? ==> (tx.CompleteBegun? || IsCompletion(tx)) && tx.job == m.job && tx.item == m.item)
            && (stage.Recording? ==> (tx.FailureBegun? || tx.FailureMissed? || tx.FailureWritten?)
                                     && tx.job == m.job && tx.item == m.item
                                     && tx.code == FAILURE_CODE && tx.limit == MAX_ATTEMPTS)
            && (stage.Inspecting? || stage.Completing? || stage.Recording?)
  {
    assert MayRun(w.queue, Worker(v), Purpose(w.db.open[Worker(v)]));
  }

  predicate CompletionStep(tx: Transaction, next: Transaction) {
    (tx.CompleteBegun? && next.CompleteLocked?) || (IsCompletion(tx) && !tx.CompleteJobDone? && IsCompletion(next))
  }

  /** Where a statement of a worker with the message leads, if its transaction stays open. */
  lemma ProceedsTo(hash: Id -> int, w: World, v: int, job: Id)
    requires Lawful(hash, w) && HasJob(w.db.tables, job, Accepted)
    requires Worker(v) in w.db.open && Holds(w, OwnMessage(w.db.tables, job), v)
    requires Statement(hash, w.db, Worker(v)).Proceeds?
    ensures var tx, next, stage := w.db.open[Worker(v)], Statement(hash, w.db, Worker(v)).tx, w.queue.workers[v].stage;
            && (stage.Completing? || stage.Recording?) && Worker(v) !in w.killed
            && (stage.Completing? ==> CompletionStep(tx, next))
            && (stage.Recording? ==> tx.FailureBegun? && next.FailureWritten?)
  {
    HolderRuns(hash, w, v, job);
  }

  /** The part of a connected or disconnected worker with an open transaction. */
  function PartWith(work: Work, tx: Transaction): Role {
    if work.stage.Completing? then
      if IsCompletion(tx) then (if work.owned && !tx.CompleteJobDone? then Closing else Blocking)
      else if work.owned then Succeeding else Out
    else if tx.FailureMissed? then Out
    else if work.owned then Failing
    else if tx.FailureWritten? then LooseWritten else Loose
  }

  lemma PartIs(w: World, m: Message, v: int)
    requires Holds(w, m, v) && Worker(v) !in w.killed && Worker(v) in w.db.open
    requires w.queue.workers[v].stage.Completing? || w.queue.workers[v].stage.Recording?
    ensures PartOf(w, m, v) == PartWith(w.queue.workers[v], w.db.open[Worker(v)])
  {
  }

  lemma OneTransaction(w: World, w': World, m: Message, v: int)
    requires w'.queue == w.queue && w'.killed == w.killed && Worker(v) in w.db.open && Worker(v) in w'.db.open
    requires w'.db.open == w.db.open[Worker(v) := w'.db.open[Worker(v)]]
    ensures OthersPlayOn(w, w', m, v)
  {
  }

  /** A statement of a worker with the message that leaves its transaction open. */
  lemma ProceedPlays(hash: Id -> int, w: World, v: int, heard: bool, w': World, job: Id)
    requires Lawful(hash, w) && HasJob(w.db.tables, job, Accepted)
    requires Worker(v) in w.db.open && Holds(w, OwnMessage(w.db.tables, job), v)
    requires Turns(hash, w, OfDatabase(Run(Worker(v)), heard), w') && Statement(hash, w.db, Worker(v)).Proceeds?
    ensures w'.db.tables == w.db.tables && w'.queue == w.queue
    ensures var m := OwnMessage(w.db.tables, job);
            OthersPlayOn(w, w', m, v) && Plays(PartOf(w, m, v), PartOf(w', m, v), 0, 0, 0)
  {
    var m := OwnMessage(w.db.tables, job);
    ProceedsTo(hash, w, v, job);
    var next := Statement(hash, w.db, Worker(v)).tx;
    assert w'.queue == w.queue && w'.killed == w.killed && w'.db.open == w.db.open[Worker(v) := next];
    OneTransaction(w, w', m, v);
    PartIs(w, m, v);
    PartIs(w', m, v);
    HolderRuns(hash, w, v, job);
    ProceedRoles(w.queue.workers[v], w.db.open[Worker(v)], next);
  }

  lemma ProceedRoles(work: Work, tx: Transaction, next: Transaction)
    requires if work.stage.Completing? then CompletionStep(tx, next) else tx.FailureBegun? && next.FailureWritten?
    ensures Plays(PartWith(work, tx), PartWith(work, next), 0, 0, 0)
  {
  }

  /** A statement of a worker with the message never errs while the job is accepted. */
  lemma HolderNeverErrs(hash: Id -> int, w: World, v: int, job: Id)
    requires Lawful(hash, w) && HasJob(w.db.tables, job, Accepted) && NoneMissed(w.db, job)
    requires Worker(v) in w.db.open && Holds(w, OwnMessage(w.db.tables, job), v)
    ensures !Statement(hash, w.db, Worker(v)).Errs?
  {
    HolderRuns(hash, w, v, job);
    if Statement(hash, w.db, Worker(v)).Errs? {
      ErrsMeansClash(hash, w.db, Worker(v));
    }
  }

  /** What an answer to a worker with the message of an accepted job does. */
  lemma HolderAnswers(hash: Id -> int, w: World, v: int, job: Id)
    requires Lawful(hash, w) && HasJob(w.db.tables, job, Accepted)
    requires Worker(v) in w.db.open && Holds(w, OwnMessage(w.db.tables, job), v)
    requires Statement(hash, w.db, Worker(v)).Answers?
    ensures var outcome, row, tx := Statement(hash, w.db, Worker(v)), w.db.tables.jobs[job], w.db.open[Worker(v)];
            && job in outcome.tables.jobs && outcome.tables.jobs[job].item == row.item && !outcome.answer.JobAccepted?
            && (w.queue.workers[v].stage.Inspecting? ==>
                  outcome.answer == JobFound(row) && outcome.tables.jobs[job] == row)
            && (w.queue.workers[v].stage.Completing? ==> outcome.tables.jobs[job].state == Succeeded)
            && (w.queue.workers[v].stage.Recording? ==>
                  tx.FailureWritten? || (tx.FailureMissed? && outcome.tables.jobs[job] == row))
  {
    HolderRuns(hash, w, v, job);
    assert Current(w.db.tables, w.db.next, w.db.open[Worker(v)]);
  }

  /** The worker hears its answer, and its transaction is gone. */
  ghost predicate Heeds(w: World, w': World, v: int, answer: Answer) {
    && w'.queue == Hear(w.queue, Worker(v), Heard(answer)) && w'.killed == w.killed
    && w'.db.open == w.db.open - {Worker(v)}
  }

  lemma HeedsAlone(w: World, w': World, v: int, answer: Answer, m: Message)
    requires Heeds(w, w', v, answer) && Holds(w, m, v) && Awaited(w.queue, Worker(v)).Some?
    ensures OthersPlayOn(w, w', m, v) && Holds(w', m, v)
    ensures w'.queue == w.queue.(workers := w.queue.workers[v :=
              w.queue.workers[v].(stage := NextStage(w.queue.workers[v].stage, Heard(answer)))])
  {
  }

  /** An inspection finds the job accepted: the part stays. */
  lemma InspectionPlays(w: World, w': World, v: int, row: Job, m: Message)
    requires Heeds(w, w', v, JobFound(row)) && row.state == Accepted && Holds(w, m, v) && Linked(w)
    requires w.queue.workers[v].stage.Inspecting? && Worker(v) in w.db.open && Worker(v) !in w.killed
    ensures Unmoved(w, w', m)
  {
    HeedsAlone(w, w', v, JobFound(row), m);
    StagesKeepQueued(w.queue, w'.queue, m, v);
  }

  lemma FailureCommits(hash: Id -> int, w: World, v: int, job: Id)
    requires Lawful(hash, w) && HasJob(w.db.tables, job, Accepted)
    requires Worker(v) in w.db.open && Holds(w, OwnMessage(w.db.tables, job), v)
    requires w.queue.workers[v].stage.Recording? && w.db.open[Worker(v)].FailureWritten?
    ensures var row := FailedRow(w.db.tables.jobs[job], FAILURE_CODE, MAX_ATTEMPTS);
            && Statement(hash, w.db, Worker(v)).Answers?
            && Statement(hash, w.db, Worker(v)).answer ==
                (if row.state == Failed then Exhausted(row) else Retryable(row))
            && Statement(hash, w.db, Worker(v)).tables == w.db.tables.(jobs := w.db.tables.jobs[job := row])
  {
    HolderRuns(hash, w, v, job);
    assert Current(w.db.tables, w.db.next, w.db.open[Worker(v)]);
  }

  /** A written failure is the only one. */
  lemma NoOtherWritten(hash: Id -> int, w: World, v: int, job: Id)
    requires Lawful(hash, w) && HasJob(w.db.tables, job, Accepted)
    requires Worker(v) in w.db.open && Holds(w, OwnMessage(w.db.tables, job), v) && w.db.open[Worker(v)].FailureWritten?
    requires PartOf(w, OwnMessage(w.db.tables, job), v) == Failing
    ensures Cast(w, OwnMessage(w.db.tables, job), LooseWritten) == {}
  {
    var m := OwnMessage(w.db.tables, job);
    HolderRuns(hash, w, v, job);
    forall u | u in Cast(w, m, LooseWritten) ensures false {
      HolderRuns(hash, w, u, job);
      RowHolder(hash, w.db, Worker(u), Worker(v), job);
    }
  }

  /** A counted retry: the copy returns, if the worker is still connected. */
  lemma RetryPlays(w: World, w': World, v: int, row: Job, m: Message)
    requires Heeds(w, w', v, Retryable(row)) && Holds(w, m, v) && Linked(w)
    requires w.queue.workers[v].stage.Recording? && Worker(v) in w.db.open && Worker(v) !in w.killed
    requires w.db.open[Worker(v)].FailureWritten?
    ensures OthersPlayOn(w, w', m, v)
    ensures Plays(PartOf(w, m, v), PartOf(w', m, v), Queued(w'.queue, m) - Queued(w.queue, m), 1, 0)
  {
    HeedsAlone(w, w', v, Retryable(row), m);
    PartIs(w, m, v);
    var returning := ReturningOf(w.queue, m);
    assert v !in returning;
    if w.queue.workers[v].owned {
      assert ReturningOf(w'.queue, m) == returning + {v};
    } else {
      assert ReturningOf(w'.queue, m) == returning;
    }
  }

  // ----- Answers -----

  lemma RetryIsPaid(hash: Id -> int, w: World, v: int, w': World, job: Id)
    requires Lawful(hash, w) && HasJob(w.db.tables, job, Accepted)
    requires Worker(v) in w.db.open && Holds(w, OwnMessage(w.db.tables, job), v)
    requires w.queue.workers[v].stage.Recording? && w.db.open[Worker(v)].FailureWritten?
    requires var row := FailedRow(w.db.tables.jobs[job], FAILURE_CODE, MAX_ATTEMPTS);
             row.state == Accepted && Heeds(w, w', v, Retryable(row))
             && w'.db.tables.jobs == w.db.tables.jobs[job := row]
    ensures Prospect(w', job) <= Prospect(w, job)
  {
    var m, row := OwnMessage(w.db.tables, job), w'.db.tables.jobs[job];
    HolderRuns(hash, w, v, job);
    RetryPlays(w, w', v, row, m);
    if PartOf(w, m, v) == Failing {
      NoOtherWritten(hash, w, v, job);
    }
    PlayIsPaid(w, w', job, v, 1, 0);
  }

  /** A connected completion that is clashed with makes the job's prospects exceed the promise. */
  lemma ClashWasPossible(hash: Id -> int, w: World, v: int, u: int, job: Id)
    requires Lawful(hash, w) && HasJob(w.db.tables, job, Accepted) && Credit(w.db.tables.jobs[job]) == 0
    requires var m := OwnMessage(w.db.tables, job);
             && Holds(w, m, v) && Worker(v) in w.db.open && w.queue.workers[v].stage.Recording?
             && w.db.open[Worker(v)].FailureWritten? && u in Clashers(w, m)
    ensures Exceeds(TallyOf(w, OwnMessage(w.db.tables, job)), 0)
  {
    var m := OwnMessage(w.db.tables, job);
    HolderRuns(hash, w, v, job);
    HolderRuns(hash, w, u, job);
    PartIs(w, m, v);
    PartIs(w, m, u);
    assert u in Cast(w, m, Closing);
    assert v in Cast(w, m, Failing) || v in Cast(w, m, LooseWritten);
    forall b | b in Cast(w, m, Blocking) ensures false {
      HolderRuns(hash, w, b, job);
      OneKey(hash, w.db, Worker(b), Worker(u));
    }
    assert Cast(w, m, Blocking) == {};
  }

  lemma OneClasher(hash: Id -> int, w: World, job: Id)
    requires Lawful(hash, w) && HasJob(w.db.tables, job, Accepted)
    ensures |Clashers(w, OwnMessage(w.db.tables, job))| <= 1
  {
    var m := OwnMessage(w.db.tables, job);
    forall a, b | a in Clashers(w, m) && b in Clashers(w, m) ensures a == b {
      HolderRuns(hash, w, a, job);
      HolderRuns(hash, w, b, job);
      OnePastRead(hash, w.db, Worker(a), Worker(b));
    }
    AtMostOne(Clashers(w, m));
  }

  lemma NobodyNewClashes(w: World, w': World, v: int, answer: Answer, m: Message)
    requires Heeds(w, w', v, answer) && Holds(w, m, v)
    ensures Clashers(w', m) <= Clashers(w, m)
  {
  }

  lemma ClashersAreCovered(hash: Id -> int, w: World, v: int, job: Id)
    requires Lawful(hash, w) && HasJob(w.db.tables, job, Accepted) && Credit(w.db.tables.jobs[job]) == 0
    requires var m := OwnMessage(w.db.tables, job);
             && Holds(w, m, v) && Worker(v) in w.db.open && w.queue.workers[v].stage.Recording?
             && w.db.open[Worker(v)].FailureWritten?
    ensures var m := OwnMessage(w.db.tables, job);
            |Clashers(w, m)| <= Bit(Exceeds(TallyOf(w, m), 0))
  {
    var m := OwnMessage(w.db.tables, job);
    OneClasher(hash, w, job);
    if u :| u in Clashers(w, m) {
      ClashWasPossible(hash, w, v, u, job);
    }
  }

  lemma Prospects(w: World, job: Id, m: Message)
    requires job in w.db.tables.jobs && OwnMessage(w.db.tables, job) == m
    ensures HasJob(w.db.tables, job, Accepted) ==>
              Prospect(w, job) == Queued(w.queue, m) + Credit(w.db.tables.jobs[job])
                                  + Bit(Exceeds(TallyOf(w, m), Credit(w.db.tables.jobs[job])))
    ensures HasJob(w.db.tables, job, Failed) ==> Prospect(w, job) == Queued(w.queue, m) + |Clashers(w, m)|
  {
  }

  /** The last failure: what it leaves to clash with was in the prospects. */
  lemma LastFailureIsPaid(hash: Id -> int, w: World, v: int, w': World, job: Id)
    requires Lawful(hash, w) && HasJob(w.db.tables, job, Accepted)
    requires Worker(v) in w.db.open && Holds(w, OwnMessage(w.db.tables, job), v)
    requires w.queue.workers[v].stage.Recording? && w.db.open[Worker(v)].FailureWritten?
    requires var row := FailedRow(w.db.tables.jobs[job], FAILURE_CODE, MAX_ATTEMPTS);
             row.state == Failed && Heeds(w, w', v, Exhausted(row)) && w'.db.tables.jobs == w.db.tables.jobs[job := row]
    ensures Prospect(w', job) <= Prospect(w, job)
  {
    var m, row := OwnMessage(w.db.tables, job), w'.db.tables.jobs[job];
    AcceptedHasAttempts(hash, w, job);
    assert Queued(w'.queue, m) <= Queued(w.queue, m) by {
      HearKeepsCopies(w.queue, Worker(v), Heard(Exhausted(row)), m);
    }
    assert |Clashers(w', m)| <= |Clashers(w, m)| by {
      NobodyNewClashes(w, w', v, Exhausted(row), m);
      Subset(Clashers(w', m), Clashers(w, m));
    }
    ClashersAreCovered(hash, w, v, job);
    Prospects(w, job, m);
    Prospects(w', job, m);
  }

  /** A worker with the message hears an answer. */
  lemma HolderAnswerIsPaid(hash: Id -> int, w: World, v: int, w': World, job: Id)
    requires Lawful(hash, w) && HasJob(w.db.tables, job, Accepted) && NoneMissed(w.db, job)
    requires Worker(v) in w.db.open && Holds(w, OwnMessage(w.db.tables, job), v)
    requires Turns(hash, w, OfDatabase(Run(Worker(v)), true), w') && Statement(hash, w.db, Worker(v)).Answers?
    ensures job in w'.db.tables.jobs && OwnMessage(w'.db.tables, job) == OwnMessage(w.db.tables, job)
    ensures Prospect(w', job) <= Prospect(w, job)
  {
    var m, row, outcome := OwnMessage(w.db.tables, job), w.db.tables.jobs[job], Statement(hash, w.db, Worker(v));
    HolderRuns(hash, w, v, job);
    HolderAnswers(hash, w, v, job);
    assert Heeds(w, w', v, outcome.answer);
    var stage := w.queue.workers[v].stage;
    if stage.Inspecting? {
      InspectionPlays(w, w', v, row, m);
      UnmovedIsPaid(w, w', job);
    } else if stage.Completing? {
      LawfulIsSound(hash, w);
      AnswerRefines(hash, w.db, Worker(v));
      assert MayRun(w.queue, Worker(v), Purpose(w.db.open[Worker(v)]));
      HeardKeepsPromise(w, Worker(v), Entry(Purpose(w.db.open[Worker(v)]), outcome.answer), job);
    } else {
      FailureCommits(hash, w, v, job);
      AcceptedHasAttempts(hash, w, job);
      if FailedRow(row, FAILURE_CODE, MAX_ATTEMPTS).state == Failed {
        LastFailureIsPaid(hash, w, v, w', job);
      } else {
        RetryIsPaid(hash, w, v, w', job);
      }
    }
  }

  // ----- Any turn -----

  lemma RunKeepsJob(hash: Id -> int, w: World, c: Client, job: Id)
    requires Lawful(hash, w) && c in w.db.open && job in w.db.tables.jobs
    ensures var outcome, row := Statement(hash, w.db, c), w.db.tables.jobs[job];
            outcome.Answers? ==>
              && job in outcome.tables.jobs && outcome.tables.jobs[job].item == row.item
              && (Terminal(row) ==> outcome.tables.jobs[job] == row)
  {
    if Statement(hash, w.db, c).Answers? {
      AnswerRefines(hash, w.db, c);
      TerminalStaysTerminal(w.db.tables, Entry(Purpose(w.db.open[c]), Statement(hash, w.db, c).answer), job);
    }
  }

  lemma ProceedMissesNone(hash: Id -> int, w: World, c: Client, job: Id)
    requires c in w.db.open && Statement(hash, w.db, c).Proceeds? && Lawful(hash, w)
    ensures var tx := Statement(hash, w.db, c).tx;
            tx.FailureMissed? && tx.job == job ==> !Active(w.db.tables, tx.item, job)
  {
  }

  /** An existing job is never missed and then found accepted, short of a restore. */
  lemma TurnKeepsNoneMissed(hash: Id -> int, w: World, move: Move, w': World, job: Id)
    requires Lawful(hash, w) && job in w.db.tables.jobs && NoneMissed(w.db, job)
    requires Turns(hash, w, move, w') && !Restores(move)
    ensures job in w'.db.tables.jobs && w'.db.tables.jobs[job].item == w.db.tables.jobs[job].item
            && NoneMissed(w'.db, job)
    ensures Terminal(w.db.tables.jobs[job]) ==> w'.db.tables.jobs[job] == w.db.tables.jobs[job]
  {
    if move.OfDatabase? && move.action.Run? {
      RunKeepsJob(hash, w, move.action.client, job);
      if Statement(hash, w.db, move.action.client).Proceeds? {
        ProceedMissesNone(hash, w, move.action.client, job);
      }
    }
  }

  lemma AcceptedTurnIsPaid(hash: Id -> int, w: World, move: Move, w': World, job: Id)
    requires Lawful(hash, w) && HasJob(w.db.tables, job, Accepted) && NoneMissed(w.db, job)
    requires Turns(hash, w, move, w') && CalmMove(hash, w, move) && job in w'.db.tables.jobs
    ensures Prospect(w', job) + Bit(DeliversOf(move, OwnMessage(w.db.tables, job))) <= Prospect(w, job)
  {
    var m := OwnMessage(w.db.tables, job);
    match move
    case OfBroker(step) => BrokerIsPaidBy(hash, w, step, w', job);
    case GivesUp(c) =>
      ForeignPlays(w, w', c, StoreError, m);
      UnmovedIsPaid(w, w', job);
    case OfDatabase(Drop(c), _) =>
      ForeignPlays(w, w', c, StoreError, m);
      UnmovedIsPaid(w, w', job);
    case OfDatabase(Begin(c, op), heard) =>
      BeginPlays(hash, w, c, op, heard, w', m);
      UnmovedIsPaid(w, w', job);
    case OfDatabase(Backup, _) =>
      NobodyActs(w, w', m);
      UnmovedIsPaid(w, w', job);
    case OfDatabase(Run(c), heard) =>
      if !IsHolder(w, c, m) {
        ForeignRunIsPaid(hash, w, c, heard, w', job);
        UnmovedIsPaid(w, w', job);
      } else if Statement(hash, w.db, c).Proceeds? {
        ProceedPlays(hash, w, c.worker, heard, w', job);
        PlayIsPaid(w, w', job, c.worker, 0, 0);
      } else {
        HolderNeverErrs(hash, w, c.worker, job);
        HolderAnswerIsPaid(hash, w, c.worker, w', job);
      }
  }

  // ----- After the job's end -----

  /** What a failed job's message can still cost. */
  function Remains(w: World, m: Message): nat {
    Queued(w.queue, m) + |Clashers(w, m)|
  }

  lemma ErrorShape(hash: Id -> int, w: World, c: Client, heard: bool, w': World)
    requires Turns(hash, w, OfDatabase(Run(c), heard), w') && Statement(hash, w.db, c).Errs?
    ensures w'.queue == Hear(w.queue, c, StoreError) && w'.db == w.db.(open := w.db.open - {c}) && w'.killed == w.killed
  {
  }

  /** A copy of the message that returns after an error was to clash. */
  lemma ReturnWasClash(hash: Id -> int, w: World, c: Client, m: Message)
    requires Lawful(hash, w) && c in w.db.open && Clashes(w.db.tables, w.db.open[c])
             && HasJob(w.db.tables, m.job, Failed)
    requires ReturnsCopy(w.queue, c, StoreError, m)
    ensures c.worker in Clashers(w, m)
  {
    assert MayRun(w.queue, c, Purpose(w.db.open[c]));
  }

  /** A statement that errs returns at most the copy that was to clash. */
  lemma ErrorPays(hash: Id -> int, w: World, c: Client, heard: bool, w': World, m: Message)
    requires Lawful(hash, w) && HasJob(w.db.tables, m.job, Failed)
    requires Turns(hash, w, OfDatabase(Run(c), heard), w') && Statement(hash, w.db, c).Errs?
    ensures Remains(w', m) <= Remains(w, m)
  {
    ErrsMeansClash(hash, w.db, c);
    ErrorShape(hash, w, c, heard, w');
    HearKeepsCopies(w.queue, c, StoreError, m);
    assert Clashers(w', m) <= Clashers(w, m);
    if ReturnsCopy(w.queue, c, StoreError, m) {
      ReturnWasClash(hash, w, c, m);
      assert c == Worker(c.worker) && c.worker !in Clashers(w', m);
      Subset(Clashers(w', m), Clashers(w, m) - {c.worker});
    } else {
      Subset(Clashers(w', m), Clashers(w, m));
    }
  }

  /** An answer about a job that has ended returns no copy of its message. */
  lemma EndedAnswerReturnsNone(hash: Id -> int, w: World, c: Client, heard: bool, m: Message)
    requires Lawful(hash, w) && c in w.db.open && Statement(hash, w.db, c).Answers?
    requires m.job in w.db.tables.jobs && OwnMessage(w.db.tables, m.job) == m && Terminal(w.db.tables.jobs[m.job])
    requires c.Worker? ==> heard
    ensures !ReturnsCopy(w.queue, c, HeardReply(hash, w, Run(c), heard), m)
  {
    var e := Entry(Purpose(w.db.open[c]), Statement(hash, w.db, c).answer);
    LawfulIsSound(hash, w);
    AnswerRefines(hash, w.db, c);
    assert MayRun(w.queue, c, e.op);
    if c.Worker? && Returns(w.queue, c, Heard(e.answer)) {
      RequeueMeansRetry(Abstract(w), c, e);
    }
  }

  lemma EndedErrorReturnsNone(hash: Id -> int, w: World, c: Client, m: Message)
    requires Lawful(hash, w) && c in w.db.open && Statement(hash, w.db, c).Errs?
    requires m.job in w.db.tables.jobs && OwnMessage(w.db.tables, m.job) == m
             && w.db.tables.jobs[m.job].state == Succeeded
    ensures !ReturnsCopy(w.queue, c, StoreError, m)
  {
    ErrsMeansClash(hash, w.db, c);
    assert MayRun(w.queue, c, Purpose(w.db.open[c]));
  }

  /** The queue of a job that has ended grows by clashes only. */
  lemma EndedKeepsQueued(hash: Id -> int, w: World, move: Move, w': World, m: Message)
    requires Lawful(hash, w) && Turns(hash, w, move, w') && CalmMove(hash, w, move)
    requires m.job in w.db.tables.jobs && OwnMessage(w.db.tables, m.job) == m && Terminal(w.db.tables.jobs[m.job])
    requires move.OfDatabase? && move.action.Run? && Statement(hash, w.db, move.action.client).Errs? ==>
               w.db.tables.jobs[m.job].state == Succeeded
    ensures Queued(w'.queue, m) + Bit(DeliversOf(move, m)) <= Queued(w.queue, m)
  {
    match move
    case OfBroker(step) => BrokerKeepsCopies(w.queue, step, m);
    case GivesUp(c) => HearKeepsCopies(w.queue, c, StoreError, m);
    case OfDatabase(Drop(c), _) => HearKeepsCopies(w.queue, c, StoreError, m);
    case OfDatabase(Begin(_, _), _) =>
    case OfDatabase(Backup, _) =>
    case OfDatabase(Run(c), heard) =>
      HearKeepsCopies(w.queue, c, HeardReply(hash, w, Run(c), heard), m);
      if Statement(hash, w.db, c).Answers? {
        EndedAnswerReturnsNone(hash, w, c, heard, m);
      } else if Statement(hash, w.db, c).Errs? {
        EndedErrorReturnsNone(hash, w, c, m);
      }
  }

  lemma StepJoinsNoClash(w: World, step: Step, m: Message)
    requires Linked(w) && Enabled(w.queue, step)
    ensures Clashers(w.(queue := Apply(w.queue, step)), m) <= Clashers(w, m)
  {
    var w' := w.(queue := Apply(w.queue, step));
    forall u | u in Clashers(w', m) ensures u in Clashers(w, m) {
      assert MayRun(w.queue, Worker(u), Purpose(w.db.open[Worker(u)]));
    }
  }

  lemma ProceedJoinsNoClash(hash: Id -> int, w: World, c: Client, heard: bool, w': World, m: Message)
    requires Lawful(hash, w) && Turns(hash, w, OfDatabase(Run(c), heard), w') && Statement(hash, w.db, c).Proceeds?
    requires HasJob(w.db.tables, m.job, Failed)
    ensures Clashers(w', m) <= Clashers(w, m)
  {
    ProceedMakesNoClash(hash, w.db, c);
    FaithfulIsSound(w.db.log);
    ProceedIsCurrent(hash, w.db, c);
    assert MayRun(w.queue, c, Purpose(w.db.open[c]));
    var tx := Statement(hash, w.db, c).tx;
    assert w'.queue == w.queue && w'.db.open == w.db.open[c := tx];
    if c.Worker? && c.worker in Clashers(w', m) {
      assert Clashes(w.db.tables, tx);
    }
  }

  /** Nobody's transaction moves, but one may end or open. */
  lemma OutsideJoinsNoClash(w: World, w': World, c: Client, reply: Reply, m: Message)
    requires w'.queue == w.queue || w'.queue == Hear(w.queue, c, reply)
    requires forall d :: d in w'.db.open ==>
               (d in w.db.open && w'.db.open[d] == w.db.open[d]) || !PastRead(w'.db.open[d])
    ensures Clashers(w', m) <= Clashers(w, m)
  {
  }

  /** No completion gets past its read of a failed job. */
  lemma NobodyJoinsTheClash(hash: Id -> int, w: World, move: Move, w': World, m: Message)
    requires Lawful(hash, w) && Turns(hash, w, move, w') && !Restores(move) && HasJob(w.db.tables, m.job, Failed)
    ensures Clashers(w', m) <= Clashers(w, m)
  {
    match move
    case OfBroker(step) => StepJoinsNoClash(w, step, m);
    case GivesUp(c) => OutsideJoinsNoClash(w, w', c, StoreError, m);
    case OfDatabase(Backup, _) => OutsideJoinsNoClash(w, w', Api(0), StoreError, m);
    case OfDatabase(Begin(c, op), _) => OutsideJoinsNoClash(w, w', c, StoreError, m);
    case OfDatabase(Drop(c), _) => OutsideJoinsNoClash(w, w', c, StoreError, m);
    case OfDatabase(Run(c), heard) =>
      if Statement(hash, w.db, c).Proceeds? {
        ProceedJoinsNoClash(hash, w, c, heard, w', m);
      } else {
        OutsideJoinsNoClash(w, w', c, HeardReply(hash, w, Run(c), heard), m);
      }
  }

  lemma EndedTurnIsPaid(hash: Id -> int, w: World, move: Move, w': World, job: Id)
    requires Lawful(hash, w) && job in w.db.tables.jobs && Terminal(w.db.tables.jobs[job])
    requires Turns(hash, w, move, w') && CalmMove(hash, w, move)
    requires job in w'.db.tables.jobs && w'.db.tables.jobs[job] == w.db.tables.jobs[job]
    ensures Prospect(w', job) + Bit(DeliversOf(move, OwnMessage(w.db.tables, job))) <= Prospect(w, job)
  {
    var m := OwnMessage(w.db.tables, job);
    if HasJob(w.db.tables, job, Failed) {
      if move.OfDatabase? && move.action.Run? && Statement(hash, w.db, move.action.client).Errs? {
        ErrorPays(hash, w, move.action.client, move.heard, w', m);
      } else {
        EndedKeepsQueued(hash, w, move, w', m);
        NobodyJoinsTheClash(hash, w, move, w', m);
        Subset(Clashers(w', m), Clashers(w, m));
      }
    } else {
      EndedKeepsQueued(hash, w, move, w', m);
    }
  }

  /** From any world, whatever the rest of the system does: the calm deliveries of a job's message number at most its
      prospects. */
  lemma {:induction false} ProspectBounds(hash: Id -> int, worlds: seq<World>, moves: seq<Move>, job: Id)
    requires Course(hash, worlds, moves) && Lawful(hash, worlds[0]) && Calm(hash, worlds, moves)
    requires job in worlds[0].db.tables.jobs && NoneMissed(worlds[0].db, job)
    ensures var w := worlds[|moves|];
            && job in w.db.tables.jobs && OwnMessage(w.db.tables, job) == OwnMessage(worlds[0].db.tables, job)
            && NoneMissed(w.db, job)
            && DeliveriesOf(moves, OwnMessage(worlds[0].db.tables, job)) + Prospect(w, job) <= Prospect(worlds[0], job)
    decreases |moves|
  {
    if moves != [] {
      var n := |moves| - 1;
      CalmPrefix(hash, worlds, moves);
      ProspectBounds(hash, worlds[..n + 1], moves[..n], job);
      TurnKeepsNoneMissed(hash, worlds[n], moves[n], worlds[n + 1], job);
      if HasJob(worlds[n].db.tables, job, Accepted) {
        AcceptedTurnIsPaid(hash, worlds[n], moves[n], worlds[n + 1], job);
      } else {
        EndedTurnIsPaid(hash, worlds[n], moves[n], worlds[n + 1], job);
      }
    }
  }
}
