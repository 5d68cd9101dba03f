/** Every interleaving of statements refines the atomic store: the committed tables are always the replay of
    the log, and every answer was right at the moment it was logged. */
module Serializability {
  import opened Option
  import opened Records
  import opened AtomicStore
  import opened SuccessInvariant
  import opened Statements

  /** What an open transaction has read, or is about to write, still agrees with the committed tables. */
  ghost predicate Current(t: Tables, next: Sequences, tx: Transaction) {
    match tx
    case CreateInserted(_, item) => item !in t.items && item < next.item
    case AcceptPending(item) => IsPending(t, item)
    case AcceptFree(item) => IsPending(t, item) && !HasActive(t, item)
    case AcceptJobAdded(item, job) =>
      IsPending(t, item) && !HasActive(t, item) && job !in t.jobs && job < next.job
    case AcceptRowAdded(item, job, row) =>
      IsPending(t, item) && !HasActive(t, item) && job !in t.jobs && job < next.job && row !in t.outbox
          && row < next.row
    case CompleteInspected(job, item) => BelongsTo(t, job, item) && IsPending(t, item)
    case CompleteRead(job, item, title) => BelongsTo(t, job, item) && ReadyToComplete(t, item, title)
    case CompleteResultAdded(job, item, result) =>
      BelongsTo(t, job, item) && ReadyToComplete(t, item, result.title) && result == ResultFor(item, job, result.title)
    case CompleteItemDone(job, item, result, doneItem) =>
      && BelongsTo(t, job, item) && ReadyToComplete(t, item, result.title)
          && result == ResultFor(item, job, result.title)
      && doneItem == t.items[item].(status := Done)
    case CompleteJobDone(job, item, result, doneItem, record) =>
      && Active(t, item, job) && ReadyToComplete(t, item, result.title) && result == ResultFor(item, job, result.title)
      && doneItem == t.items[item].(status := Done) && record == CompletedRow(t.jobs[job])
    case FailureMissed(_, _, code, limit) => limit > 0 && code != ""
    case FailureWritten(job, item, code, limit, record) =>
      limit > 0 && code != "" && Active(t, item, job) && record == FailedRow(t.jobs[job], code, limit)
    case RowBegun(op) => IsOutbox(op)
    case RowWritten(op, row, update) => IsUnpublished(t, row) && RowUpdate(op, row, t.outbox[row], update)
    case _ => true
  }

  predicate BelongsTo(t: Tables, job: Id, item: Id) {
    job in t.jobs && t.jobs[job].item == item
  }

  predicate ReadyToComplete(t: Tables, item: Id, title: string) {
    IsPending(t, item) && t.items[item].title == title
  }

  predicate RowUpdate(op: Operation, row: Id, before: OutboxRow, after: OutboxRow) {
    match op
    case BeginPublish => after == before.(attempts := before.attempts + 1)
    case MarkPublished(r) => r == row && after == before.(published := true, lastError := None)
    case RecordPublishFailure(r, code) => r == row && after == before.(lastError := Some(code))
    case _ => false
  }

  /** Locks and fresh identities are held by one transaction at a time. */
  ghost predicate Apart(hash: Id -> int, a: Transaction, b: Transaction) {
    && (HoldsAdvisory(a) && HoldsAdvisory(b) ==> !SameKey(hash, a, b))
    && (forall item :: !(HoldsItemRow(a, item) && HoldsItemRow(b, item)))
    && (forall job :: !(HoldsJobRow(a, job) && HoldsJobRow(b, job)))
    && (forall row :: !(HoldsOutboxRow(a, row) && HoldsOutboxRow(b, row)))
    && (a.CreateInserted? && b.CreateInserted? ==> a.item != b.item)
    && (AddsJob(a) && AddsJob(b) ==> a.job != b.job)
    && (a.AcceptRowAdded? && b.AcceptRowAdded? ==> a.row != b.row)
  }

  predicate AddsJob(tx: Transaction) {
    tx.AcceptJobAdded? || tx.AcceptRowAdded?
  }

  ghost predicate Invariant(hash: Id -> int, s: State) {
    && Faithful(s.log) && s.tables == Replay(s.log)
    && Below(s.tables, s.next)
    && (forall c :: c in s.open ==> Current(s.tables, s.next, s.open[c]))
    && (forall c, d :: c in s.open && d in s.open && c != d ==> Apart(hash, s.open[c], s.open[d]))
    && (forall b :: b in s.backups ==> Faithful(b.log) && b.tables == Replay(b.log))
  }

  // ----- What a commit of one transaction leaves to the others -----

  lemma CreateLeaves(t: Tables, next: Sequences, tx: Transaction, item: Id, title: string)
    requires Current(t, next, tx) && item !in t.items && (tx.CreateInserted? ==> tx.item != item)
    ensures Current(t.(items := t.items[item := Item(title, Pending)]), next, tx)
  {
    ActiveDependsOnJobs(t, t.(items := t.items[item := Item(title, Pending)]));
  }

  lemma ActiveDependsOnJobs(t: Tables, t': Tables)
    requires t'.jobs == t.jobs
    ensures forall item :: HasActive(t', item) <==> HasActive(t, item)
  {
    forall item, job ensures Active(t', item, job) <==> Active(t, item, job) {
    }
  }

  lemma AcceptLeaves(hash: Id -> int, t: Tables, next: Sequences, mine: Transaction, tx: Transaction)
    requires mine.AcceptRowAdded? && Current(t, next, mine) && Current(t, next, tx) && Apart(hash, mine, tx)
    ensures Current(t.(jobs := t.jobs[mine.job := NewJob(mine.item)],
                       outbox := t.outbox[mine.row := NewRow(mine.job, mine.item)]), next, tx)
  {
    var t' := t.(jobs := t.jobs[mine.job := NewJob(mine.item)],
                 outbox := t.outbox[mine.row := NewRow(mine.job, mine.item)]);
    forall item | item != mine.item && !HasActive(t, item) ensures !HasActive(t', item) {
      forall job ensures !Active(t', item, job) {
        assert !Active(t, item, job);
      }
    }
  }

  lemma CompleteLeaves(hash: Id -> int, t: Tables, next: Sequences, mine: Transaction, tx: Transaction)
    requires mine.CompleteJobDone? && Current(t, next, mine) && Current(t, next, tx) && Apart(hash, mine, tx)
    ensures Current(t.(items := t.items[mine.item := mine.doneItem], jobs := t.jobs[mine.job := mine.record],
                       results := t.results + [mine.result]), next, tx)
  {
    var t' := t.(items := t.items[mine.item := mine.doneItem], jobs := t.jobs[mine.job := mine.record],
                 results := t.results + [mine.result]);
    assert HoldsJobRow(mine, mine.job);
    forall item | !HasActive(t, item) ensures !HasActive(t', item) {
      forall job ensures !Active(t', item, job) {
        assert !Active(t, item, job);
      }
    }
  }

  lemma FailureLeaves(hash: Id -> int, t: Tables, next: Sequences, mine: Transaction, tx: Transaction)
    requires mine.FailureWritten? && Current(t, next, mine) && Current(t, next, tx) && Apart(hash, mine, tx)
    ensures Current(t.(jobs := t.jobs[mine.job := mine.record]), next, tx)
  {
    var t' := t.(jobs := t.jobs[mine.job := mine.record]);
    assert HoldsJobRow(mine, mine.job);
    forall item | !HasActive(t, item) ensures !HasActive(t', item) {
      forall job ensures !Active(t', item, job) {
        assert !Active(t, item, job);
      }
    }
  }

  lemma RowLeaves(hash: Id -> int, t: Tables, next: Sequences, mine: Transaction, tx: Transaction)
    requires mine.RowWritten? && Current(t, next, mine) && Current(t, next, tx) && Apart(hash, mine, tx)
    ensures Current(t.(outbox := t.outbox[mine.row := mine.update]), next, tx)
  {
    assert HoldsOutboxRow(mine, mine.row);
    ActiveDependsOnJobs(t, t.(outbox := t.outbox[mine.row := mine.update]));
  }

  // ----- One statement -----

  /** The answer and its tables are those of the atomic operation in the present tables. */
  ghost predicate IsAtomic(t: Tables, op: Operation, outcome: Outcome) {
    outcome.Answers? ==>
      Allowed(t, Entry(op, outcome.answer)) && outcome.tables == Effect(t, Entry(op, outcome.answer))
  }

  lemma AcceptRefines(s: State, c: Client)
    requires c in s.open && Current(s.tables, s.next, s.open[c])
    ensures IsAtomic(s.tables, Purpose(s.open[c]), AcceptStatement(s, c))
  {
  }

  lemma CompleteRefines(s: State, c: Client)
    requires c in s.open && Current(s.tables, s.next, s.open[c])
    ensures IsAtomic(s.tables, Purpose(s.open[c]), CompleteStatement(s, c))
  {
  }

  lemma FailureRefines(s: State, c: Client)
    requires c in s.open && Current(s.tables, s.next, s.open[c])
    ensures IsAtomic(s.tables, Purpose(s.open[c]), RecordFailureStatement(s, c))
  {
  }

  lemma OutboxRefines(s: State, c: Client)
    requires c in s.open && Current(s.tables, s.next, s.open[c])
    ensures IsAtomic(s.tables, Purpose(s.open[c]), OutboxStatement(s, c))
  {
  }

  /** A statement that answers has done exactly what the atomic operation does, here and now. */
  lemma AnswerRefines(hash: Id -> int, s: State, c: Client)
    requires c in s.open && Current(s.tables, s.next, s.open[c])
    ensures IsAtomic(s.tables, Purpose(s.open[c]), Statement(hash, s, c))
  {
    AcceptRefines(s, c);
    CompleteRefines(s, c);
    FailureRefines(s, c);
    OutboxRefines(s, c);
  }

  /** After a statement that answers, the other transactions are still current. */
  lemma AnswerLeaves(hash: Id -> int, s: State, c: Client, d: Client)
    requires Invariant(hash, s) && c in s.open && d in s.open && c != d && Statement(hash, s, c).Answers?
    ensures Current(Statement(hash, s, c).tables, s.next, s.open[d])
  {
    var mine, tx := s.open[c], s.open[d];
    if mine.CreateInserted? {
      CreateLeaves(s.tables, s.next, tx, mine.item, mine.title);
    } else if mine.AcceptRowAdded? {
      AcceptLeaves(hash, s.tables, s.next, mine, tx);
    } else if mine.CompleteJobDone? {
      CompleteLeaves(hash, s.tables, s.next, mine, tx);
    } else if mine.FailureWritten? {
      FailureLeaves(hash, s.tables, s.next, mine, tx);
    } else if mine.RowWritten? {
      RowLeaves(hash, s.tables, s.next, mine, tx);
    }
  }

  ghost predicate Later(next: Sequences, next': Sequences) {
    next.item <= next'.item && next.job <= next'.job && next.row <= next'.row
  }

  lemma CurrentLater(t: Tables, next: Sequences, next': Sequences, tx: Transaction)
    requires Current(t, next, tx) && Later(next, next')
    ensures Current(t, next', tx)
  {
  }

  /** If the statement proceeds, the transaction is current again, and still the same operation. */
  ghost predicate GoesOn(s: State, tx: Transaction, outcome: Outcome) {
    outcome.Proceeds? ==>
      Current(s.tables, outcome.next, outcome.tx) && Later(s.next, outcome.next) && Purpose(outcome.tx) == Purpose(tx)
  }

  lemma AcceptGoesOn(s: State, c: Client)
    requires c in s.open && Current(s.tables, s.next, s.open[c]) && Below(s.tables, s.next)
    ensures GoesOn(s, s.open[c], AcceptStatement(s, c))
  {
  }

  lemma CompleteGoesOn(s: State, c: Client)
    requires c in s.open && Current(s.tables, s.next, s.open[c]) && Sound(s.tables)
    ensures GoesOn(s, s.open[c], CompleteStatement(s, c))
  {
    if s.open[c].CompleteLocked? && HasJob(s.tables, s.open[c].job, Accepted) {
      AcceptedMeansPending(s.tables, s.open[c].job);
    }
  }

  lemma FailureGoesOn(s: State, c: Client)
    requires c in s.open && Current(s.tables, s.next, s.open[c])
    ensures GoesOn(s, s.open[c], RecordFailureStatement(s, c))
  {
  }

  lemma OutboxGoesOn(s: State, c: Client)
    requires c in s.open && Current(s.tables, s.next, s.open[c])
    ensures GoesOn(s, s.open[c], OutboxStatement(s, c))
  {
  }

  lemma ProceedIsCurrent(hash: Id -> int, s: State, c: Client)
    requires c in s.open && Current(s.tables, s.next, s.open[c]) && Sound(s.tables) && Below(s.tables, s.next)
    ensures GoesOn(s, s.open[c], Statement(hash, s, c))
  {
    AcceptGoesOn(s, c);
    CompleteGoesOn(s, c);
    FailureGoesOn(s, c);
    OutboxGoesOn(s, c);
  }

  /** A lock is granted only when no other transaction holds it, and a fresh identity is nobody else's. */
  lemma ProceedIsApart(hash: Id -> int, s: State, c: Client, d: Client)
    requires c in s.open && d in s.open && d != c && Statement(hash, s, c).Proceeds?
    requires Current(s.tables, s.next, s.open[d]) && Apart(hash, s.open[c], s.open[d])
    ensures Apart(hash, Statement(hash, s, c).tx, s.open[d])
  {
  }

  lemma ProceedRefines(hash: Id -> int, s: State, c: Client, s': State)
    requires Invariant(hash, s) && Next(hash, s, Run(c), s') && Statement(hash, s, c).Proceeds?
    ensures Invariant(hash, s')
  {
    FaithfulIsSound(s.log);
    ProceedIsCurrent(hash, s, c);
    forall d | d in s.open && d != c
      ensures Current(s'.tables, s'.next, s'.open[d])
      ensures Apart(hash, s'.open[c], s'.open[d]) && Apart(hash, s'.open[d], s'.open[c])
    {
      CurrentLater(s.tables, s.next, s'.next, s.open[d]);
      ProceedIsApart(hash, s, c, d);
    }
  }

  lemma AnswerKeeps(hash: Id -> int, s: State, c: Client, s': State)
    requires Invariant(hash, s) && Next(hash, s, Run(c), s') && Statement(hash, s, c).Answers?
    ensures Invariant(hash, s')
  {
    var e := Entry(Purpose(s.open[c]), Statement(hash, s, c).answer);
    AnswerRefines(hash, s, c);
    FaithfulExtend(s.log, e);
    forall d | d in s'.open ensures Current(s'.tables, s'.next, s'.open[d]) {
      AnswerLeaves(hash, s, c, d);
    }
    AnswerStaysBelow(hash, s, c);
  }

  lemma AnswerStaysBelow(hash: Id -> int, s: State, c: Client)
    requires c in s.open && Current(s.tables, s.next, s.open[c]) && Below(s.tables, s.next)
    requires Statement(hash, s, c).Answers?
    ensures Below(Statement(hash, s, c).tables, s.next)
  {
  }

  /** The step executed exactly one atomic operation and logged it. */
  ghost predicate LogsOne(hash: Id -> int, s: State, action: Action, s': State) {
    action.Run? && action.client in s.open && Statement(hash, s, action.client).Answers? &&
    var e := Entry(Purpose(s.open[action.client]), Statement(hash, s, action.client).answer);
    Allowed(s.tables, e) && s'.log == s.log + [e] && s'.tables == Effect(s.tables, e)
  }

  lemma OpeningIsFree(hash: Id -> int, t: Tables, next: Sequences, op: Operation, tx: Transaction)
    ensures Current(t, next, Open(op)) && Apart(hash, Open(op), tx) && Apart(hash, tx, Open(op))
  {
  }

  lemma BeginKeeps(hash: Id -> int, s: State, c: Client, op: Operation)
    requires Invariant(hash, s) && c !in s.open
    ensures Invariant(hash, s.(open := s.open[c := Open(op)]))
  {
    OpeningIsFree(hash, s.tables, s.next, op, Open(op));
    forall d | d in s.open ensures Apart(hash, Open(op), s.open[d]) && Apart(hash, s.open[d], Open(op)) {
      OpeningIsFree(hash, s.tables, s.next, op, s.open[d]);
    }
  }

  lemma DropKeeps(hash: Id -> int, s: State, c: Client)
    requires Invariant(hash, s)
    ensures Invariant(hash, s.(open := s.open - {c}))
  {
  }

  lemma QuietStepKeeps(hash: Id -> int, s: State, action: Action, s': State)
    requires Invariant(hash, s) && Next(hash, s, action, s') && !action.Run?
    ensures Invariant(hash, s')
    ensures action.Restore? || (s'.log == s.log && s'.tables == s.tables)
  {
    match action
    case Begin(c, op) => BeginKeeps(hash, s, c, op);
    case Drop(c) => DropKeeps(hash, s, c);
    case _ =>
  }

  /** Each step keeps the invariant; unless it is a restore, it changes the tables by nothing
      or by exactly one atomic operation, which it logs. */
  lemma StepRefines(hash: Id -> int, s: State, action: Action, s': State)
    requires Invariant(hash, s) && Next(hash, s, action, s')
    ensures Invariant(hash, s')
    ensures action.Restore? || (s'.log == s.log && s'.tables == s.tables) || LogsOne(hash, s, action, s')
  {
    if !action.Run? {
      QuietStepKeeps(hash, s, action, s');
    } else {
      var outcome := Statement(hash, s, action.client);
      if outcome.Proceeds? {
        ProceedRefines(hash, s, action.client, s');
      } else if outcome.Answers? {
        AnswerKeeps(hash, s, action.client, s');
        AnswerRefines(hash, s, action.client);
      } else {
        DropKeeps(hash, s, action.client);
      }
    }
  }

  lemma {:induction false} ExecutionKeepsInvariant(hash: Id -> int, states: seq<State>, actions: seq<Action>, k: nat)
    requires Execution(hash, states, actions) && k < |states|
    ensures Invariant(hash, states[k])
    decreases k
  {
    if k > 0 {
      ExecutionKeepsInvariant(hash, states, actions, k - 1);
      StepRefines(hash, states[k - 1], actions[k - 1], states[k]);
    }
  }

  /** Serializability: in every state of every interleaving, for every hash function, with transactions dropped
      and backups restored anywhere, executing the log one whole operation at a time gives the committed tables
      and every logged answer; and these tables satisfy the success invariant. */
  lemma {:induction false} EveryInterleavingIsSerial(hash: Id -> int, states: seq<State>, actions: seq<Action>, k: nat)
    requires Execution(hash, states, actions) && k < |states|
    ensures Faithful(states[k].log) && states[k].tables == Replay(states[k].log)
    ensures Sound(states[k].tables)
  {
    ExecutionKeepsInvariant(hash, states, actions, k);
    FaithfulIsSound(states[k].log);
  }
}
