/** Transactions wait for each other's locks only in one direction, whatever the hash of the advisory key. */
module LockOrder {
  import opened Records
  import opened SuccessInvariant
  import opened Statements
  import opened Serializability
  import opened AtomicStore
  import opened Sets

  /** The next statement of a needs a lock that b holds. */
  predicate Blocks(hash: Id -> int, b: Transaction, a: Transaction) {
    || ((a.AcceptBegun? || a.CompleteBegun?) && HoldsAdvisory(b) && SameKey(hash, a, b))
    || (a.CompleteResultAdded? && HoldsItemRow(b, a.item))
    || ((a.CompleteItemDone? || a.FailureBegun?) && HoldsJobRow(b, a.job))
    || (a.RowBegun? && (a.op.MarkPublished? || a.op.RecordPublishFailure?) && HoldsOutboxRow(b, a.op.row))
  }

  ghost predicate WaitsFor(hash: Id -> int, s: State, c: Client, d: Client) {
    && c in s.open && d in s.open && c != d
    && Statement(hash, s, c).Waits? && Blocks(hash, s.open[d], s.open[c])
  }

  /** How far a transaction has climbed: nothing held, an item locked, a job or outbox row locked. */
  function Rank(tx: Transaction): nat {
    if tx.CompleteJobDone? || tx.FailureWritten? || tx.RowWritten? then 2
    else if HoldsAdvisory(tx) then 1
    else 0
  }

  /** A transaction that waits, waits for somebody. */
  lemma WaitingHasReason(hash: Id -> int, s: State, c: Client) returns (d: Client)
    requires c in s.open && Statement(hash, s, c).Waits?
    ensures WaitsFor(hash, s, c, d)
  {
    var tx := s.open[c];
    if tx.AcceptBegun? || tx.CompleteBegun? {
      d :| d in s.open && d != c && HoldsAdvisory(s.open[d]) && SameKey(hash, tx, s.open[d]);
    } else if tx.CompleteResultAdded? {
      d :| d in s.open && d != c && HoldsItemRow(s.open[d], tx.item);
    } else if tx.CompleteItemDone? || tx.FailureBegun? {
      d :| d in s.open && d != c && HoldsJobRow(s.open[d], tx.job);
    } else {
      d :| d in s.open && d != c && HoldsOutboxRow(s.open[d], tx.op.row);
    }
  }

  lemma WaitingClimbs(hash: Id -> int, s: State, c: Client, d: Client)
    requires Invariant(hash, s) && WaitsFor(hash, s, c, d)
    ensures Rank(s.open[c]) < Rank(s.open[d])
  {
    assert Apart(hash, s.open[c], s.open[d]);
  }

  /** Each client of the list waits for the one after it. */
  ghost predicate Chain(hash: Id -> int, s: State, clients: seq<Client>) {
    forall k :: 0 <= k < |clients| - 1 ==> WaitsFor(hash, s, clients[k], clients[k + 1])
  }

  lemma {:induction false} ChainClimbs(hash: Id -> int, s: State, clients: seq<Client>)
    requires Invariant(hash, s) && |clients| >= 2 && Chain(hash, s, clients)
    ensures clients[0] in s.open && clients[|clients| - 1] in s.open
    ensures Rank(s.open[clients[0]]) + |clients| - 1 <= Rank(s.open[clients[|clients| - 1]])
    decreases |clients|
  {
    var n := |clients|;
    assert WaitsFor(hash, s, clients[n - 2], clients[n - 1]);
    WaitingClimbs(hash, s, clients[n - 2], clients[n - 1]);
    if n > 2 {
      var shorter := clients[..n - 1];
      forall k | 0 <= k < |shorter| - 1 ensures WaitsFor(hash, s, shorter[k], shorter[k + 1]) {
        assert WaitsFor(hash, s, clients[k], clients[k + 1]);
      }
      ChainClimbs(hash, s, shorter);
    }
  }

  /** No cycle of lock waits, and no chain of more than three transactions, is reachable. */
  lemma {:induction false} NoDeadlock(
    hash: Id -> int, states: seq<State>, actions: seq<Action>, k: nat, clients: seq<Client>)
    requires Execution(hash, states, actions) && k < |states|
    requires |clients| >= 2 && Chain(hash, states[k], clients)
    ensures clients[0] != clients[|clients| - 1] && |clients| <= 3
  {
    ExecutionKeepsInvariant(hash, states, actions, k);
    ChainClimbs(hash, states[k], clients);
  }

  /** Some open transaction can always take its next statement. */
  lemma {:induction false} SomeoneRuns(hash: Id -> int, s: State, c: Client) returns (d: Client)
    requires Invariant(hash, s) && c in s.open
    ensures d in s.open && !Statement(hash, s, d).Waits?
    decreases 2 - Rank(s.open[c])
  {
    if Statement(hash, s, c).Waits? {
      d := WaitingHasReason(hash, s, c);
      WaitingClimbs(hash, s, c, d);
      d := SomeoneRuns(hash, s, d);
    } else {
      d := c;
    }
  }

  /** Statements a transaction still has ahead of it, at most. */
  function Ahead(tx: Transaction): nat {
    match tx
    case CreateBegun(_) => 2
    case AcceptBegun(_) => 6
    case AcceptLocked(_) => 5
    case AcceptPending(_) => 4
    case AcceptFree(_) => 3
    case AcceptJobAdded(_, _) => 2
    case CompleteBegun(_, _) => 7
    case CompleteLocked(_, _) => 6
    case CompleteInspected(_, _) => 5
    case CompleteRead(_, _, _) => 4
    case CompleteResultAdded(_, _, _) => 3
    case CompleteItemDone(_, _, _, _) => 2
    case FailureBegun(_, _, _, _) => 2
    case RowBegun(_) => 2
    case _ => 1
  }

  lemma StatementsRunOut(hash: Id -> int, s: State, c: Client)
    requires c in s.open && Statement(hash, s, c).Proceeds?
    ensures 0 < Ahead(Statement(hash, s, c).tx) < Ahead(s.open[c])
  {
  }

  /** A completion past its first read finds its item pending and its item row free, always: the two item-level
      refusals are dead. Its guarded job update finds no row exactly when the job failed meanwhile. */
  lemma CompletionConflicts(hash: Id -> int, s: State, c: Client)
    requires Invariant(hash, s) && c in s.open
    ensures s.open[c].CompleteInspected? || s.open[c].CompleteResultAdded? ==> Statement(hash, s, c).Proceeds?
    ensures s.open[c].CompleteItemDone? ==>
              (Statement(hash, s, c).Errs? <==> HasJob(s.tables, s.open[c].job, Failed))
    ensures s.open[c].CompleteJobDone? ==> Statement(hash, s, c).Answers?
  {
    var tx := s.open[c];
    assert Current(s.tables, s.next, tx);
    if tx.CompleteResultAdded? {
      forall d | d in s.open && d != c ensures !HoldsItemRow(s.open[d], tx.item) {
        assert Apart(hash, tx, s.open[d]);
      }
    } else if tx.CompleteItemDone? {
      FaithfulIsSound(s.log);
      if HasJob(s.tables, tx.job, Succeeded) {
        SucceededMeansDone(s.tables, tx.job);
      }
    }
  }

  /** Another transaction has the outbox row locked. */
  ghost predicate LockedByOther(s: State, c: Client, row: Id) {
    exists d :: d in s.open && d != c && s.open[d].RowWritten? && s.open[d].row == row
  }

  /** SKIP LOCKED: beginning to publish never waits and never errs. It takes an unpublished row nobody else has locked,
      and overlooks an older one, or all of them, only if others have those locked. */
  lemma OldestFirst(hash: Id -> int, s: State, c: Client)
    requires c in s.open && s.open[c] == RowBegun(BeginPublish)
    ensures var outcome := Statement(hash, s, c);
            match outcome
            case Proceeds(tx, _) =>
              && tx.RowWritten? && tx.row in s.tables.outbox && !s.tables.outbox[tx.row].published
              && !LockedByOther(s, c, tx.row)
              && forall row :: row in s.tables.outbox && !s.tables.outbox[row].published && row < tx.row ==>
                   LockedByOther(s, c, row)
            case Answers(answer, _) =>
              && answer == NothingToPublish
              && forall row :: row in s.tables.outbox && !s.tables.outbox[row].published ==> LockedByOther(s, c, row)
            case _ => false
  {
    TakenIsLocked(s, c);
    var free := set row | row in s.tables.outbox && !s.tables.outbox[row].published && !LockedByOther(s, c, row);
    if free != {} {
      ThereIsAFirst(free);
      var first :| first in free && forall other :: other in free ==> first <= other;
      forall other | IsUnpublished(s.tables, other) && other < first ensures OutboxRowTaken(s, c, other) {
        assert other !in free;
      }
      assert NextRow(s, c, first);
    } else {
      forall row | row in s.tables.outbox && !s.tables.outbox[row].published ensures LockedByOther(s, c, row) {
        assert row !in free;
      }
    }
  }

  lemma TakenIsLocked(s: State, c: Client)
    ensures forall row :: OutboxRowTaken(s, c, row) <==> LockedByOther(s, c, row)
  {
    forall row ensures OutboxRowTaken(s, c, row) <==> LockedByOther(s, c, row) {
      if d :| d in s.open && d != c && HoldsOutboxRow(s.open[d], row) {
        assert s.open[d].RowWritten? && s.open[d].row == row;
      }
      if d :| d in s.open && d != c && s.open[d].RowWritten? && s.open[d].row == row {
        assert HoldsOutboxRow(s.open[d], row);
      }
    }
  }
}
