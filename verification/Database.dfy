/** The database as one process of the application meets it: the committed tables, and other clients that commit
    between any two statements. */
module Database {
  import opened Records
  import opened AtomicStore
  import opened Settlement
  import opened Statements

  /** What goes wrong in one call: nothing, a statement before the commit, or only the news of the commit. */
  datatype Glitch = Clear | StatementFails | CommitUnheard

  /** One call of this process and what it heard. */
  datatype Call = Call(op: Operation, reply: Reply)

  /** The entry accepts or completes a job of the item, which takes the item's advisory lock. */
  predicate Touches(e: Entry, item: Id) {
    (e.op == AcceptJob(item) && e.answer.JobAccepted?)
        || (e.op.CompleteJob? && e.op.item == item && e.answer.CompletedNow?)
  }

  /** From log to log', nobody accepted or completed a job of the item. */
  ghost predicate Untouched(log: Log, log': Log, item: Id) {
    log <= log' && forall k :: |log| <= k < |log'| ==> !Touches(log'[k], item)
  }

  /** What holding an item's advisory lock guarantees: its row stays, it gets no new active job, and its accepted jobs
      can only fail. */
  lemma {:induction false} UntouchedItem(log: Log, log': Log, item: Id)
    requires Faithful(log) && Faithful(log') && Untouched(log, log', item)
    ensures var t, t' := Replay(log), Replay(log');
            && (item in t.items ==> item in t'.items && t'.items[item] == t.items[item])
            && (item in t.items ==> forall job :: Active(t', item, job) ==> Active(t, item, job))
            && (forall job :: Active(t, item, job) ==>
                  Active(t', item, job) || (HasJob(t', job, Failed) && t'.jobs[job].item == item))
    decreases |log'|
  {
    if |log'| == |log| {
      assert log' == log;
    } else {
      var n := |log'| - 1;
      assert log'[..n] <= log' && log <= log'[..n];
      UntouchedItem(log, log'[..n], item);
      UntouchedEntry(Replay(log'[..n]), log'[n], item);
    }
  }

  lemma UntouchedEntry(t: Tables, e: Entry, item: Id)
    requires Allowed(t, e) && !Touches(e, item)
    ensures item in t.items ==> item in Effect(t, e).items && Effect(t, e).items[item] == t.items[item]
    ensures forall job :: Active(Effect(t, e), item, job) ==> Active(t, item, job)
    ensures forall job :: job in t.jobs && t.jobs[job].item == item && t.jobs[job].state != Succeeded ==>
              job in Effect(t, e).jobs && Effect(t, e).jobs[job].item == item
                  && Effect(t, e).jobs[job].state != Succeeded
    ensures forall job :: HasJob(t, job, Failed) ==> Effect(t, e).jobs[job] == t.jobs[job]
  {
  }

  class Database {
    var tables: Tables
    var next: Sequences          // what the identity columns hand out next
    ghost var log: Log           // everything committed, by anyone
    ghost var own: seq<nat>      // which entries of the log this process caused
    ghost var calls: seq<Call>   // what this process asked, and heard

    ghost predicate Valid() reads this {
      Faithful(log) && tables == Replay(log) && Below(tables, next)
    }

    /** The tables just before the latest committed operation. */
    ghost function Previous(): Tables
      reads this
      requires Valid() && log != []
    {
      Before(log, |log| - 1)
    }

    constructor ()
      ensures Valid() && log == [] && own == [] && calls == []
    {
      tables, next, log, own, calls := EMPTY, Sequences(1, 1, 1), [], [], [];
    }

    /** The call had the effect of its operation exactly once, at the end of the log, or not at all. It had it if the
        caller heard an answer, and the answer is the logged one; an error with the effect is a lost commit message. */
    twostate predicate Did(op: Operation, reply: Reply, glitch: Glitch)
      reads this
    {
      && calls == old(calls) + [Call(op, reply)] && old(log) <= log
      && match reply
         case Heard(answer) => glitch == Clear && Caused(Entry(op, answer))
         case StoreError => own == old(own) || (glitch == CommitUnheard && |log| > 0 && log[|log| - 1].op == op
                                                && Caused(log[|log| - 1]))
    }

    twostate predicate Caused(e: Entry)
      reads this
    {
      |old(log)| < |log| && log[|log| - 1] == e && own == old(own) + [|log| - 1]
    }

    /** Identities handed out meanwhile were new. */
    twostate predicate Moved()
      reads this
    {
      && old(log) <= log && own == old(own) && calls == old(calls)
      && old(next).item <= next.item && old(next).job <= next.job && old(next).row <= next.row
      && (forall item :: item in tables.items ==> item in old(tables).items || old(next).item <= item)
      && (forall job :: job in tables.jobs ==> job in old(tables).jobs || old(next).job <= job)
      && (forall row :: row in tables.outbox ==> row in old(tables).outbox || old(next).row <= row)
    }

    /** Other clients commit whatever they like: callers may rely on nothing but this contract. */
    method Interference()
      requires Valid()
      modifies this
      ensures Valid() && Moved()
    {
    }

    /** The same while this process holds the item's advisory lock: nobody accepts or completes for the item. */
    method InterferenceBut(item: Id)
      requires Valid()
      modifies this
      ensures Valid() && Moved() && Untouched(old(log), log, item)
    {
    }

    /** A statement failed or found its row changed, and the transaction rolled back. */
    method Abort(ghost op: Operation) returns (reply: Reply)
      requires Valid()
      modifies this`calls
      ensures Valid() && reply == StoreError && calls == old(calls) + [Call(op, StoreError)]
    {
      reply := StoreError;
      calls := calls + [Call(op, StoreError)];
    }

    /** The operation takes effect with this answer; its caller may or may not hear so. */
    method Finish(ghost op: Operation, answer: Answer, after: Tables, glitch: Glitch) returns (reply: Reply)
      requires Valid() && glitch != StatementFails
      requires Allowed(tables, Entry(op, answer)) && after == Effect(tables, Entry(op, answer)) && Below(after, next)
      modifies this`tables, this`log, this`own, this`calls
      ensures Valid() && tables == after && log == old(log) + [Entry(op, answer)] && own == old(own) + [|old(log)|]
      ensures reply == (if glitch == Clear then Heard(answer) else StoreError)
              && calls == old(calls) + [Call(op, reply)]
    {
      FaithfulExtend(log, Entry(op, answer));
      own := own + [|log|];
      log := log + [Entry(op, answer)];
      tables := after;
      reply := if glitch == Clear then Heard(answer) else StoreError;
      calls := calls + [Call(op, reply)];
    }
  }
}
