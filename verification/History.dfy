/** Laws over whole histories: what any faithful log says about its jobs, items and attempts. */
module History {
  import opened Option
  import opened Records
  import opened AtomicStore
  import opened SuccessInvariant
  import opened Settlement

  predicate Completes(e: Entry, item: Id) {
    e.op.CompleteJob? && e.op.item == item && e.answer.CompletedNow?
  }

  /** The entry moved the job's attempt counter. */
  predicate CountsFor(e: Entry, job: Id) {
    || (e.op.CompleteJob? && e.op.job == job && e.answer.CompletedNow?)
    || (e.op.RecordFailure? && e.op.job == job && (e.answer.Retryable? || e.answer.Exhausted?))
  }

  function Attempts(log: Log, job: Id): nat {
    if log == [] then 0
    else Attempts(log[..|log| - 1], job) + (if CountsFor(log[|log| - 1], job) then 1 else 0)
  }

  /** Attempt conservation: the counter is the number of committed failures and completions, no more, no less. */
  lemma {:induction false} AttemptsConserved(log: Log, job: Id)
    requires Faithful(log)
    ensures Attempts(log, job) == if job in Replay(log).jobs then Replay(log).jobs[job].attempts else 0
    decreases |log|
  {
    if log != [] {
      AttemptsConserved(log[..|log| - 1], job);
    }
  }

  /** Every failure was recorded with the worker's limit. */
  ghost predicate HandlerLimit(log: Log) {
    forall k :: 0 <= k < |log| && log[k].op.RecordFailure? ==> log[k].op.limit == MAX_ATTEMPTS
  }

  lemma {:induction false} AttemptsBounded(log: Log, job: Id)
    requires Faithful(log) && HandlerLimit(log) && job in Replay(log).jobs
    ensures Attempts(log, job) <= MAX_ATTEMPTS
    ensures HasJob(Replay(log), job, Accepted) ==> Attempts(log, job) < MAX_ATTEMPTS
    ensures HasJob(Replay(log), job, Failed) ==> Attempts(log, job) == MAX_ATTEMPTS
  {
    AttemptsConserved(log, job);
    CountersBounded(log);
  }

  lemma {:induction false} CountersBounded(log: Log)
    requires Faithful(log) && HandlerLimit(log)
    ensures forall job :: job in Replay(log).jobs ==>
              var row := Replay(log).jobs[job];
              row.attempts + (if row.state == Accepted then 1 else 0) <= MAX_ATTEMPTS
              && (row.state == Failed ==> row.attempts == MAX_ATTEMPTS)
    decreases |log|
  {
    if log != [] {
      var init := log[..|log| - 1];
      assert forall k :: 0 <= k < |init| ==> init[k] == log[k];
      CountersBounded(init);
    }
  }

  /** What a later state of the tables never takes back. */
  ghost predicate Extends(t: Tables, t': Tables) {
    && (forall item :: item in t.items ==>
          item in t'.items && t'.items[item].title == t.items[item].title
          && (t.items[item].status == Done ==> t'.items[item].status == Done))
    && (forall job :: job in t.jobs ==>
          job in t'.jobs && t'.jobs[job].item == t.jobs[job].item
          && (Terminal(t.jobs[job]) ==> t'.jobs[job] == t.jobs[job]))
    && t.results <= t'.results
    && (forall row :: row in t.outbox ==>
          row in t'.outbox && t'.outbox[row].payload == t.outbox[row].payload && t'.outbox[row].job == t.outbox[row].job
          && (t.outbox[row].published ==> t'.outbox[row].published)
          && t.outbox[row].attempts <= t'.outbox[row].attempts)
  }

  lemma EffectExtends(t: Tables, e: Entry)
    requires Allowed(t, e)
    ensures Extends(t, Effect(t, e))
  {
  }

  /** Titles, done items, terminal jobs, results and payloads are final. */
  lemma {:induction false} FinalRowsStay(log: Log, m: nat, n: nat)
    requires Faithful(log) && m <= n <= |log|
    ensures Extends(Before(log, m), Before(log, n))
    decreases n - m
  {
    if m < n {
      FinalRowsStay(log, m, n - 1);
      EntryAt(log, n - 1);
      EffectExtends(Before(log, n - 1), log[n - 1]);
    }
  }

  /** At most one completion per item, over any log. */
  lemma {:induction false} OneCompletion(log: Log, a: nat, b: nat, item: Id)
    requires Faithful(log) && a <= b < |log| && Completes(log[a], item) && Completes(log[b], item)
    ensures a == b
  {
    EntryAt(log, a);
    EntryAt(log, b);
    if a < b {
      FinalRowsStay(log, a + 1, b);
    }
  }

  /** The operation works on this job. */
  predicate Targets(op: Operation, job: Id) {
    match op
    case InspectJob(j, _) => j == job
    case CompleteJob(j, _) => j == job
    case RecordFailure(j, _, _, _) => j == job
    case _ => false
  }

  /** Exactly-once effect: once a job has completed, everything said about it later is a terminal
      answer (or a refusal of foreign identities or arguments) and changes no table. */
  lemma {:induction false} NothingAfterCompletion(log: Log, a: nat, b: nat, job: Id, item: Id)
    requires Faithful(log) && a < b < |log|
    requires log[a].op == CompleteJob(job, item) && log[a].answer.CompletedNow?
    requires Targets(log[b].op, job)
    ensures Before(log, b + 1) == Before(log, b)
    ensures log[b].op.item != item && !log[b].answer.BadArguments? ==> log[b].answer == JobMismatch
    ensures log[b].op.item == item && !log[b].answer.BadArguments? ==>
              log[b].answer == AlreadyTerminal(log[a].answer.record) || log[b].answer == JobFound(log[a].answer.record)
  {
    EntryAt(log, a);
    EntryAt(log, b);
    FinalRowsStay(log, a + 1, b);
  }

  /** So a redelivery of a completed job's message is acknowledged, wherever in the handler it learns of it. */
  lemma RedeliveryIsAcknowledged(log: Log, a: nat, b: nat, job: Id, item: Id)
    requires Faithful(log) && a < b < |log|
    requires log[a].op == CompleteJob(job, item) && log[a].answer.CompletedNow?
    requires Targets(log[b].op, job) && log[b].op.item == item
    ensures log[b].op.InspectJob? ==> AfterInspection(Heard(log[b].answer)) == Some(Ack)
    ensures log[b].op.CompleteJob? ==> AfterCompletion(Heard(log[b].answer)) == Ack
    ensures log[b].op == RecordFailure(job, item, FAILURE_CODE, MAX_ATTEMPTS) ==>
              AfterFailure(Heard(log[b].answer)) == Ack
  {
    NothingAfterCompletion(log, a, b, job, item);
    EntryAt(log, a);
    EntryAt(log, b);
  }

  /** The entry drove the job to terminal failure. */
  predicate Exhausts(e: Entry, job: Id) {
    e.op.RecordFailure? && e.op.job == job && e.answer.Exhausted?
  }

  lemma {:induction false} FailureHasCause(log: Log, m: nat, n: nat, job: Id) returns (k: nat)
    requires Faithful(log) && m <= n <= |log|
    requires HasJob(Before(log, m), job, Accepted) && HasJob(Before(log, n), job, Failed)
    ensures m <= k < n && Exhausts(log[k], job)
    decreases n - m
  {
    EntryAt(log, n - 1);
    if Exhausts(log[n - 1], job) {
      k := n - 1;
    } else {
      FinalRowsStay(log, m, n - 1);
      k := FailureHasCause(log, m, n - 1, job);
    }
  }

  /** Two acceptances for one item are always separated by the first job's recorded terminal failure. */
  lemma {:induction false} AcceptancesSeparated(log: Log, a: nat, b: nat, item: Id) returns (k: nat)
    requires Faithful(log) && a < b < |log|
    requires log[a].op == AcceptJob(item) && log[a].answer.JobAccepted?
    requires log[b].op == AcceptJob(item) && log[b].answer.JobAccepted?
    ensures a < k < b && Exhausts(log[k], log[a].answer.job)
  {
    var job := log[a].answer.job;
    EntryAt(log, a);
    EntryAt(log, b);
    FinalRowsStay(log, a + 1, b);
    FaithfulPrefix(log, b);
    FaithfulIsSound(log[..b]);
    var t := Before(log, b);
    assert !Active(t, item, job);
    if HasJob(t, job, Succeeded) {
      SucceededMeansDone(t, job);
    }
    k := FailureHasCause(log, a + 1, b, job);
  }

  /** Acceptance creates the job together with its one outbox row; a refusal creates neither,
      and "already active" names the one job that is accepted at that moment. */
  lemma {:induction false} AcceptanceAllOrNothing(log: Log, a: nat, item: Id)
    requires Faithful(log) && a < |log| && log[a].op == AcceptJob(item)
    ensures var t, t' := Before(log, a), Before(log, a + 1);
            match log[a].answer
            case JobAccepted(job, row) =>
              && t'.jobs.Keys - t.jobs.Keys == {job} && t'.outbox.Keys - t.outbox.Keys == {row}
              && t'.outbox[row].payload == Message(job, item) && !t'.outbox[row].published
              && forall j :: Active(t', item, j) <==> j == job
            case AlreadyActive(job) => t' == t && forall j :: Active(t, item, j) <==> j == job
            case ItemDone => t' == t && exists job :: HasResult(t, item, job)
            case _ => t' == t && item !in t.items
  {
    EntryAt(log, a);
    FaithfulPrefix(log, a);
    FaithfulIsSound(log[..a]);
    var t, t' := Before(log, a), Before(log, a + 1);
    if log[a].answer.JobAccepted? {
      forall j | Active(t', item, j) ensures j == log[a].answer.job {
        assert j != log[a].answer.job ==> Active(t, item, j);
      }
    } else if log[a].answer.AlreadyActive? {
      forall j | Active(t, item, j) ensures j == log[a].answer.job {
        assert Live(t, j) && Live(t, log[a].answer.job);
      }
    }
  }

  /** Every committed result is the analysis of its item's title, whenever the two are looked at: its characters, and
      its words by the count that never builds one. */
  lemma {:induction false} ResultsFollowTitles(log: Log, m: nat, n: nat, k: nat)
    requires Faithful(log) && m <= |log| && n <= |log| && k < |Before(log, n).results|
    requires Before(log, n).results[k].item in Before(log, m).items
    ensures var r := Before(log, n).results[k];
            var title := Before(log, m).items[r.item].title;
            && r.version == 1 && r.title == title
            && r.characters == |title| && r.words == TitleAnalysis.WordStarts(title, true)
  {
    TitleAnalysis.FieldsCountTransitions(Before(log, m).items[Before(log, n).results[k].item].title);
    FaithfulPrefix(log, n);
    FaithfulIsSound(log[..n]);
    assert ResultMatches(Before(log, n), Before(log, n).results[k]);
    if m <= n {
      FinalRowsStay(log, m, n);
    } else {
      FinalRowsStay(log, n, m);
    }
  }
}
