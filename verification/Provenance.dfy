/** Where the rows come from: every field of every row, and every answer, read off the log of operations alone.
    Nothing here mentions how an operation computes its rows. */
module Provenance {
  import opened Option
  import opened Records
  import opened AtomicStore
  import opened History

  /** Some entry of the log passes the test. */
  predicate Occurs(log: Log, test: Entry -> bool) {
    exists k :: 0 <= k < |log| && test(log[k])
  }

  lemma OccursInLonger(log: Log, test: Entry -> bool)
    requires log != []
    ensures Occurs(log, test) <==> Occurs(log[..|log| - 1], test) || test(log[|log| - 1])
  {
    var init := log[..|log| - 1];
    if k :| 0 <= k < |log| && test(log[k]) && k < |init| {
      assert test(init[k]);
    }
    if k :| 0 <= k < |init| && test(init[k]) {
      assert test(log[k]);
    }
  }

  // ----- Items -----

  predicate Creates(e: Entry, item: Id) {
    e.op.CreateItem? && e.answer == ItemCreated(item)
  }

  /** The title the item was created with. */
  function GivenTitle(log: Log, item: Id): Option<string> {
    if log == [] then None
    else if Creates(log[|log| - 1], item) then Some(log[|log| - 1].op.title)
    else GivenTitle(log[..|log| - 1], item)
  }

  /** An item exists since its creation, under the title it was given, and is done since its completion. */
  lemma {:induction false} ItemsAreCreated(log: Log, item: Id)
    requires Faithful(log)
    ensures item in Replay(log).items <==> Occurs(log, e => Creates(e, item))
    ensures item in Replay(log).items ==>
              var row := Replay(log).items[item];
              GivenTitle(log, item) == Some(row.title) && (row.status == Done <==> Occurs(log, e => Completes(e, item)))
    ensures item !in Replay(log).items ==> !Occurs(log, e => Completes(e, item))
    decreases |log|
  {
    if log != [] {
      var init := log[..|log| - 1];
      ItemsAreCreated(init, item);
      OccursInLonger(log, e => Creates(e, item));
      OccursInLonger(log, e => Completes(e, item));
    }
  }

  // ----- Jobs -----

  predicate Accepts(e: Entry, job: Id) {
    e.op.AcceptJob? && e.answer.JobAccepted? && e.answer.job == job
  }

  predicate Succeeds(e: Entry, job: Id) {
    e.op.CompleteJob? && e.op.job == job && e.answer.CompletedNow?
  }

  predicate CountsFailure(e: Entry, job: Id) {
    e.op.RecordFailure? && e.op.job == job && (e.answer.Retryable? || e.answer.Exhausted?)
  }

  /** The item the job was accepted for. */
  function GivenItem(log: Log, job: Id): Option<Id> {
    if log == [] then None
    else if Accepts(log[|log| - 1], job) then Some(log[|log| - 1].op.item)
    else GivenItem(log[..|log| - 1], job)
  }

  /** The code of the job's latest counted failure. */
  function LatestCode(log: Log, job: Id): Option<string> {
    if log == [] then None
    else if CountsFailure(log[|log| - 1], job) then Some(log[|log| - 1].op.code)
    else LatestCode(log[..|log| - 1], job)
  }

  lemma {:induction false} JobsAreAccepted(log: Log, job: Id)
    requires Faithful(log)
    ensures job in Replay(log).jobs <==> Occurs(log, e => Accepts(e, job))
    ensures job in Replay(log).jobs ==> GivenItem(log, job) == Some(Replay(log).jobs[job].item)
    ensures job !in Replay(log).jobs ==>
              !Occurs(log, e => Succeeds(e, job)) && !Occurs(log, e => Exhausts(e, job)) && LatestCode(log, job) == None
    decreases |log|
  {
    if log != [] {
      JobsAreAccepted(log[..|log| - 1], job);
      OccursInLonger(log, e => Accepts(e, job));
      OccursInLonger(log, e => Succeeds(e, job));
      OccursInLonger(log, e => Exhausts(e, job));
    }
  }

  /** What one operation does to a job's row. */
  lemma OneJobChanges(t: Tables, e: Entry, job: Id)
    requires Allowed(t, e) && job in Effect(t, e).jobs
    ensures var row := Effect(t, e).jobs[job];
            if job !in t.jobs then
              Accepts(e, job) && row == Job(e.op.item, Accepted, 0, None, false)
            else if Succeeds(e, job) then
              t.jobs[job].state == Accepted && row.state == Succeeded && row.finished && row.lastError == None
            else if CountsFailure(e, job) then
              && t.jobs[job].state == Accepted && row.lastError == Some(e.op.code)
              && row.state == (if Exhausts(e, job) then Failed else Accepted) && (row.finished <==> Exhausts(e, job))
            else row == t.jobs[job]
  {
  }

  /** A job has succeeded since its completion and failed since its last attempt, and is accepted otherwise. Its error
      code is that of its latest failure, and gone once it has succeeded. */
  lemma {:induction false} JobsFollowTheLog(log: Log, job: Id)
    requires Faithful(log) && job in Replay(log).jobs
    ensures var row := Replay(log).jobs[job];
            && (row.state == Succeeded <==> Occurs(log, e => Succeeds(e, job)))
            && (row.state == Failed <==> Occurs(log, e => Exhausts(e, job)))
            && (row.finished <==> row.state != Accepted)
            && row.lastError == (if row.state == Succeeded then None else LatestCode(log, job))
    decreases |log|
  {
    var init := log[..|log| - 1];
    JobsAreAccepted(init, job);
    OneJobChanges(Replay(init), log[|log| - 1], job);
    if job in Replay(init).jobs {
      JobsFollowTheLog(init, job);
    }
    OccursInLonger(log, e => Succeeds(e, job));
    OccursInLonger(log, e => Exhausts(e, job));
  }

  // ----- Outbox rows -----

  predicate Queues(e: Entry, row: Id) {
    e.op.AcceptJob? && e.answer.JobAccepted? && e.answer.row == row
  }

  predicate Takes(e: Entry, row: Id) {
    e.op.BeginPublish? && e.answer.RowTaken? && e.answer.row == row
  }

  predicate Marks(e: Entry, row: Id) {
    e == Entry(MarkPublished(row), RowUpdated)
  }

  predicate ReportsFailure(e: Entry, row: Id) {
    e.op.RecordPublishFailure? && e.op.row == row && e.answer.RowUpdated?
  }

  /** The acceptance that wrote the row. */
  function GivenMessage(log: Log, row: Id): Option<Message> {
    if log == [] then None
    else
      var e := log[|log| - 1];
      if Queues(e, row) then Some(Message(e.answer.job, e.op.item)) else GivenMessage(log[..|log| - 1], row)
  }

  function TimesTaken(log: Log, row: Id): nat {
    if log == [] then 0 else TimesTaken(log[..|log| - 1], row) + (if Takes(log[|log| - 1], row) then 1 else 0)
  }

  /** The code of the latest failed publication on record. */
  function LatestReport(log: Log, row: Id): Option<string> {
    if log == [] then None
    else if ReportsFailure(log[|log| - 1], row) then Some(log[|log| - 1].op.code)
    else LatestReport(log[..|log| - 1], row)
  }

  lemma {:induction false} RowsAreQueued(log: Log, row: Id)
    requires Faithful(log)
    ensures row in Replay(log).outbox <==> Occurs(log, e => Queues(e, row))
    ensures row in Replay(log).outbox ==>
              var record := Replay(log).outbox[row];
              GivenMessage(log, row) == Some(record.payload) && record.job == record.payload.job
    ensures row !in Replay(log).outbox ==>
              !Occurs(log, e => Marks(e, row)) && TimesTaken(log, row) == 0 && LatestReport(log, row) == None
    decreases |log|
  {
    if log != [] {
      RowsAreQueued(log[..|log| - 1], row);
      OccursInLonger(log, e => Queues(e, row));
      OccursInLonger(log, e => Marks(e, row));
    }
  }

  /** What one operation does to an outbox row. */
  lemma OneRowChanges(t: Tables, e: Entry, row: Id)
    requires Allowed(t, e) && row in Effect(t, e).outbox
    ensures var record := Effect(t, e).outbox[row];
            if row !in t.outbox then
              Queues(e, row) && record.attempts == 0 && !record.published && record.lastError == None
            else
              && record.attempts == t.outbox[row].attempts + (if Takes(e, row) then 1 else 0)
              && (record.published <==> t.outbox[row].published || Marks(e, row))
              && (Marks(e, row) ==> !t.outbox[row].published && record.lastError == None)
              && (ReportsFailure(e, row) ==> !t.outbox[row].published && record.lastError == Some(e.op.code))
              && (!Marks(e, row) && !ReportsFailure(e, row) ==> record.lastError == t.outbox[row].lastError)
  {
  }

  /** A row counts exactly the attempts that took it, is published since it was marked, and shows the latest failure on
      record until then. */
  lemma {:induction false} RowsFollowTheLog(log: Log, row: Id)
    requires Faithful(log) && row in Replay(log).outbox
    ensures var record := Replay(log).outbox[row];
            && record.attempts == TimesTaken(log, row)
            && (record.published <==> Occurs(log, e => Marks(e, row)))
            && record.lastError == (if record.published then None else LatestReport(log, row))
    decreases |log|
  {
    var init := log[..|log| - 1];
    RowsAreQueued(init, row);
    OneRowChanges(Replay(init), log[|log| - 1], row);
    if row in Replay(init).outbox {
      RowsFollowTheLog(init, row);
    }
    OccursInLonger(log, e => Marks(e, row));
  }

  // ----- Results -----

  /** The completions of the log, in order. */
  function Completions(log: Log): Log {
    if log == [] then []
    else
      var e := log[|log| - 1];
      Completions(log[..|log| - 1]) + (if e.op.CompleteJob? && e.answer.CompletedNow? then [e] else [])
  }

  /** The result records the job and the item of a completion, and the analysis of the title: its characters, and its
      words by the count that never builds one. */
  predicate IsRecordOf(r: Result, e: Entry, title: string) {
    && e.op.CompleteJob? && r.job == e.op.job && r.item == e.op.item
    && r.version == 1 && r.title == title
    && r.characters == |title| && r.words == TitleAnalysis.WordStarts(title, true)
  }

  /** One operation: a completion appends its record, everything else leaves the results. */
  lemma OneResult(t: Tables, e: Entry)
    requires Allowed(t, e)
    ensures if e.op.CompleteJob? && e.answer.CompletedNow? then
              && e.op.item in t.items && Effect(t, e).results[..|t.results|] == t.results
              && |Effect(t, e).results| == |t.results| + 1
              && IsRecordOf(Effect(t, e).results[|t.results|], e, t.items[e.op.item].title)
            else Effect(t, e).results == t.results
  {
    if e.op.CompleteJob? && e.answer.CompletedNow? {
      TitleAnalysis.FieldsCountTransitions(t.items[e.op.item].title);
    }
  }

  /** The results are the completions, one for one and in order. */
  lemma {:induction false} ResultsAreCompletions(log: Log, k: nat)
    requires Faithful(log)
    ensures |Replay(log).results| == |Completions(log)|
    ensures k < |Completions(log)| ==>
              var r := Replay(log).results[k];
              GivenTitle(log, r.item).Some? && IsRecordOf(r, Completions(log)[k], GivenTitle(log, r.item).value)
    decreases |log|
  {
    if log != [] {
      var init, e := log[..|log| - 1], log[|log| - 1];
      ResultsAreCompletions(init, k);
      OneResult(Replay(init), e);
      if k < |Completions(log)| {
        TitlesStay(init, e, Replay(log).results[k].item);
        assert init + [e] == log;
      }
    }
  }

  /** An item that has a title is not created again. */
  lemma TitlesStay(init: Log, e: Entry, item: Id)
    requires Faithful(init) && Allowed(Replay(init), e)
    ensures item in Replay(init).items || GivenTitle(init, item).Some? ==>
              GivenTitle(init + [e], item) == GivenTitle(init, item)
              && item in Replay(init).items && GivenTitle(init, item) == Some(Replay(init).items[item].title)
  {
    ItemsAreCreated(init, item);
    assert (init + [e])[..|init|] == init;
    GivenMeansCreated(init, item);
  }

  lemma {:induction false} GivenMeansCreated(log: Log, item: Id)
    ensures GivenTitle(log, item).Some? <==> Occurs(log, e => Creates(e, item))
    decreases |log|
  {
    if log != [] {
      GivenMeansCreated(log[..|log| - 1], item);
      OccursInLonger(log, e => Creates(e, item));
    }
  }
}
