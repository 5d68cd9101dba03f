/** What every faithful log keeps, with no uniqueness constraint of the database assumed. */
module SuccessInvariant {
  import opened Records
  import opened AtomicStore

  ghost predicate HasResult(t: Tables, item: Id, job: Id) {
    exists k :: 0 <= k < |t.results| && t.results[k].item == item && t.results[k].job == job
  }

  ghost predicate JobsBelong(t: Tables) {
    forall job :: job in t.jobs ==>
      t.jobs[job].item in t.items && (t.jobs[job].finished <==> Terminal(t.jobs[job]))
  }

  ghost predicate ResultsUnique(t: Tables) {
    forall a, b :: 0 <= a < |t.results| && 0 <= b < |t.results| && t.results[a].item == t.results[b].item ==> a == b
  }

  /** A result belongs to a done item, names a succeeded job of it, and is the analysis of the stored title. */
  ghost predicate ResultMatches(t: Tables, r: Result) {
    && r.item in t.items && t.items[r.item].status == Done
    && HasJob(t, r.job, Succeeded) && t.jobs[r.job].item == r.item
    && r == ResultFor(r.item, r.job, t.items[r.item].title)
  }

  ghost predicate ResultsMatch(t: Tables) {
    forall k :: 0 <= k < |t.results| ==> ResultMatches(t, t.results[k])
  }

  ghost predicate DoneHaveResults(t: Tables) {
    forall item :: item in t.items && t.items[item].status == Done ==> exists job :: HasResult(t, item, job)
  }

  ghost predicate SucceededHaveResults(t: Tables) {
    forall job :: HasJob(t, job, Succeeded) ==> HasResult(t, t.jobs[job].item, job)
  }

  /** Accepted or succeeded. */
  predicate Live(t: Tables, job: Id) {
    job in t.jobs && t.jobs[job].state != Failed
  }

  /** At most one accepted or succeeded job per item. */
  ghost predicate OneLiveJob(t: Tables) {
    forall a, b :: Live(t, a) && Live(t, b) && t.jobs[a].item == t.jobs[b].item ==> a == b
  }

  ghost predicate HasRow(t: Tables, job: Id) {
    exists row :: row in t.outbox && t.outbox[row].job == job
  }

  /** Every job has exactly one outbox row, and that row carries the job's own identities. */
  ghost predicate OutboxMatches(t: Tables) {
    && (forall row :: row in t.outbox ==>
          var job := t.outbox[row].job;
          job in t.jobs && t.outbox[row].payload == Message(job, t.jobs[job].item))
    && (forall a, b :: a in t.outbox && b in t.outbox && t.outbox[a].job == t.outbox[b].job ==> a == b)
    && (forall job :: job in t.jobs ==> HasRow(t, job))
  }

  ghost predicate Sound(t: Tables) {
    && JobsBelong(t) && ResultsUnique(t) && ResultsMatch(t) && DoneHaveResults(t)
    && SucceededHaveResults(t) && OneLiveJob(t) && OutboxMatches(t)
  }

  /** An accepted job's item is still pending. */
  lemma AcceptedMeansPending(t: Tables, job: Id)
    requires Sound(t) && HasJob(t, job, Accepted)
    ensures IsPending(t, t.jobs[job].item)
  {
    var item := t.jobs[job].item;
    forall k | 0 <= k < |t.results| ensures t.results[k].item != item {
      assert ResultMatches(t, t.results[k]);
      assert Live(t, job) && Live(t, t.results[k].job);
    }
    assert forall winner :: !HasResult(t, item, winner);
  }

  /** A succeeded job's item is done. */
  lemma SucceededMeansDone(t: Tables, job: Id)
    requires Sound(t) && HasJob(t, job, Succeeded)
    ensures t.jobs[job].item in t.items && t.items[t.jobs[job].item].status == Done
  {
    var k :| 0 <= k < |t.results| && t.results[k].item == t.jobs[job].item && t.results[k].job == job;
    assert ResultMatches(t, t.results[k]);
  }

  lemma AppendedResult(t: Tables, t': Tables, r: Result)
    requires t'.results == t.results + [r]
    ensures forall item, job :: HasResult(t, item, job) ==> HasResult(t', item, job)
    ensures HasResult(t', r.item, r.job)
  {
    assert t'.results[|t.results|] == r;
    forall item, job | HasResult(t, item, job) ensures HasResult(t', item, job) {
      var k :| 0 <= k < |t.results| && t.results[k].item == item && t.results[k].job == job;
      assert t'.results[k] == t.results[k];
    }
  }

  /** The results part of a completion. */
  lemma CompletionKeepsResults(t: Tables, t': Tables, job: Id, item: Id)
    requires Sound(t) && Active(t, item, job) && IsPending(t, item)
    requires t'.items == t.items[item := t.items[item].(status := Done)]
    requires t'.jobs == t.jobs[job := CompletedRow(t.jobs[job])]
    requires t'.results == t.results + [ResultFor(item, job, t.items[item].title)]
    ensures ResultsUnique(t') && ResultsMatch(t')
  {
    forall k | 0 <= k < |t.results|
      ensures t.results[k].item != item && t'.results[k] == t.results[k] && ResultMatches(t', t.results[k])
    {
      assert ResultMatches(t, t.results[k]);
      assert HasJob(t, t.results[k].job, Succeeded);
    }
    assert ResultMatches(t', t'.results[|t.results|]);
  }

  lemma CompletionKeepsSound(t: Tables, t': Tables, job: Id, item: Id)
    requires Sound(t) && Active(t, item, job) && IsPending(t, item)
    requires t'.items == t.items[item := t.items[item].(status := Done)]
    requires t'.jobs == t.jobs[job := CompletedRow(t.jobs[job])] && t'.outbox == t.outbox
    requires t'.results == t.results + [ResultFor(item, job, t.items[item].title)]
    ensures Sound(t')
  {
    CompletionKeepsResults(t, t', job, item);
    AppendedResult(t, t', ResultFor(item, job, t.items[item].title));
    forall i | i in t'.items && t'.items[i].status == Done ensures exists j :: HasResult(t', i, j) {
      if i != item {
        var j :| HasResult(t, i, j);
        assert HasResult(t', i, j);
      }
    }
    forall j | HasJob(t', j, Succeeded) ensures HasResult(t', t'.jobs[j].item, j) {
      if j != job {
        assert HasJob(t, j, Succeeded);
      }
    }
    forall a, b | Live(t', a) && Live(t', b) && t'.jobs[a].item == t'.jobs[b].item ensures a == b {
      assert Live(t, a) && Live(t, b);
    }
    OutboxFollowsJobs(t, t');
  }

  /** Changing job states leaves the outbox matching. */
  lemma OutboxFollowsJobs(t: Tables, t': Tables)
    requires OutboxMatches(t) && t'.outbox == t.outbox && t'.jobs.Keys == t.jobs.Keys
    requires forall j :: j in t.jobs ==> t'.jobs[j].item == t.jobs[j].item
    ensures OutboxMatches(t')
  {
    forall j | j in t'.jobs ensures HasRow(t', j) {
      assert HasRow(t, j);
    }
  }

  lemma SameResults(t: Tables, t': Tables)
    requires t'.results == t.results
    ensures forall item, job :: HasResult(t, item, job) <==> HasResult(t', item, job)
  {
  }

  lemma FailureKeepsSound(t: Tables, job: Id, item: Id, record: Job)
    requires Sound(t) && Active(t, item, job) && record.item == item && record.state != Succeeded
    requires record.finished <==> Terminal(record)
    ensures Sound(t.(jobs := t.jobs[job := record]))
  {
    var t' := t.(jobs := t.jobs[job := record]);
    forall a, b | Live(t', a) && Live(t', b) && t'.jobs[a].item == t'.jobs[b].item ensures a == b {
      assert Live(t, a) && Live(t, b);
    }
    SameResults(t, t');
    forall k | 0 <= k < |t'.results| ensures ResultMatches(t', t'.results[k]) {
      assert ResultMatches(t, t.results[k]);
    }
    forall j | HasJob(t', j, Succeeded) ensures HasResult(t', t'.jobs[j].item, j) {
      assert HasJob(t, j, Succeeded);
    }
    forall i | i in t'.items && t'.items[i].status == Done ensures exists j :: HasResult(t', i, j) {
      var j :| HasResult(t, i, j);
      assert HasResult(t', i, j);
    }
    OutboxFollowsJobs(t, t');
  }

  lemma AcceptanceKeepsSound(t: Tables, item: Id, job: Id, row: Id)
    requires Sound(t) && IsPending(t, item) && !HasActive(t, item) && job !in t.jobs && row !in t.outbox
    ensures Sound(t.(jobs := t.jobs[job := NewJob(item)], outbox := t.outbox[row := NewRow(job, item)]))
  {
    var t' := t.(jobs := t.jobs[job := NewJob(item)], outbox := t.outbox[row := NewRow(job, item)]);
    SameResults(t, t');
    forall k | 0 <= k < |t'.results| ensures ResultMatches(t', t'.results[k]) {
      assert ResultMatches(t, t.results[k]);
    }
    forall j | HasJob(t', j, Succeeded) ensures HasResult(t', t'.jobs[j].item, j) {
      assert HasJob(t, j, Succeeded);
    }
    forall i | i in t'.items && t'.items[i].status == Done ensures exists j :: HasResult(t', i, j) {
      var j :| HasResult(t, i, j);
      assert HasResult(t', i, j);
    }
    forall a | HasJob(t, a, Succeeded) ensures t.jobs[a].item != item {
      SucceededMeansDone(t, a);
    }
    forall a | a in t.jobs && t.jobs[a].item == item ensures t.jobs[a].state == Failed {
      assert !Active(t, item, a) && !HasJob(t, a, Succeeded);
    }
    forall a, b | Live(t', a) && Live(t', b) && t'.jobs[a].item == t'.jobs[b].item ensures a == b {
      if a != job && b != job {
        assert Live(t, a) && Live(t, b);
      }
    }
    forall j | j in t'.jobs ensures HasRow(t', j) {
      if j == job {
        assert t'.outbox[row].job == job;
      } else {
        var r :| r in t.outbox && t.outbox[r].job == j;
        assert t'.outbox[r].job == j;
      }
    }
  }

  lemma OutboxUpdateKeepsSound(t: Tables, row: Id, record: OutboxRow)
    requires Sound(t) && row in t.outbox && record.job == t.outbox[row].job && record.payload == t.outbox[row].payload
    ensures Sound(t.(outbox := t.outbox[row := record]))
  {
    var t' := t.(outbox := t.outbox[row := record]);
    SameResults(t, t');
    ItemsAndJobsKept(t, t');
    forall j | j in t'.jobs ensures HasRow(t', j) {
      var r :| r in t.outbox && t.outbox[r].job == j;
      assert t'.outbox[r].job == j;
    }
  }

  /** New items and outbox changes touch no result. */
  lemma ItemsAndJobsKept(t: Tables, t': Tables)
    requires Sound(t) && t'.jobs == t.jobs && t'.results == t.results
    requires forall i :: i in t.items ==> i in t'.items && t'.items[i] == t.items[i]
    requires forall i :: i in t'.items && i !in t.items ==> t'.items[i].status == Pending
    ensures JobsBelong(t') && ResultsUnique(t') && ResultsMatch(t') && DoneHaveResults(t')
    ensures SucceededHaveResults(t') && OneLiveJob(t')
  {
    forall k | 0 <= k < |t'.results| ensures ResultMatches(t', t'.results[k]) {
      assert ResultMatches(t, t.results[k]);
    }
    forall j | HasJob(t', j, Succeeded) ensures HasResult(t', t'.jobs[j].item, j) {
      assert HasJob(t, j, Succeeded);
    }
    forall i | i in t'.items && t'.items[i].status == Done ensures exists j :: HasResult(t', i, j) {
      var j :| HasResult(t, i, j);
      assert HasResult(t', i, j);
    }
  }

  /** Every operation, whatever its answer, keeps the tables sound. */
  lemma EffectKeepsSound(t: Tables, e: Entry)
    requires Sound(t) && Allowed(t, e)
    ensures Sound(Effect(t, e))
  {
    match (e.op, e.answer)
    case (CreateItem(title), ItemCreated(item)) =>
      ItemsAndJobsKept(t, Effect(t, e));
      OutboxFollowsJobs(t, Effect(t, e));
    case (AcceptJob(item), JobAccepted(job, row)) => AcceptanceKeepsSound(t, item, job, row);
    case (CompleteJob(job, item), CompletedNow(record)) => CompletionKeepsSound(t, Effect(t, e), job, item);
    case (RecordFailure(job, item, _, _), Retryable(record)) => FailureKeepsSound(t, job, item, record);
    case (RecordFailure(job, item, _, _), Exhausted(record)) => FailureKeepsSound(t, job, item, record);
    case (BeginPublish, RowTaken(row, _)) => OutboxUpdateKeepsSound(t, row, Effect(t, e).outbox[row]);
    case (MarkPublished(row), RowUpdated) => OutboxUpdateKeepsSound(t, row, Effect(t, e).outbox[row]);
    case (RecordPublishFailure(row, _), RowUpdated) => OutboxUpdateKeepsSound(t, row, Effect(t, e).outbox[row]);
    case _ =>
  }

  lemma {:induction false} FaithfulIsSound(log: Log)
    requires Faithful(log)
    ensures Sound(Replay(log))
    decreases |log|
  {
    if log != [] {
      FaithfulIsSound(log[..|log| - 1]);
      EffectKeepsSound(Replay(log[..|log| - 1]), log[|log| - 1]);
    }
  }

  /** The committed success invariant of ADR 0003, item by item: done, exactly one result,
      and a result that names the single succeeded job stand and fall together. */
  lemma SuccessEquivalence(t: Tables, item: Id)
    requires Sound(t) && item in t.items
    ensures t.items[item].status == Done <==>
            exists k :: 0 <= k < |t.results| && OnlyResult(t, item, k)
    ensures forall k :: 0 <= k < |t.results| ==> (OnlyResult(t, item, k) <==> NamesWinner(t, item, k))
    ensures (exists job :: HasJob(t, job, Succeeded) && t.jobs[job].item == item) ==> t.items[item].status == Done
  {
    if t.items[item].status == Done {
      var job :| HasResult(t, item, job);
      var k :| 0 <= k < |t.results| && t.results[k].item == item && t.results[k].job == job;
      assert OnlyResult(t, item, k);
    }
    forall k | 0 <= k < |t.results| ensures OnlyResult(t, item, k) <==> NamesWinner(t, item, k) {
      assert ResultMatches(t, t.results[k]);
    }
    forall job | HasJob(t, job, Succeeded) && t.jobs[job].item == item ensures t.items[item].status == Done {
      SucceededMeansDone(t, job);
    }
  }

  /** Result k is the item's one and only result. */
  ghost predicate OnlyResult(t: Tables, item: Id, k: nat)
    requires k < |t.results|
  {
    t.results[k].item == item && forall m :: 0 <= m < |t.results| && t.results[m].item == item ==> m == k
  }

  /** Result k names a succeeded job of the item, and the item has no other succeeded or accepted job. */
  ghost predicate NamesWinner(t: Tables, item: Id, k: nat)
    requires k < |t.results|
  {
    var job := t.results[k].job;
    && HasJob(t, job, Succeeded) && t.jobs[job].item == item
    && forall other :: Live(t, other) && t.jobs[other].item == item ==> other == job
  }
}
