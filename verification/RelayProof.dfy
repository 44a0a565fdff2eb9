/** Every step keeps the relay invariant: batches, settled events and projected entries. */
module RelayProof {
  import opened Schema
  import opened Pipeline
  import opened PipelineInvariants

  lemma TargetStays(s: State, s': State, id: EventId)
    requires EventsProgress(s.events, s'.events) && id in s.events
    ensures id in s'.events && TargetOf(s'.events, id) == TargetOf(s.events, id)
  {
    assert Progress(s.events[id], s'.events[id]);
  }

  lemma SettledStays(s: State, s': State, id: EventId)
    requires Extends(s, s') && Settled(s, id)
    ensures Settled(s', id)
  {
    TargetStays(s, s', id);
  }

  lemma BatchStays(s: State, s': State, wk: Worker)
    requires Extends(s, s') && BatchOk(s, wk)
    ensures BatchOk(s', wk)
  {
    if wk.phase.Dispatching? {
      forall id | id in wk.phase.ok
        ensures Settled(s', id)
      {
        SettledStays(s, s', id);
      }
      if wk.phase.rows != [] {
        TargetStays(s, s', wk.phase.rows[0]);
      }
    }
  }

  lemma NextRowOk(s: State, wk: Worker, success: bool)
    requires BatchOk(s, wk) && Busy(wk)
    requires success ==> Settled(s, Head(wk))
    ensures BatchOk(s, NextRow(wk, success))
  {
  }

  /** Settling a row does not depend on the process's own bookkeeping. */
  lemma BookkeepingIsFree(s: State, wk: Worker, wk': Worker)
    requires BatchOk(s, wk) && wk'.phase == wk.phase
    ensures BatchOk(s, wk')
  {
  }

  lemma ClaimedRowsDistinct(events: map<EventId, Event>, excluded: set<EventId>, locked: set<EventId>, limit: nat,
          rows: seq<EventId>)
    requires IsClaim(events, excluded, locked, limit, rows)
    ensures forall i, j :: 0 <= i < j < |rows| ==> rows[i] != rows[j]
    ensures forall i :: 0 <= i < |rows| ==> rows[i] in events
  {
    forall i, j | 0 <= i < j < |rows|
      ensures rows[i] != rows[j]
    {
      assert Before(events, rows[i], rows[j]);
    }
    forall i | 0 <= i < |rows|
      ensures rows[i] in events
    {
      assert Claimable(events, excluded, locked, rows[i]);
    }
  }

  /** handleFailure changes the backoff map and drops the row without settling it. */
  lemma FailedBatchOk(s: State, wk: Worker, backoff: map<EventId, Attempt>)
    requires BatchOk(s, wk) && Busy(wk)
    ensures BatchOk(s, NextRow(wk.(backoff := backoff), false))
  {
    BookkeepingIsFree(s, wk, wk.(backoff := backoff));
    NextRowOk(s, wk.(backoff := backoff), false);
  }

  /** The jobs that settle the first row or carry its projection one stage further. */
  lemma ProjectingBatchOk(cfg: Config, s: State, w: WorkerId, job: WorkerAction)
    requires WorkEnabled(cfg, s, w, job)
        && (job.Load? || job.Guard? || job.Insert? || job.Upsert? || job.CommitProjection?)
    requires BatchOk(s, s.workers[w]) && EventsAnchored(s) && s.origin.Keys == s.entries.Keys
    requires BatchOk(WorkApply(cfg, s, w, job), s.workers[w])
    ensures BatchOk(WorkApply(cfg, s, w, job), WorkerAfter(cfg, s, w, job))
  {
    var wk := s.workers[w];
    var s' := WorkApply(cfg, s, w, job);
    assert s'.events == s.events && s'.entries == s.entries && s'.delivered == s.delivered;
    if WorkerAfter(cfg, s, w, job) == NextRow(wk, true) {
      NextRowOk(s', wk, true);
    }
  }

  /** The batch of the process that takes the step. */
  lemma OwnBatchOk(cfg: Config, s: State, w: WorkerId, job: WorkerAction)
    requires WorkEnabled(cfg, s, w, job)
    requires BatchOk(s, s.workers[w]) && InFlightOk(s, s.workers[w])
    requires EventsAnchored(s) && s.origin.Keys == s.entries.Keys
    ensures BatchOk(WorkApply(cfg, s, w, job), WorkerAfter(cfg, s, w, job))
  {
    var wk := s.workers[w];
    var s' := WorkApply(cfg, s, w, job);
    WorkExtends(cfg, s, w, job);
    BatchStays(s, s', wk);
    if job.Load? || job.Guard? || job.Insert? || job.Upsert? || job.CommitProjection? {
      ProjectingBatchOk(cfg, s, w, job);
    } else if job.HandleFailure? {
      FailedBatchOk(s', wk, wk.backoff - {Head(wk)});
      FailedBatchOk(s', wk, RetryLater(cfg, wk.backoff, Head(wk), s.now, job.jitter));
    } else if job.Claim? && job.claimed != [] {
      ClaimedRowsDistinct(s.events, wk.phase.excluded, job.locked, cfg.batchSize, job.claimed);
    }
  }

  lemma PublishedStaySettled(cfg: Config, s: State, w: WorkerId, job: WorkerAction, id: EventId)
    requires WorkEnabled(cfg, s, w, job) && Extends(s, WorkApply(cfg, s, w, job))
    requires BatchOk(s, s.workers[w])
    requires id in s.events && (s.events[id].status == Published ==> Settled(s, id))
    requires WorkApply(cfg, s, w, job).events[id].status == Published
    ensures Settled(WorkApply(cfg, s, w, job), id)
  {
    SettledStays(s, WorkApply(cfg, s, w, job), id);
  }

  lemma NewProjectionOk(cfg: Config, s: State, w: WorkerId, acked: bool)
    requires WorkEnabled(cfg, s, w, CommitProjection(acked))
    requires BatchOk(s, s.workers[w]) && InFlightOk(s, s.workers[w])
    requires EventsAnchored(s) && s.origin.Keys == s.entries.Keys
    ensures ProjectedOk(WorkApply(cfg, s, w, CommitProjection(acked)), TargetOf(s.events, Head(s.workers[w])).value)
  {
  }

  lemma ProjectedStays(s: State, s': State, e: EntryId)
    requires Extends(s, s') && e in s.projected && ProjectedOk(s, e)
    ensures e in s'.projected && ProjectedOk(s', e)
  {
  }

  lemma DeliveredAreEvents(cfg: Config, s: State, w: WorkerId, job: WorkerAction)
    requires WorkEnabled(cfg, s, w, job) && BatchOk(s, s.workers[w]) && s.delivered <= s.events.Keys
    ensures WorkApply(cfg, s, w, job).delivered <= WorkApply(cfg, s, w, job).events.Keys
  {
  }

  lemma WorkKeepsBatches(cfg: Config, s: State, w: WorkerId, job: WorkerAction, v: WorkerId)
    requires JournalInv(cfg, s) && WorkEnabled(cfg, s, w, job) && Extends(s, WorkApply(cfg, s, w, job))
    requires v in s.workers && BatchOk(s, s.workers[v]) && InFlightOk(s, s.workers[v])
    ensures BatchOk(WorkApply(cfg, s, w, job), WorkApply(cfg, s, w, job).workers[v])
  {
    if v == w { OwnBatchOk(cfg, s, w, job); } else { BatchStays(s, WorkApply(cfg, s, w, job), s.workers[v]); }
  }

  lemma WorkKeepsRelay(cfg: Config, s: State, w: WorkerId, job: WorkerAction)
    requires JournalInv(cfg, s) && RelayInv(s) && WorkEnabled(cfg, s, w, job)
    requires forall v :: v in s.workers ==> InFlightOk(s, s.workers[v])
    ensures RelayInv(WorkApply(cfg, s, w, job))
  {
    var s' := WorkApply(cfg, s, w, job);
    assert BatchOk(s, s.workers[w]) && InFlightOk(s, s.workers[w]);
    WorkFrames(cfg, s, w, job);
    WorkExtends(cfg, s, w, job);
    DeliveredAreEvents(cfg, s, w, job);
    forall v | v in s'.workers
      ensures BatchOk(s', s'.workers[v])
    {
      WorkKeepsBatches(cfg, s, w, job, v);
    }
    forall id | id in s'.events && s'.events[id].status == Published
      ensures Settled(s', id)
    {
      PublishedStaySettled(cfg, s, w, job, id);
    }
    forall e | e in s'.projected
      ensures ProjectedOk(s', e)
    {
      if e in s.projected { ProjectedStays(s, s', e); } else { NewProjectionOk(cfg, s, w, job.acked); }
    }
  }

  /** A step that moves no process and publishes nothing. */
  lemma RelayFrame(s: State, s': State)
    requires RelayInv(s) && Extends(s, s')
    requires s'.workers == s.workers && s'.delivered == s.delivered && s'.projected == s.projected
    requires forall id :: id in s'.events && id !in s.events ==> s'.events[id].status == Pending
    requires forall id :: id in s.events ==> s'.events[id] == s.events[id]
    ensures RelayInv(s')
  {
    forall v | v in s'.workers
      ensures BatchOk(s', s'.workers[v])
    {
      BatchStays(s, s', s.workers[v]);
    }
    forall id | id in s'.events && s'.events[id].status == Published
      ensures Settled(s', id)
    {
      SettledStays(s, s', id);
    }
    forall e | e in s'.projected
      ensures ProjectedOk(s', e)
    {
      ProjectedStays(s, s', e);
    }
  }
}
