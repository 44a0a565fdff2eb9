/**
 * What the relay guarantees about deliveries over whole runs: order, absorbing states, spacing and number of
 * publishes.
 */
module Delivery {
  import opened Wrappers
  import opened Sums
  import opened Schema
  import opened Pipeline
  import opened PipelineInvariants
  import opened PipelineTheorems
  import opened ExactlyOnce
  import Backoff

  /* ----- Published implies delivered and projected ----- */

  ghost predicate PublishesEvent(s: State, step: Step, id: EventId)
  {
    step.Work? && step.job == Publish(true) && step.w in s.workers && Busy(s.workers[step.w])
        && Head(s.workers[step.w]) == id
  }

  /** The history variable is what it says: a delivered event was successfully published at an earlier step. */
  lemma {:induction false} DeliveredWasPublished(cfg: Config, states: seq<State>, steps: seq<Step>, i: nat, id: EventId)
    requires Run(cfg, states, steps) && i < |states| && id in states[i].delivered
    ensures exists k :: 0 <= k < i && PublishesEvent(states[k], steps[k], id)
    decreases i
  {
    if i > 0 {
      assert Next(cfg, states[i - 1], steps[i - 1], states[i]);
      if id in states[i - 1].delivered {
        DeliveredWasPublished(cfg, states, steps, i - 1, id);
      } else {
        OnlyPublishDelivers(cfg, states[i - 1], steps[i - 1], states[i], id);
      }
    }
  }

  lemma OnlyPublishDelivers(cfg: Config, s: State, step: Step, s': State, id: EventId)
    requires Next(cfg, s, step, s') && id in s'.delivered && id !in s.delivered
    ensures PublishesEvent(s, step, id)
  {
  }

  /** A published event was successfully published before, and its entry is projected. */
  lemma PublishedMeansDone(cfg: Config, states: seq<State>, steps: seq<Step>, i: nat, id: EventId)
    requires Run(cfg, states, steps) && i < |states|
    requires id in states[i].events && states[i].events[id].status == Published
    ensures exists k :: 0 <= k < i && PublishesEvent(states[k], steps[k], id)
    ensures states[i].events[id].kind == JournalPosted ==>
              TargetOf(states[i].events, id).Some? && TargetOf(states[i].events, id).value in states[i].projected
  {
    RunInv(cfg, states, steps, i);
    assert Settled(states[i], id);
    DeliveredWasPublished(cfg, states, steps, i, id);
  }

  /** An entry is projected only after its event was successfully published. */
  lemma DeliveredBeforeProjected(cfg: Config, states: seq<State>, steps: seq<Step>, i: nat, e: EntryId)
    requires Run(cfg, states, steps) && i < |steps| && ProjectsEntry(states[i], steps[i], e)
    ensures exists k, id ::
              0 <= k < i && PublishesEvent(states[k], steps[k], id) && TargetOf(states[i].events, id) == Some(e)
  {
    RunInv(cfg, states, steps, i);
    assert Next(cfg, states[i], steps[i], states[i + 1]);
    var wk := states[i].workers[steps[i].w];
    assert BatchOk(states[i], wk);
    DeliveredWasPublished(cfg, states, steps, i, Head(wk));
  }

  /** published and dead_letter are never left. */
  lemma SinksAbsorb(cfg: Config, states: seq<State>, steps: seq<Step>, i: nat, j: nat, id: EventId)
    requires Run(cfg, states, steps) && i <= j < |states|
    requires id in states[i].events && states[i].events[id].status != Pending
    ensures id in states[j].events && states[j].events[id] == states[i].events[id]
  {
    RunExtends(cfg, states, steps, i, j);
    assert Progress(states[i].events[id], states[j].events[id]);
  }

  /* ----- Spacing of retries ----- */

  /** The process will not claim `id` before time `due`. */
  predicate HeldBack(wk: Worker, id: EventId, due: real)
  {
    && id in wk.backoff && wk.backoff[id].nextAt >= due
    && (wk.phase.Polling? ==> id in wk.phase.excluded)
    && (wk.phase.Dispatching? ==> id !in wk.phase.rows && id !in wk.phase.ok)
  }

  lemma WorkHoldsBack(cfg: Config, s: State, w: WorkerId, job: WorkerAction, id: EventId, due: real)
    requires WorkEnabled(cfg, s, w, job) && job != Crash
    requires s.now < due && HeldBack(s.workers[w], id, due)
    ensures HeldBack(WorkerAfter(cfg, s, w, job), id, due)
  {
    var wk := s.workers[w];
    if job.Claim? {
      forall i | 0 <= i < |job.claimed|
        ensures job.claimed[i] != id
      {
        assert Claimable(s.events, wk.phase.excluded, job.locked, job.claimed[i]);
      }
    }
  }

  /** Until then every step but a restart of the process keeps holding it back, prune included. */
  lemma {:induction false} RunHoldsBack(cfg: Config, states: seq<State>, steps: seq<Step>, i: nat, j: nat,
          w: WorkerId, id: EventId, due: real)
    requires Run(cfg, states, steps) && i <= j < |states|
    requires w in states[i].workers && HeldBack(states[i].workers[w], id, due)
    requires forall k :: i <= k < j ==> steps[k] != Work(w, Crash)
    ensures w in states[j].workers && (states[j].now >= due || HeldBack(states[j].workers[w], id, due))
    decreases j
  {
    if i < j {
      RunHoldsBack(cfg, states, steps, i, j - 1, w, id, due);
      assert Next(cfg, states[j - 1], steps[j - 1], states[j]);
      StepHoldsBack(cfg, states[j - 1], steps[j - 1], states[j], w, id, due);
    }
  }

  lemma StepHoldsBack(cfg: Config, s: State, step: Step, s': State, w: WorkerId, id: EventId, due: real)
    requires Next(cfg, s, step, s') && step != Work(w, Crash)
    requires w in s.workers && (s.now >= due || HeldBack(s.workers[w], id, due))
    ensures w in s'.workers && (s'.now >= due || HeldBack(s'.workers[w], id, due))
  {
    if s.now < due && step.Work? && step.w == w {
      WorkHoldsBack(cfg, s, w, step.job, id, due);
    }
  }

  /**
   * After a failure recorded as attempt k, the same process claims the event again no earlier than
   * min(base * 2^(k-1), max) milliseconds later.
   */
  lemma RetrySpacing(cfg: Config, states: seq<State>, steps: seq<Step>, i: nat, j: nat, w: WorkerId, id: EventId,
          jitter: real, acked: bool, claimed: seq<EventId>, locked: set<EventId>)
    requires Run(cfg, states, steps) && i < j < |steps|
    requires steps[i] == Work(w, HandleFailure(jitter, acked))
    requires steps[j] == Work(w, Claim(claimed, locked)) && id in claimed
    requires forall k :: i < k < j ==> steps[k] != Work(w, Crash)
    requires w in states[i].workers && Busy(states[i].workers[w])
    requires Head(states[i].workers[w]) == id && !GivesUp(cfg, states[i].workers[w])
    ensures w in states[i + 1].workers && id in states[i + 1].workers[w].backoff
    ensures var before, k := states[i].workers[w].backoff, states[i + 1].workers[w].backoff[id].attempts;
            && k == 1 + (if id in before then before[id].attempts else 0)
            && states[j].now >= states[i].now + Backoff.Delay(cfg.base, cfg.maxDelay, k) as real
  {
    var s, wk := states[i], states[i].workers[w];
    RunInv(cfg, states, steps, i);
    assert Next(cfg, s, steps[i], states[i + 1]);
    assert BatchOk(s, wk);
    var due := s.now + Backoff.Delay(cfg.base, cfg.maxDelay, AttemptsOf(wk.backoff, id) + 1) as real;
    assert HeldBack(states[i + 1].workers[w], id, due);
    RunHoldsBack(cfg, states, steps, i + 1, j, w, id, due);
    assert Next(cfg, states[j], steps[j], states[j + 1]);
    var x :| 0 <= x < |claimed| && claimed[x] == id;
    assert Claimable(states[j].events, states[j].workers[w].phase.excluded, locked, claimed[x]);
  }

  /* ----- Number of publishes ----- */

  function OkOf(wk: Worker): set<EventId>
  {
    if wk.phase.Dispatching? then wk.phase.ok else {}
  }

  predicate InRows(wk: Worker, id: EventId)
  {
    wk.phase.Dispatching? && id in wk.phase.rows
  }

  /** The process may still publish the event. */
  predicate Live(s: State, wk: Worker, id: EventId)
  {
    InRows(wk, id) || (id in s.events && s.events[id].status == Pending && id !in OkOf(wk))
  }

  /** The event's current dispatch has been published but not yet settled or recorded as a failure. */
  predicate Underway(wk: Worker, id: EventId)
  {
    Busy(wk) && Head(wk) == id && !wk.phase.stage.ToPublish?
  }

  ghost predicate Counted(cfg: Config, s: State, wk: Worker, id: EventId)
  {
    && AttemptsOf(wk.backoff, id) <= cfg.maxAttempts
    && Sent(wk, id) <= cfg.maxAttempts + 1
    && (Live(s, wk, id) ==> Sent(wk, id) == AttemptsOf(wk.backoff, id) + if Underway(wk, id) then 1 else 0)
    && (id !in s.events ==> id !in wk.backoff && id !in wk.sent)
  }

  ghost predicate AllCounted(cfg: Config, s: State)
  {
    forall w, id :: w in s.workers ==> Counted(cfg, s, s.workers[w], id)
  }

  /** No database error while a failure is recorded or a batch is marked, as seen by the process. */
  predicate Clean(s: State, step: Step)
  {
    step.Work? ==>
      && (step.job.BatchError? ==> step.w in s.workers && s.workers[step.w].phase.Polling?)
      && (step.job.HandleFailure? ==> step.job.acked)
  }

  /** The end of a batch prunes: it reaches the size check, and the map is over the threshold there. */
  predicate Prunes(s: State, step: Step)
  {
    && step.Work? && step.job.Finish? && step.w in s.workers && s.workers[step.w].phase.Dispatching?
    && var wk := s.workers[step.w];
       (step.job.acked || wk.phase.ok == {}) && |wk.backoff - wk.phase.ok| > MAP_PRUNE_THRESHOLD
  }

  /** The end of a batch, whether or not the process learns that its mark went through. */
  lemma EndCounts(cfg: Config, s: State, s': State, wk: Worker, backoff: map<EventId, Attempt>, id: EventId)
    requires wk.phase.Dispatching? && wk.phase.rows == [] && Counted(cfg, s, wk, id)
    requires s'.events == Resolve(s.events, wk.phase.ok, Published)
    requires backoff == wk.backoff || backoff == wk.backoff - wk.phase.ok
    ensures Counted(cfg, s', wk.(phase := Idle, backoff := backoff), id)
  {
  }

  lemma FinishCounts(cfg: Config, s: State, w: WorkerId, acked: bool, id: EventId)
    requires WorkEnabled(cfg, s, w, Finish(acked)) && !Prunes(s, Work(w, Finish(acked)))
    requires Counted(cfg, s, s.workers[w], id)
    ensures Counted(cfg, WorkApply(cfg, s, w, Finish(acked)), WorkerAfter(cfg, s, w, Finish(acked)), id)
  {
    var wk := s.workers[w];
    EndCounts(cfg, s, WorkApply(cfg, s, w, Finish(acked)), wk, wk.backoff, id);
    EndCounts(cfg, s, WorkApply(cfg, s, w, Finish(acked)), wk, wk.backoff - wk.phase.ok, id);
  }

  lemma ClaimCounts(cfg: Config, s: State, w: WorkerId, claimed: seq<EventId>, locked: set<EventId>, id: EventId)
    requires WorkEnabled(cfg, s, w, Claim(claimed, locked)) && Counted(cfg, s, s.workers[w], id)
    ensures Counted(cfg, WorkApply(cfg, s, w, Claim(claimed, locked)),
        WorkerAfter(cfg, s, w, Claim(claimed, locked)), id)
  {
    if id in claimed {
      var x :| 0 <= x < |claimed| && claimed[x] == id;
      assert Claimable(s.events, s.workers[w].phase.excluded, locked, claimed[x]);
    }
  }

  lemma FailureCounts(cfg: Config, s: State, w: WorkerId, jitter: real, id: EventId)
    requires WorkEnabled(cfg, s, w, HandleFailure(jitter, true))
    requires BatchOk(s, s.workers[w]) && Counted(cfg, s, s.workers[w], id)
    requires Counted(cfg, s, s.workers[w], Head(s.workers[w]))
    ensures Counted(cfg, WorkApply(cfg, s, w, HandleFailure(jitter, true)),
        WorkerAfter(cfg, s, w, HandleFailure(jitter, true)), id)
  {
  }

  lemma PublishCounts(cfg: Config, s: State, w: WorkerId, success: bool, id: EventId)
    requires WorkEnabled(cfg, s, w, Publish(success))
    requires BatchOk(s, s.workers[w]) && Counted(cfg, s, s.workers[w], id)
    ensures Counted(cfg, WorkApply(cfg, s, w, Publish(success)), WorkerAfter(cfg, s, w, Publish(success)), id)
  {
  }

  /** While a row is being projected the process only changes its stage or goes on to the next row. */
  lemma ProjectionMoves(cfg: Config, s: State, w: WorkerId, job: WorkerAction)
    requires WorkEnabled(cfg, s, w, job) && Busy(s.workers[w]) && InProjection(s.workers[w].phase.stage) && job != Crash
    ensures EventsAfter(cfg, s, w, job) == s.events
    ensures var wk, wk' := s.workers[w], WorkerAfter(cfg, s, w, job);
            wk' == NextRow(wk, true) || (wk'.phase.Dispatching? && wk' == At(wk, wk'.phase.stage)
                && !wk'.phase.stage.ToPublish?)
  {
  }

  lemma SettledCounts(cfg: Config, s: State, s': State, wk: Worker, id: EventId)
    requires Busy(wk) && InProjection(wk.phase.stage) && s'.events == s.events
    requires BatchOk(s, wk) && Counted(cfg, s, wk, id)
    ensures Counted(cfg, s', NextRow(wk, true), id)
  {
  }

  lemma StageCounts(cfg: Config, s: State, s': State, wk: Worker, stage: Stage, id: EventId)
    requires Busy(wk) && InProjection(wk.phase.stage) && !stage.ToPublish?
    requires s'.events == s.events && Counted(cfg, s, wk, id)
    ensures Counted(cfg, s', At(wk, stage), id)
  {
  }

  /** Projecting and settling one row. */
  lemma DispatchCounts(cfg: Config, s: State, w: WorkerId, job: WorkerAction, id: EventId)
    requires WorkEnabled(cfg, s, w, job) && Busy(s.workers[w]) && InProjection(s.workers[w].phase.stage) && job != Crash
    requires BatchOk(s, s.workers[w]) && Counted(cfg, s, s.workers[w], id)
    ensures Counted(cfg, WorkApply(cfg, s, w, job), WorkerAfter(cfg, s, w, job), id)
  {
    ProjectionMoves(cfg, s, w, job);
    var wk' := WorkerAfter(cfg, s, w, job);
    if wk' == NextRow(s.workers[w], true) {
      SettledCounts(cfg, s, WorkApply(cfg, s, w, job), s.workers[w], id);
    } else {
      StageCounts(cfg, s, WorkApply(cfg, s, w, job), s.workers[w], wk'.phase.stage, id);
    }
  }

  lemma OwnCounts(cfg: Config, s: State, w: WorkerId, job: WorkerAction, id: EventId)
    requires WorkEnabled(cfg, s, w, job) && Clean(s, Work(w, job)) && !Prunes(s, Work(w, job))
    requires BatchOk(s, s.workers[w]) && forall x :: Counted(cfg, s, s.workers[w], x)
    ensures Counted(cfg, WorkApply(cfg, s, w, job), WorkerAfter(cfg, s, w, job), id)
  {
    assert Counted(cfg, s, s.workers[w], id);
    match job
    case Finish(acked) => FinishCounts(cfg, s, w, acked, id);
    case Claim(claimed, locked) => ClaimCounts(cfg, s, w, claimed, locked, id);
    case HandleFailure(jitter, _) => FailureCounts(cfg, s, w, jitter, id);
    case Publish(success) => PublishCounts(cfg, s, w, success, id);
    case StartPoll =>
    case BatchError =>
    case Crash =>
    case _ => DispatchCounts(cfg, s, w, job, id);
  }

  /** A process is not affected by what the others do to events. */
  lemma OtherCounts(cfg: Config, s: State, s': State, wk: Worker, id: EventId)
    requires EventsProgress(s.events, s'.events) && Counted(cfg, s, wk, id) && BatchOk(s, wk)
    ensures Counted(cfg, s', wk, id)
  {
    if id in s.events {
      assert Progress(s.events[id], s'.events[id]);
    }
  }

  lemma StepCounts(cfg: Config, s: State, step: Step, s': State)
    requires Inv(cfg, s) && Next(cfg, s, step, s') && Clean(s, step) && !Prunes(s, step)
    requires AllCounted(cfg, s)
    ensures AllCounted(cfg, s')
  {
    StepExtends(cfg, s, step, s');
    forall w, id | w in s'.workers
      ensures Counted(cfg, s', s'.workers[w], id)
    {
      assert BatchOk(s, s.workers[w]);
      if step.Work? && step.w == w {
        OwnCounts(cfg, s, w, step.job, id);
      } else {
        OtherCounts(cfg, s, s', s.workers[w], id);
      }
    }
  }

  /** Up to step `i` no database error while a failure is recorded or a batch is marked, and no prune. */
  ghost predicate Undisturbed(states: seq<State>, steps: seq<Step>, i: nat)
    requires |states| == |steps| + 1 && i < |states|
  {
    forall k :: 0 <= k < i ==> Clean(states[k], steps[k]) && !Prunes(states[k], steps[k])
  }

  lemma {:induction false} RunCounts(cfg: Config, states: seq<State>, steps: seq<Step>, i: nat)
    requires Run(cfg, states, steps) && i < |states| && Undisturbed(states, steps, i)
    ensures AllCounted(cfg, states[i])
    decreases i
  {
    if i > 0 {
      RunInv(cfg, states, steps, i - 1);
      assert Next(cfg, states[i - 1], steps[i - 1], states[i]);
      RunCounts(cfg, states, steps, i - 1);
      StepCounts(cfg, states[i - 1], steps[i - 1], states[i]);
    }
  }

  /** With at most MAP_PRUNE_THRESHOLD events no backoff map grows large enough to be pruned. */
  lemma FewEventsNoPrune(cfg: Config, s: State, step: Step)
    requires AllCounted(cfg, s) && |s.events| <= 10000
    ensures !Prunes(s, step)
  {
    if step.Work? && step.w in s.workers && s.workers[step.w].phase.Dispatching? {
      var wk := s.workers[step.w];
      forall id | id in (wk.backoff - wk.phase.ok).Keys
        ensures id in s.events.Keys
      {
        assert Counted(cfg, s, wk, id);
      }
      SubsetSize((wk.backoff - wk.phase.ok).Keys, s.events.Keys);
      assert |wk.backoff - wk.phase.ok| == |(wk.backoff - wk.phase.ok).Keys| && |s.events| == |s.events.Keys|;
    }
  }

  lemma {:induction false} FewEventsUndisturbed(cfg: Config, states: seq<State>, steps: seq<Step>, i: nat)
    requires Run(cfg, states, steps) && i < |states|
    requires forall k :: 0 <= k < i ==> Clean(states[k], steps[k])
    requires |states[i].events| <= 10000
    ensures Undisturbed(states, steps, i)
    decreases i
  {
    if i > 0 {
      RunExtends(cfg, states, steps, i - 1, i);
      SubsetSize(states[i - 1].events.Keys, states[i].events.Keys);
      assert |states[i - 1].events| == |states[i - 1].events.Keys| && |states[i].events| == |states[i].events.Keys|;
      FewEventsUndisturbed(cfg, states, steps, i - 1);
      RunCounts(cfg, states, steps, i - 1);
      FewEventsNoPrune(cfg, states[i - 1], steps[i - 1]);
    }
  }

  ghost function SentBy(s: State, w: WorkerId): int
  {
    if w in s.workers then SetSum(s.events.Keys, (id: EventId) => Sent(s.workers[w], id)) else 0
  }

  /**
   * Termination: over a run without such database errors and without a prune, no process publishes an
   * event more than maxAttempts + 1 times, so N events and W processes cause at most
   * W * N * (maxAttempts + 1) publishes.
   */
  lemma PublishBound(cfg: Config, states: seq<State>, steps: seq<Step>, i: nat)
    requires Run(cfg, states, steps) && i < |states| && Undisturbed(states, steps, i)
    ensures forall w, id :: w in states[i].workers ==> Sent(states[i].workers[w], id) <= cfg.maxAttempts + 1
    ensures SetSum(states[i].workers.Keys, (w: WorkerId) => SentBy(states[i], w))
         <= |states[i].workers| * (|states[i].events| * (cfg.maxAttempts + 1))
  {
    var s := states[i];
    RunCounts(cfg, states, steps, i);
    forall w, id | w in s.workers
      ensures Sent(s.workers[w], id) <= cfg.maxAttempts + 1
    {
      assert Counted(cfg, s, s.workers[w], id);
    }
    forall w | w in s.workers
      ensures SentBy(s, w) <= |s.events| * (cfg.maxAttempts + 1)
    {
      SetSumAtMost(s.events.Keys, (id: EventId) => Sent(s.workers[w], id), cfg.maxAttempts + 1);
      assert |s.events| == |s.events.Keys|;
    }
    SetSumAtMost(s.workers.Keys, (w: WorkerId) => SentBy(s, w), |s.events| * (cfg.maxAttempts + 1));
    assert |s.workers| == |s.workers.Keys|;
  }
}
