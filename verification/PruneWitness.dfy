/** A run that shows what pruning does to attempt counters: a publish that always fails is retried for ever. */
module PruneWitness {
  import opened Wrappers
  import opened Schema
  import opened Pipeline
  import opened Scripts
  import opened LedgerService
  import opened ProjectionService
  import opened RelayService
  import opened BoundedWaiting
  import opened RelayRuns
  import opened RelayLoop
  import opened Witnesses
  import opened Delivery
  import Backoff

  /** `n` pending events in the order of their ids. */
  function Waiting(n: nat): map<EventId, Event>
  {
    map id: EventId | 0 <= id < n :: Event(0, id, OtherKind, None, Pending)
  }

  lemma {:induction false} EventsArrive(cfg: Config, w: WorkerId, n: nat) returns (steps: seq<Step>, s: State)
    ensures Plays(cfg, Fresh(w), steps, s) && RelayUntouched(Fresh(w), s)
    ensures s.events == Waiting(n) && s.entries == map[] && s.usedEvents == Waiting(n).Keys
  {
    if n == 0 {
      PlaysNone(cfg, Fresh(w));
      steps, s := [], Fresh(w);
    } else {
      steps, s := EventsArrive(cfg, w, n - 1);
      var step := OtherEvent(n - 1, 0, n - 1, None);
      PlaysAppend(cfg, Fresh(w), steps, s, step);
      steps, s := steps + [step], Apply(cfg, s, step);
      assert Waiting(n) == Waiting(n - 1)[n - 1 := Event(0, n - 1, OtherKind, None, Pending)];
    }
  }

  function Rows(n: nat): seq<EventId>
  {
    seq(n, i => i)
  }

  /** Every publish fails at once. */
  function Trials(n: nat, now: real): seq<Trial>
  {
    seq(n, i => Trial(false, now, 0.0))
  }

  /** The backoff map after the first `m` failures, all due again at `due`. */
  function Failed(m: nat, due: real): map<EventId, Attempt>
  {
    map id | id in Waiting(m) :: Attempt(1, due)
  }

  lemma {:induction false} FailedNext(m: nat, due: real)
    ensures m !in Failed(m, due) && Failed(m + 1, due) == Failed(m, due)[m := Attempt(1, due)]
  {
  }

  lemma {:induction false} FailedSize(m: nat, due: real)
    ensures |Failed(m, due)| == m
  {
    if m == 0 {
      assert Failed(0, due) == map[];
    } else {
      FailedSize(m - 1, due);
      FailedNext(m - 1, due);
    }
  }

  /** When an event that fails for the first time at `now` is due again. */
  function Due(cfg: Config, now: real): real
  {
    now + Backoff.Delay(cfg.base, cfg.maxDelay, 1) as real + 0.0
  }

  /** `n` events and an empty backoff map. */
  function DeskWith(n: nat): Desk
  {
    Desk(Waiting(n), map[], Tables(map[], map[]))
  }

  /** The batch after `m` failures. */
  function FailedBatch(cfg: Config, n: nat, now: real, m: nat): BatchState
  {
    BatchState([], DeskWith(n).(backoff := Failed(m, Due(cfg, now))))
  }

  lemma {:induction false} FailsNext(cfg: Config, project: Projection, n: nat, now: real, m: nat)
    requires m < n && cfg.maxAttempts >= 1
    ensures Dispatch(cfg, project, FailedBatch(cfg, n, now, m), m, Trial(false, now, 0.0))
        == FailedBatch(cfg, n, now, m + 1)
  {
    FailedNext(m, Due(cfg, now));
    assert AttemptsOf(Failed(m, Due(cfg, now)), m) == 0;
    assert RetryLater(cfg, Failed(m, Due(cfg, now)), m, now, 0.0) == Failed(m + 1, Due(cfg, now));
  }

  lemma {:induction false} RowsWait(n: nat)
    ensures AllIn(Rows(n), Waiting(n)) && forall i :: 0 <= i < n ==> Rows(n)[i] == i
  {
  }

  lemma {:induction false} TraceUnfolds(cfg: Config, entries: map<EntryId, Entry>, d: Desk, rows: seq<EventId>,
          trials: seq<Trial>, bs: seq<BatchState>, n: nat)
    requires |rows| == |trials| && |bs| == |rows| + 1 && AllIn(rows, d.events) && n < |rows|
    requires TraceAt(cfg, entries, rows, trials, bs, n) && Batch(cfg, ServiceOver(entries), d, rows, n, trials) == bs[n]
    ensures Batch(cfg, ServiceOver(entries), d, rows, n + 1, trials) == bs[n + 1]
  {
  }

  /** Row by row the right steps make up the batch. */
  lemma {:induction false} TracesBatch(cfg: Config, entries: map<EntryId, Entry>, d: Desk, rows: seq<EventId>,
          trials: seq<Trial>, bs: seq<BatchState>, n: nat)
    requires Traces(cfg, entries, rows, trials, bs) && bs[0] == BatchState([], d) && AllIn(rows, d.events)
        && n <= |rows|
    ensures Batch(cfg, ServiceOver(entries), d, rows, n, trials) == bs[n]
  {
    if n > 0 {
      TracesBatch(cfg, entries, d, rows, trials, bs, n - 1);
      assert TraceAt(cfg, entries, rows, trials, bs, n - 1);
      TraceUnfolds(cfg, entries, d, rows, trials, bs, n - 1);
    }
  }

  /** The batch states while everything fails. */
  function FailedBatches(cfg: Config, n: nat, now: real): (bs: seq<BatchState>)
    ensures |bs| == n + 1 && forall m :: 0 <= m <= n ==> bs[m] == FailedBatch(cfg, n, now, m)
  {
    seq(n + 1, m requires 0 <= m <= n => FailedBatch(cfg, n, now, m))
  }

  lemma {:induction false} FailedAt(cfg: Config, n: nat, now: real, m: nat)
    requires m < n && cfg.maxAttempts >= 1
    ensures TraceAt(cfg, map[], Rows(n), Trials(n, now), FailedBatches(cfg, n, now), m)
  {
    var bs := FailedBatches(cfg, n, now);
    assert bs[m] == FailedBatch(cfg, n, now, m) && bs[m + 1] == FailedBatch(cfg, n, now, m + 1);
    FailsNext(cfg, ServiceOver(map[]), n, now, m);
  }

  lemma {:induction false} AllFail(cfg: Config, n: nat, now: real)
    requires cfg.maxAttempts >= 1
    ensures AllIn(Rows(n), Waiting(n))
    ensures Batch(cfg, ServiceOver(map[]), DeskWith(n), Rows(n), n, Trials(n, now)) == FailedBatch(cfg, n, now, n)
  {
    RowsWait(n);
    var bs := FailedBatches(cfg, n, now);
    assert Failed(0, Due(cfg, now)) == map[];
    forall m | 0 <= m < n
      ensures TraceAt(cfg, map[], Rows(n), Trials(n, now), bs, m)
    {
      FailedAt(cfg, n, now, m);
    }
    TracesBatch(cfg, map[], DeskWith(n), Rows(n), Trials(n, now), bs, n);
  }

  /** A poll of all events that ends when every wait has run out. */
  function Failing(cfg: Config, n: nat, now: real): Turn
  {
    Turn(ServiceOver(map[]), now, Rows(n), Trials(n, now), now + cfg.maxDelay as real)
  }

  lemma {:induction false} AllPruned(n: nat, due: real, end: real)
    requires n > MAP_PRUNE_THRESHOLD && due <= end
    ensures Cleaned(Failed(n, due), {}, end) == map[]
  {
    FailedSize(n, due);
    assert Failed(n, due) - {} == Failed(n, due);
  }

  lemma {:induction false} DueInTime(cfg: Config, now: real)
    ensures Due(cfg, now) <= now + cfg.maxDelay as real
  {
    Backoff.DelayMonotone(cfg.base, cfg.maxDelay, 1, 1);
  }

  /** More than 10000 failures in one batch, all due at its end, leave the desk as if nothing had been tried. */
  lemma {:induction false} NothingCounted(cfg: Config, n: nat, now: real)
    requires n > MAP_PRUNE_THRESHOLD && cfg.maxAttempts >= 1
    ensures AllIn(Rows(n), Waiting(n)) && After(cfg, DeskWith(n), Failing(cfg, n, now)) == DeskWith(n)
  {
    AllFail(cfg, n, now);
    DueInTime(cfg, now);
    AllPruned(n, Due(cfg, now), now + cfg.maxDelay as real);
    assert Ids([]) == {};
    ResolveNone(Waiting(n), Published);
  }

  lemma {:induction false} AllClaimed(cfg: Config, n: nat, now: real)
    requires n <= cfg.batchSize
    ensures TurnOk(cfg, DeskWith(n), Failing(cfg, n, now))
  {
    var events: map<EventId, Event>, rows := Waiting(n), Rows(n);
    forall id: EventId | Claimable(events, Excluded(map[], now), {}, id)
      ensures id in rows
    {
      assert rows[id] == id;
    }
  }

  function StartOf(cfg: Config, k: nat): real
  {
    if k == 0 then 0.0 else StartOf(cfg, k - 1) + cfg.maxDelay as real
  }

  function Desks(n: nat, polls: nat): (desks: seq<Desk>)
    ensures |desks| == polls + 1 && forall k :: 0 <= k <= polls ==> desks[k] == DeskWith(n)
  {
    seq(polls + 1, k requires 0 <= k <= polls => DeskWith(n))
  }

  function Turns(cfg: Config, n: nat, polls: nat): (turns: seq<Turn>)
    ensures |turns| == polls && forall k :: 0 <= k < polls ==> turns[k] == Failing(cfg, n, StartOf(cfg, k))
  {
    seq(polls, k requires 0 <= k < polls => Failing(cfg, n, StartOf(cfg, k)))
  }

  lemma {:induction false} TrialsOk(cfg: Config, n: nat, now: real)
    requires cfg.jitterRatio >= 0.0
    ensures AllJitterOk(cfg, Trials(n, now)) && Timed(now, Trials(n, now), now + cfg.maxDelay as real)
  {
    assert 0.0 <= cfg.jitterRatio * cfg.base as real;
  }

  lemma {:induction false} FailingLoops(cfg: Config, n: nat, polls: nat)
    requires ConfigOk(cfg) && MAP_PRUNE_THRESHOLD < n <= cfg.batchSize
    ensures Loops(cfg, map[], Desks(n, polls), Turns(cfg, n, polls))
  {
    var desks, turns := Desks(n, polls), Turns(cfg, n, polls);
    forall i | 0 <= i < polls
      ensures LoopsAt(cfg, map[], desks, turns, i)
    {
      FailingLoopsAt(cfg, n, polls, i);
    }
  }

  lemma {:induction false} FailingLoopsAt(cfg: Config, n: nat, polls: nat, i: nat)
    requires ConfigOk(cfg) && MAP_PRUNE_THRESHOLD < n <= cfg.batchSize && i < polls
    ensures LoopsAt(cfg, map[], Desks(n, polls), Turns(cfg, n, polls), i)
  {
    TurnFollows(cfg, n, polls, i);
    TurnFits(cfg, n, StartOf(cfg, i), Turns(cfg, n, polls)[i]);
    SameDeskLoops(cfg, Desks(n, polls), Turns(cfg, n, polls), i, DeskWith(n));
  }

  lemma {:induction false} TurnFollows(cfg: Config, n: nat, polls: nat, i: nat)
    requires i < polls
    ensures i > 0 ==> Turns(cfg, n, polls)[i - 1].end <= Turns(cfg, n, polls)[i].now
  {
  }

  lemma {:induction false} SameDeskLoops(cfg: Config, desks: seq<Desk>, turns: seq<Turn>, i: nat, d: Desk)
    requires i < |turns| && |desks| == |turns| + 1 && desks[i] == d && desks[i + 1] == d
    requires Turned(cfg, map[], d, turns[i], d) && (i > 0 ==> turns[i - 1].end <= turns[i].now)
    ensures LoopsAt(cfg, map[], desks, turns, i)
  {
  }

  lemma {:induction false} TurnFits(cfg: Config, n: nat, now: real, t: Turn)
    requires ConfigOk(cfg) && MAP_PRUNE_THRESHOLD < n <= cfg.batchSize && t == Failing(cfg, n, now)
    ensures Turned(cfg, map[], DeskWith(n), t, DeskWith(n))
  {
    AllClaimed(cfg, n, now);
    NothingCounted(cfg, n, now);
    TrialsOk(cfg, n, now);
  }

  lemma {:induction false} RowsOnce(n: nat, id: EventId)
    requires id < n
    ensures multiset(Rows(n))[id] == 1
  {
    if id == n - 1 {
      RowsBelow(n - 1, id);
    } else {
      RowsOnce(n - 1, id);
    }
    assert Rows(n) == Rows(n - 1) + [n - 1];
  }

  lemma {:induction false} RowsBelow(n: nat, id: EventId)
    requires id >= n
    ensures multiset(Rows(n))[id] == 0
  {
    if n > 0 {
      RowsBelow(n - 1, id);
      assert Rows(n) == Rows(n - 1) + [n - 1];
    }
  }

  lemma {:induction false} ClaimedEachTime(turns: seq<Turn>, n: nat, m: nat, id: EventId)
    requires m <= |turns| && id < n && forall k :: 0 <= k < |turns| ==> turns[k].rows == Rows(n)
    ensures ClaimsOf(turns, m, id) == m
  {
    if m > 0 {
      ClaimedEachTime(turns, n, m - 1, id);
      RowsOnce(n, id);
    }
  }

  /** Calm steps are free of the errors that the bound on publishes excludes. */
  lemma {:induction false} CalmIsClean(s: State, step: Step)
    requires Calm(step)
    ensures Clean(s, step)
  {
  }

  /**
   * With more than 10000 events in one batch there is, for any number of polls, a run without crash or
   * database error in which one process publishes every event that often, never dead-letters one and ends
   * with an empty backoff map.  Past maxAttempts + 1 polls some step of it prunes.
   */
  lemma {:induction false} RetriedForEver(cfg: Config, w: WorkerId, n: nat, polls: nat)
    returns (states: seq<State>, steps: seq<Step>)
    requires ConfigOk(cfg) && 10000 < n <= cfg.batchSize
    ensures Run(cfg, states, steps) && forall k :: 0 <= k < |steps| ==> Clean(states[k], steps[k])
    ensures w in states[|steps|].workers && states[|steps|].workers[w].backoff == map[]
        && states[|steps|].events == Waiting(n)
    ensures forall id :: 0 <= id < n ==> Sent(states[|steps|].workers[w], id) == polls
    ensures polls > cfg.maxAttempts + 1 ==> exists k :: 0 <= k < |steps| && Prunes(states[k], steps[k])
  {
    var s;
    steps, s := EventsArrive(cfg, w, n);
    FreshDesk(s, w);
    FailingLoops(cfg, n, polls);
    var turns := Turns(cfg, n, polls);
    assert polls > 0 ==> turns[0] == Failing(cfg, n, 0.0);
    assert Desks(n, polls)[0] == DeskWith(n) == DeskOf(s, w);
    var more, s' := LoopIsARun(cfg, s, w, map[], Desks(n, polls), turns, polls);
    PlaysConcat(cfg, Fresh(w), steps, s, more, s');
    steps := steps + more;
    states := PlaysIsARun(cfg, Fresh(w), steps, s');
    forall id | 0 <= id < n
      ensures Sent(s'.workers[w], id) == polls
    {
      ClaimedEachTime(turns, n, polls, id);
    }
    forall k | 0 <= k < |steps|
      ensures Clean(states[k], steps[k])
    {
      CalmIsClean(states[k], steps[k]);
    }
    assert Sent(s'.workers[w], 0) == polls;
    if polls > cfg.maxAttempts + 1 && forall k :: 0 <= k < |steps| ==> !Prunes(states[k], steps[k]) {
      PublishBound(cfg, states, steps, |steps|);
    }
  }
}
