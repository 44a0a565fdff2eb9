/** How long an eligible event waits for one relay process that nothing prunes, restarts or interrupts. */
module BoundedWaiting {
  import opened Sums
  import opened Schema
  import opened RelayService
  import opened Claims

  /** One poll: how the projection behaves during it, its clock, its claim and its trials. */
  datatype Turn = Turn(project: Projection, now: real, rows: seq<EventId>, trials: seq<Trial>, end: real)

  ghost predicate TurnOk(cfg: Config, d: Desk, t: Turn)
  {
    && IsClaim(d.events, Excluded(d.backoff, t.now), {}, cfg.batchSize, t.rows)
    && |t.trials| == |t.rows| && AllIn(t.rows, d.events)
    && t.now <= t.end
  }

  function After(cfg: Config, d: Desk, t: Turn): Desk
    requires AllIn(t.rows, d.events) && |t.trials| == |t.rows|
  {
    Poll(cfg, t.project, d, t.rows, t.trials, t.end)
  }

  /**
   * Between two polls only events created after `x`, or with it and with a larger id, arrive; the projection
   * tables may change at will.
   */
  ghost predicate Arrivals(x: EventId, d: Desk, d': Desk)
  {
    && d'.backoff == d.backoff
    && (forall id :: id in d.events ==> id in d'.events && d'.events[id] == d.events[id])
    && (forall id :: id in d'.events && id !in d.events && x in d'.events ==>
         || d'.events[id].created > d'.events[x].created
         || (d'.events[id].created == d'.events[x].created && id > x))
  }

  /** Every entry of the backoff map belongs to an event and has been counted at most maxAttempts times. */
  ghost predicate BackoffOk(cfg: Config, d: Desk)
  {
    && d.backoff.Keys <= d.events.Keys
    && forall id :: id in d.backoff ==> d.backoff[id].attempts <= cfg.maxAttempts
  }

  /** The attempts an event has left. */
  function Left(cfg: Config, d: Desk, id: EventId): nat
  {
    if id in d.events && d.events[id].status == Pending && AttemptsOf(d.backoff, id) <= cfg.maxAttempts
    then cfg.maxAttempts + 1 - AttemptsOf(d.backoff, id) else 0
  }

  /** The events created before `x`, or with it and with a smaller id. */
  ghost function Ahead(d: Desk, x: EventId): set<EventId>
    requires x in d.events
  {
    set id | id in d.events && Older(d.events, id, x)
  }

  /** R: the total remaining attempts of the events ordered before `x`. */
  ghost function Remaining(cfg: Config, d: Desk, x: EventId): int
    requires x in d.events
  {
    SetSum(Ahead(d, x), (id: EventId) => Left(cfg, d, id))
  }

  /* ----- What a batch does to one event ----- */

  predicate Same(d: Desk, d': Desk, id: EventId)
  {
    && (id in d.events <==> id in d'.events) && (id in d.events ==> d'.events[id] == d.events[id])
    && (id in d.backoff <==> id in d'.backoff) && (id in d.backoff ==> d'.backoff[id] == d.backoff[id])
  }

  ghost predicate PendingRows(d: Desk, rows: seq<EventId>)
  {
    && (forall i :: 0 <= i < |rows| ==> rows[i] in d.events && d.events[rows[i]].status == Pending)
    && (forall i, j :: 0 <= i < j < |rows| ==> rows[i] != rows[j])
  }

  /** One dispatched row: it goes through, or its failure is recorded. */
  predicate RowDone(cfg: Config, b: BatchState, id: EventId, trial: Trial, b': BatchState)
  {
    || (b'.ok == b.ok + [id] && b'.desk == b.desk.(tables := b'.desk.tables))
    || (b'.ok == b.ok && b'.desk == AfterFailure(cfg, b.desk, id, trial))
  }

  lemma BatchStep(cfg: Config, project: Projection, d: Desk, rows: seq<EventId>, n: nat, trials: seq<Trial>)
    requires n < |rows| == |trials| && AllIn(rows, d.events)
    ensures RowDone(cfg, Batch(cfg, project, d, rows, n, trials), rows[n], trials[n],
        Batch(cfg, project, d, rows, n + 1, trials))
  {
  }

  lemma RowEffect(cfg: Config, b: BatchState, id: EventId, trial: Trial, b': BatchState, y: EventId)
    requires id in b.desk.events && b.desk.events[id].status == Pending
    requires BackoffOk(cfg, b.desk) && RowDone(cfg, b, id, trial, b')
    ensures BackoffOk(cfg, b'.desk)
    ensures y != id ==> Same(b.desk, b'.desk, y) && (y in b'.ok <==> y in b.ok)
    ensures (id in b'.ok && Same(b.desk, b'.desk, id))
        || (b'.ok == b.ok && Left(cfg, b'.desk, id) < Left(cfg, b.desk, id))
  {
  }

  predicate Aligned(d: Desk, d': Desk, id: EventId)
  {
    (id in d.events <==> id in d'.events) && (id in d.events ==> d'.events[id].created == d.events[id].created)
  }

  lemma RowAligned(cfg: Config, b: BatchState, id: EventId, trial: Trial, b': BatchState, y: EventId)
    requires RowDone(cfg, b, id, trial, b')
    ensures Aligned(b.desk, b'.desk, y)
  {
  }

  predicate Spent(cfg: Config, d: Desk, b: BatchState, id: EventId)
  {
    (id in b.ok && Same(d, b.desk, id)) || (id !in b.ok && Left(cfg, b.desk, id) < Left(cfg, d, id))
  }

  /** Where an event stands after the first `n` rows: spent if it is one of them, untouched otherwise. */
  predicate Accounted(cfg: Config, d: Desk, b: BatchState, rows: seq<EventId>, n: nat, id: EventId)
    requires n <= |rows|
  {
    if id in rows[..n] then Spent(cfg, d, b, id) else id !in b.ok && Same(d, b.desk, id)
  }

  lemma RowAccounted(cfg: Config, d: Desk, b: BatchState, rows: seq<EventId>, n: nat, trial: Trial, b': BatchState,
          id: EventId)
    requires n < |rows| && PendingRows(d, rows) && BackoffOk(cfg, b.desk) && RowDone(cfg, b, rows[n], trial, b')
    requires Accounted(cfg, d, b, rows, n, id) && Accounted(cfg, d, b, rows, n, rows[n])
    ensures BackoffOk(cfg, b'.desk) && Accounted(cfg, d, b', rows, n + 1, id)
  {
    assert rows[n] !in rows[..n];
    RowEffect(cfg, b, rows[n], trial, b', id);
    assert rows[..n + 1] == rows[..n] + [rows[n]];
  }

  /** The states a batch goes through, row by row. */
  predicate Batched(cfg: Config, d: Desk, rows: seq<EventId>, trials: seq<Trial>, bs: seq<BatchState>)
  {
    && |rows| == |trials| && |bs| == |rows| + 1 && bs[0] == BatchState([], d)
    && forall i :: 0 <= i < |rows| ==> RowDone(cfg, bs[i], rows[i], trials[i], bs[i + 1])
  }

  lemma {:induction false} BatchTrace(cfg: Config, project: Projection, d: Desk, rows: seq<EventId>,
          trials: seq<Trial>)
    returns (bs: seq<BatchState>)
    requires |rows| == |trials| && AllIn(rows, d.events)
    ensures Batched(cfg, d, rows, trials, bs) && forall i :: 0 <= i <= |rows| ==>
        bs[i] == Batch(cfg, project, d, rows, i, trials)
  {
    bs := seq(|rows| + 1, i requires 0 <= i <= |rows| => Batch(cfg, project, d, rows, i, trials));
    forall i | 0 <= i < |rows|
      ensures RowDone(cfg, bs[i], rows[i], trials[i], bs[i + 1])
    {
      BatchStep(cfg, project, d, rows, i, trials);
    }
  }

  lemma {:induction false} BatchEffect(cfg: Config, d: Desk, rows: seq<EventId>, trials: seq<Trial>,
          bs: seq<BatchState>, n: nat, id: EventId)
    requires Batched(cfg, d, rows, trials, bs) && PendingRows(d, rows) && BackoffOk(cfg, d) && n <= |rows|
    ensures BackoffOk(cfg, bs[n].desk) && Accounted(cfg, d, bs[n], rows, n, id)
    ensures Aligned(d, bs[n].desk, id)
  {
    if n > 0 {
      BatchEffect(cfg, d, rows, trials, bs, n - 1, id);
      BatchEffect(cfg, d, rows, trials, bs, n - 1, rows[n - 1]);
      assert RowDone(cfg, bs[n - 1], rows[n - 1], trials[n - 1], bs[n]);
      RowAccounted(cfg, d, bs[n - 1], rows, n - 1, trials[n - 1], bs[n], id);
      RowAligned(cfg, bs[n - 1], rows[n - 1], trials[n - 1], bs[n], id);
    }
  }

  /** The end of the poll does not prune: its batch leaves at most MAP_PRUNE_THRESHOLD entries in the map. */
  predicate Unpruned(cfg: Config, d: Desk, t: Turn)
    requires AllIn(t.rows, d.events) && |t.trials| == |t.rows|
  {
    var b := Batch(cfg, t.project, d, t.rows, |t.rows|, t.trials);
    t.rows == [] || |b.desk.backoff - Ids(b.ok)| <= MAP_PRUNE_THRESHOLD
  }

  /** With no more events than the threshold no poll prunes. */
  lemma FewEventsUnpruned(cfg: Config, d: Desk, t: Turn)
    requires TurnOk(cfg, d, t) && BackoffOk(cfg, d) && |d.events.Keys| <= 10000
    ensures Unpruned(cfg, d, t)
  {
    if t.rows != [] {
      ClaimIsPending(cfg, d, t);
      var bs := BatchTrace(cfg, t.project, d, t.rows, t.trials);
      var b := bs[|t.rows|];
      BatchEffect(cfg, d, t.rows, t.trials, bs, |t.rows|, t.rows[0]);
      SubsetSize((b.desk.backoff - Ids(b.ok)).Keys, b.desk.events.Keys);
      assert |b.desk.backoff - Ids(b.ok)| == |(b.desk.backoff - Ids(b.ok)).Keys|;
    }
  }

  /**
   * Cleaning keeps the attempt counters of unmarked events exactly when it does not prune or nothing counted is
   * due.
   */
  lemma CleanedKeepsCounters(backoff: map<EventId, Attempt>, ok: set<EventId>, now: real)
    ensures (forall id :: id !in ok ==> AttemptsOf(Cleaned(backoff, ok, now), id) == AttemptsOf(backoff, id))
       <==> |backoff - ok| <= 10000
            || forall id :: id in backoff && id !in ok && backoff[id].nextAt <= now ==> backoff[id].attempts == 0
  {
    var rest := backoff - ok;
    if |rest| > MAP_PRUNE_THRESHOLD {
      forall id | id in backoff && id !in ok && backoff[id].nextAt <= now
        ensures AttemptsOf(Cleaned(backoff, ok, now), id) == 0
      {
      }
    }
  }

  lemma ClaimIsPending(cfg: Config, d: Desk, t: Turn)
    requires TurnOk(cfg, d, t)
    ensures PendingRows(d, t.rows)
  {
    forall i | 0 <= i < |t.rows|
      ensures t.rows[i] in d.events && d.events[t.rows[i]].status == Pending
    {
      assert Claimable(d.events, Excluded(d.backoff, t.now), {}, t.rows[i]);
    }
    forall i, j | 0 <= i < j < |t.rows|
      ensures t.rows[i] != t.rows[j]
    {
      assert Before(d.events, t.rows[i], t.rows[j]);
    }
  }

  /** Marking what went through takes all its attempts away. */
  lemma MarkEffect(cfg: Config, d: Desk, b: BatchState, d': Desk, id: EventId)
    requires d'.events == Resolve(b.desk.events, Ids(b.ok), Published) && d'.backoff == b.desk.backoff - Ids(b.ok)
    ensures Aligned(b.desk, d', id)
    ensures id !in b.ok ==> Same(b.desk, d', id)
    ensures id in b.ok ==> Left(cfg, d', id) == 0
  {
  }

  lemma MarkKeepsBackoff(cfg: Config, b: BatchState, d': Desk)
    requires d'.events == Resolve(b.desk.events, Ids(b.ok), Published) && d'.backoff == b.desk.backoff - Ids(b.ok)
    requires BackoffOk(cfg, b.desk)
    ensures BackoffOk(cfg, d')
  {
  }

  lemma PendingHasAttempts(cfg: Config, d: Desk, rows: seq<EventId>, id: EventId)
    requires PendingRows(d, rows) && BackoffOk(cfg, d) && id in rows
    ensures Left(cfg, d, id) >= 1
  {
  }

  lemma SettleEffect(cfg: Config, d: Desk, b: BatchState, rows: seq<EventId>, d': Desk, id: EventId)
    requires PendingRows(d, rows) && BackoffOk(cfg, d) && BackoffOk(cfg, b.desk)
    requires Accounted(cfg, d, b, rows, |rows|, id) && Aligned(d, b.desk, id)
    requires d'.events == Resolve(b.desk.events, Ids(b.ok), Published) && d'.backoff == b.desk.backoff - Ids(b.ok)
    ensures if id in rows then Left(cfg, d', id) < Left(cfg, d, id) else Same(d, d', id)
    ensures BackoffOk(cfg, d') && Aligned(d, d', id)
  {
    assert rows[..|rows|] == rows;
    MarkEffect(cfg, d, b, d', id);
    MarkKeepsBackoff(cfg, b, d');
    if id in rows { PendingHasAttempts(cfg, d, rows, id); }
  }

  /** A poll costs every row it claims at least one attempt and leaves every other event alone. */
  lemma PollEffect(cfg: Config, d: Desk, t: Turn, id: EventId)
    requires TurnOk(cfg, d, t) && BackoffOk(cfg, d) && Unpruned(cfg, d, t)
    ensures if id in t.rows then Left(cfg, After(cfg, d, t), id) < Left(cfg, d, id) else Same(d, After(cfg, d, t), id)
    ensures BackoffOk(cfg, After(cfg, d, t)) && Aligned(d, After(cfg, d, t), id)
  {
    ClaimIsPending(cfg, d, t);
    if t.rows != [] {
      var bs := BatchTrace(cfg, t.project, d, t.rows, t.trials);
      var b := bs[|t.rows|];
      BatchEffect(cfg, d, t.rows, t.trials, bs, |t.rows|, id);
      SettleEffect(cfg, d, b, t.rows, After(cfg, d, t), id);
    }
  }

  /* ----- What a poll that passes `x` over does to R ----- */

  /** Lowering a sum by at least one on each element of `part` lowers it by at least the size of `part`. */
  lemma SumDrops<T(!new)>(s: set<T>, part: set<T>, f: T -> int, g: T -> int)
    requires part <= s
    requires forall x :: x in s ==> g(x) <= f(x)
    requires forall x :: x in part ==> g(x) + 1 <= f(x)
    ensures SetSum(s, g) + |part| <= SetSum(s, f)
  {
    var drop := (x: T) => f(x) - g(x);
    SetSumPlus(s, g, drop, f);
    SetSumUnion(part, s - part, drop);
    assert part + (s - part) == s;
    SetSumAtLeastSize(part, drop);
    SetSumNonNegative(s - part, drop);
  }

  /** Pending, and any wait of the event has run out. */
  ghost predicate Eligible(d: Desk, now: real, x: EventId)
  {
    x in d.events && d.events[x].status == Pending && (x in d.backoff ==> d.backoff[x].nextAt <= now)
  }

  /** A poll that passes an eligible event over is full, and every row in it comes before that event. */
  lemma PassedOver(cfg: Config, d: Desk, t: Turn, x: EventId)
    requires TurnOk(cfg, d, t) && Eligible(d, t.now, x) && x !in t.rows
    ensures |t.rows| == cfg.batchSize && Ids(t.rows) <= Ahead(d, x)
  {
  }

  lemma PollDrops(cfg: Config, d: Desk, t: Turn, x: EventId)
    requires TurnOk(cfg, d, t) && BackoffOk(cfg, d) && Unpruned(cfg, d, t)
    requires Eligible(d, t.now, x) && x !in t.rows
    ensures Same(d, After(cfg, d, t), x)
    ensures Remaining(cfg, After(cfg, d, t), x) + cfg.batchSize <= Remaining(cfg, d, x)
  {
    var d' := After(cfg, d, t);
    PollEffect(cfg, d, t, x);
    PassedOver(cfg, d, t, x);
    ClaimIsPending(cfg, d, t);
    IdsSize(t.rows);
    forall id
      ensures id in t.rows ==> Left(cfg, d', id) + 1 <= Left(cfg, d, id)
      ensures Left(cfg, d', id) <= Left(cfg, d, id)
    {
      PollEffect(cfg, d, t, id);
    }
    SumDrops(Ahead(d, x), Ids(t.rows), (id: EventId) => Left(cfg, d, id), (id: EventId) => Left(cfg, d', id));
    forall id
      ensures Aligned(d, d', id)
    {
      PollEffect(cfg, d, t, id);
    }
    AheadStays(d, d', x);
  }

  lemma AheadStays(d: Desk, d': Desk, x: EventId)
    requires x in d.events && forall id :: Aligned(d, d', id)
    ensures x in d'.events && Ahead(d', x) == Ahead(d, x)
  {
    assert Aligned(d, d', x);
    forall id
      ensures id in Ahead(d, x) <==> id in Ahead(d', x)
    {
      assert Aligned(d, d', id);
    }
  }

  /** Arrivals behind `x` do not change R. */
  lemma ArrivalsKeep(cfg: Config, d: Desk, d': Desk, x: EventId)
    requires x in d.events && Arrivals(x, d, d') && BackoffOk(cfg, d)
    ensures x in d'.events && d'.events[x] == d.events[x]
    ensures Remaining(cfg, d', x) == Remaining(cfg, d, x) && BackoffOk(cfg, d')
  {
    assert Ahead(d', x) == Ahead(d, x);
    SetSumEqual(Ahead(d, x), (id: EventId) => Left(cfg, d, id), (id: EventId) => Left(cfg, d', id));
    forall id | id in d.backoff
      ensures id in d'.events
    {
      assert id in d.events;
    }
  }

  /* ----- Consecutive polls ----- */

  /** Poll `i` of one process starts from `desks[i]`, does not prune, and the next one starts from what it left. */
  ghost predicate ServesAt(cfg: Config, desks: seq<Desk>, turns: seq<Turn>, x: EventId, i: nat)
    requires i < |turns| == |desks|
  {
    && TurnOk(cfg, desks[i], turns[i]) && Unpruned(cfg, desks[i], turns[i])
    && (i + 1 < |turns| ==>
          turns[i].end <= turns[i + 1].now && Arrivals(x, After(cfg, desks[i], turns[i]), desks[i + 1]))
  }

  /** The polls of one process, one after the other. */
  ghost predicate Serves(cfg: Config, desks: seq<Desk>, turns: seq<Turn>, x: EventId)
  {
    |desks| == |turns| && forall i :: 0 <= i < |turns| ==> ServesAt(cfg, desks, turns, x, i)
  }

  /** Until it is claimed, `x` stays eligible and every poll takes batchSize attempts from R. */
  lemma {:induction false} StillWaiting(cfg: Config, desks: seq<Desk>, turns: seq<Turn>, x: EventId, k: nat)
    requires Serves(cfg, desks, turns, x) && k < |turns|
    requires BackoffOk(cfg, desks[0]) && Eligible(desks[0], turns[0].now, x)
    requires forall i :: 0 <= i < k ==> x !in turns[i].rows
    ensures BackoffOk(cfg, desks[k]) && Eligible(desks[k], turns[k].now, x)
    ensures Remaining(cfg, desks[k], x) + k * cfg.batchSize <= Remaining(cfg, desks[0], x)
  {
    if k > 0 {
      StillWaiting(cfg, desks, turns, x, k - 1);
      ServedOn(cfg, desks, turns, x, k - 1);
      Distribute(k - 1, cfg.batchSize);
    }
  }

  lemma ServedOn(cfg: Config, desks: seq<Desk>, turns: seq<Turn>, x: EventId, k: nat)
    requires Serves(cfg, desks, turns, x) && k + 1 < |turns|
    requires BackoffOk(cfg, desks[k]) && Eligible(desks[k], turns[k].now, x) && x !in turns[k].rows
    ensures BackoffOk(cfg, desks[k + 1]) && Eligible(desks[k + 1], turns[k + 1].now, x)
    ensures Remaining(cfg, desks[k + 1], x) + cfg.batchSize <= Remaining(cfg, desks[k], x)
  {
    assert ServesAt(cfg, desks, turns, x, k);
    NextTurn(cfg, desks[k], turns[k], desks[k + 1], turns[k + 1], x);
  }

  lemma NextTurn(cfg: Config, d: Desk, t: Turn, d': Desk, t': Turn, x: EventId)
    requires TurnOk(cfg, d, t) && BackoffOk(cfg, d) && Unpruned(cfg, d, t)
    requires Eligible(d, t.now, x) && x !in t.rows
    requires t.end <= t'.now && Arrivals(x, After(cfg, d, t), d')
    ensures BackoffOk(cfg, d') && Eligible(d', t'.now, x)
    ensures Remaining(cfg, d', x) + cfg.batchSize <= Remaining(cfg, d, x)
  {
    PollEffect(cfg, d, t, x);
    PollDrops(cfg, d, t, x);
    ArrivalsKeep(cfg, After(cfg, d, t), d', x);
  }

  /** Bounded waiting: an eligible event is claimed within floor(R / batchSize) + 1 polls. */
  lemma {:induction false} ClaimedInTime(cfg: Config, desks: seq<Desk>, turns: seq<Turn>, x: EventId)
    requires ConfigOk(cfg) && Serves(cfg, desks, turns, x) && turns != []
    requires BackoffOk(cfg, desks[0]) && Eligible(desks[0], turns[0].now, x)
    requires |turns| >= Remaining(cfg, desks[0], x) / cfg.batchSize + 1
    ensures exists k :: 0 <= k <= Remaining(cfg, desks[0], x) / cfg.batchSize && x in turns[k].rows
  {
    var r := Remaining(cfg, desks[0], x);
    SetSumNonNegative(Ahead(desks[0], x), (id: EventId) => Left(cfg, desks[0], id));
    var q := r / cfg.batchSize;
    if forall k :: 0 <= k < q ==> x !in turns[k].rows {
      ClaimedByThen(cfg, desks, turns, x, r, q);
    }
  }

  lemma ClaimedByThen(cfg: Config, desks: seq<Desk>, turns: seq<Turn>, x: EventId, r: nat, q: nat)
    requires Serves(cfg, desks, turns, x) && q < |turns| && cfg.batchSize >= 1
    requires BackoffOk(cfg, desks[0]) && Eligible(desks[0], turns[0].now, x)
    requires r == Remaining(cfg, desks[0], x) && q == r / cfg.batchSize
    requires forall k :: 0 <= k < q ==> x !in turns[k].rows
    ensures x in turns[q].rows
  {
    StillWaiting(cfg, desks, turns, x, q);
    assert ServesAt(cfg, desks, turns, x, q);
    LastTurn(cfg, desks[q], turns[q], x, r, q);
  }

  /** When R is used up the next poll cannot pass `x` over. */
  lemma LastTurn(cfg: Config, d: Desk, t: Turn, x: EventId, r: nat, q: nat)
    requires TurnOk(cfg, d, t) && BackoffOk(cfg, d) && Unpruned(cfg, d, t)
    requires Eligible(d, t.now, x) && cfg.batchSize >= 1
    requires q == r / cfg.batchSize && Remaining(cfg, d, x) + q * cfg.batchSize <= r
    ensures x in t.rows
  {
    if x !in t.rows {
      PollDrops(cfg, d, t, x);
      var d' := After(cfg, d, t);
      SetSumNonNegative(Ahead(d', x), (id: EventId) => Left(cfg, d', id));
      QuotientBound(r, cfg.batchSize);
    }
  }

  lemma QuotientBound(r: nat, b: nat)
    requires b >= 1
    ensures r < r / b * b + b
  {
    assert r == r / b * b + r % b;
  }
}
