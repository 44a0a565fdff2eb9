/** One process of the outbox relay: a poll claims a batch, publishes and projects each row, and settles it. */
module RelayService {
  import opened Schema
  import opened ProjectionService
  import Backoff

  /** What the environment decides about one row: whether publishing succeeds, and clock and jitter if the row fails. */
  datatype Trial = Trial(published: bool, at: real, jitter: real)

  /** What a poll reads and writes: the outbox, the projection tables and the private backoff map. */
  datatype Desk = Desk(events: map<EventId, Event>, backoff: map<EventId, Attempt>, tables: Tables)

  /** What projecting an envelope does to the tables, and its outcome. */
  type Projection = (Tables, Envelope) -> (Outcome, Tables)

  /** The projection service over the journal `entries`. */
  function ServiceOver(entries: map<EntryId, Entry>): Projection
  {
    (tables, envelope) => ProjectCall(entries, tables, envelope)
  }

  function EnvelopeFor(event: Event): Envelope
  {
    Envelope(event.tenant, event.kind, event.aggregate)
  }

  function Ids(rows: seq<EventId>): set<EventId>
  {
    set id | id in rows
  }

  /* ----- Specification ----- */

  function AfterFailure(cfg: Config, d: Desk, id: EventId, trial: Trial): Desk
  {
    if GiveUp(cfg, d.backoff, id) then
      d.(events := Resolve(d.events, {id}, DeadLetter), backoff := d.backoff - {id})
    else d.(backoff := RetryLater(cfg, d.backoff, id, trial.at, trial.jitter))
  }

  /** A batch in progress: the ids that went through so far, and the tables. */
  datatype BatchState = BatchState(ok: seq<EventId>, desk: Desk)

  /** Publishes and projects one row; a failure of either is recorded for a retry. */
  function Dispatch(cfg: Config, project: Projection, b: BatchState, id: EventId, trial: Trial): (r: BatchState)
    requires id in b.desk.events
    ensures r.desk.events.Keys == b.desk.events.Keys
  {
    var (r, tables) := project(b.desk.tables, EnvelopeFor(b.desk.events[id]));
    if trial.published && r != Throws then BatchState(b.ok + [id], b.desk.(tables := tables))
    else b.(desk := AfterFailure(cfg, b.desk, id, trial))
  }

  predicate AllIn(rows: seq<EventId>, events: map<EventId, Event>)
  {
    forall i :: 0 <= i < |rows| ==> rows[i] in events
  }

  /** The first `n` rows of a batch. */
  function Batch(cfg: Config, project: Projection, d: Desk, rows: seq<EventId>, n: nat,
          trials: seq<Trial>): (r: BatchState)
    requires n <= |rows| == |trials| && AllIn(rows, d.events)
    ensures r.desk.events.Keys == d.events.Keys
  {
    if n == 0 then BatchState([], d)
    else Dispatch(cfg, project, Batch(cfg, project, d, rows, n - 1, trials), rows[n - 1], trials[n - 1])
  }

  /** One poll whose claim returned `rows`; `end` is the clock when the batch is done. */
  function Poll(cfg: Config, project: Projection, d: Desk, rows: seq<EventId>, trials: seq<Trial>, end: real): Desk
    requires AllIn(rows, d.events) && |trials| == |rows|
  {
    if rows == [] then d
    else
      var b := Batch(cfg, project, d, rows, |rows|, trials);
      Desk(Resolve(b.desk.events, Ids(b.ok), Published), Cleaned(b.desk.backoff, Ids(b.ok), end), b.desk.tables)
  }

  /* ----- The service ----- */

  class OutboxRelay {
    const cfg: Config
    const projector: Projector
    var events: map<EventId, Event>
    var backoff: map<EventId, Attempt>
    var pollCount: nat

    constructor (cfg: Config, projector: Projector, events: map<EventId, Event>)
      ensures this.cfg == cfg && this.projector == projector
      ensures this.events == events && backoff == map[] && pollCount == 0
    {
      this.cfg := cfg;
      this.projector := projector;
      this.events := events;
      backoff, pollCount := map[], 0;
    }

    function State(): Desk
      reads this, projector
    {
      Desk(events, backoff, projector.Rows())
    }

    method HandleFailure(id: EventId, trial: Trial)
      modifies this`events, this`backoff
      ensures State() == AfterFailure(cfg, old(State()), id, trial)
    {
      var attempts := AttemptsOf(backoff, id) + 1;
      if attempts > cfg.maxAttempts {
        events := Resolve(events, {id}, DeadLetter);
        backoff := backoff - {id};
        return;
      }
      var exp := Backoff.Delay(cfg.base, cfg.maxDelay, attempts);
      backoff := backoff[id := Attempt(attempts, trial.at + exp as real + trial.jitter)];
    }

    method MarkPublished(ids: seq<EventId>)
      modifies this`events, this`backoff
      ensures events == Resolve(old(events), Ids(ids), Published)
      ensures backoff == old(backoff) - Ids(ids)
    {
      events := Resolve(events, Ids(ids), Published);
      var i := 0;
      while i < |ids|
        invariant 0 <= i <= |ids|
        invariant events == Resolve(old(events), Ids(ids), Published)
        invariant backoff == old(backoff) - Ids(ids[..i])
      {
        backoff := backoff - {ids[i]};
        i := i + 1;
        assert ids[..i] == ids[..i - 1] + [ids[i - 1]];
      }
      assert Ids(ids[..i]) == Ids(ids);
    }

    /** Walks over the map and deletes what is due. */
    method PruneResolved(now: real)
      modifies this`backoff
      ensures backoff == Pruned(old(backoff), now)
    {
      var todo := backoff.Keys;
      while todo != {}
        invariant todo <= backoff.Keys
        invariant forall id :: id in backoff ==> id in old(backoff) && backoff[id] == old(backoff)[id]
        invariant forall id :: id in old(backoff) && (id in todo || old(backoff)[id].nextAt > now) ==> id in backoff
        invariant forall id :: id in backoff && id !in todo ==> backoff[id].nextAt > now
        decreases todo
      {
        var id :| id in todo;
        if backoff[id].nextAt <= now {
          backoff := backoff - {id};
        }
        todo := todo - {id};
      }
    }

    /** The body of the batch loop: publish, project, and record a failure of either. */
    method DispatchRow(id: EventId, trial: Trial, okIds: seq<EventId>) returns (okIds': seq<EventId>)
      requires id in events
      modifies this`events, this`backoff, projector`projected, projector`balances
      ensures BatchState(okIds', State())
          == Dispatch(cfg, ServiceOver(projector.entries), BatchState(okIds, old(State())), id, trial)
    {
      var success := false;
      var envelope := EnvelopeFor(events[id]);
      if trial.published {
        var r := projector.Project(envelope);
        success := r != Throws;
      }
      if success {
        okIds' := okIds + [id];
      } else {
        okIds' := okIds;
        HandleFailure(id, trial);
      }
    }

    /** One turn of the batch loop; `before` is the state at its start. */
    method DispatchNext(rows: seq<EventId>, trials: seq<Trial>, i: nat, okIds: seq<EventId>, ghost before: Desk)
      returns (okIds': seq<EventId>)
      requires i < |rows| == |trials| && AllIn(rows, before.events)
      requires BatchState(okIds, State()) == Batch(cfg, ServiceOver(projector.entries), before, rows, i, trials)
      modifies this`events, this`backoff, projector`projected, projector`balances
      ensures BatchState(okIds', State()) == Batch(cfg, ServiceOver(projector.entries), before, rows, i + 1, trials)
    {
      okIds' := DispatchRow(rows[i], trials[i], okIds);
    }

    method DispatchAll(rows: seq<EventId>, trials: seq<Trial>) returns (okIds: seq<EventId>)
      requires AllIn(rows, events) && |trials| == |rows|
      modifies this`events, this`backoff, projector`projected, projector`balances
      ensures BatchState(okIds, State())
          == Batch(cfg, ServiceOver(projector.entries), old(State()), rows, |rows|, trials)
    {
      okIds := [];
      ghost var before := State();
      for i := 0 to |rows|
        invariant BatchState(okIds, State()) == Batch(cfg, ServiceOver(projector.entries), before, rows, i, trials)
      {
        okIds := DispatchNext(rows, trials, i, okIds, before);
      }
    }

    /** The end of a batch: mark what went through, and prune a large map. */
    method Settle(okIds: seq<EventId>, end: real)
      modifies this`events, this`backoff
      ensures events == Resolve(old(events), Ids(okIds), Published)
      ensures backoff == Cleaned(old(backoff), Ids(okIds), end)
    {
      if |okIds| > 0 {
        MarkPublished(okIds);
      } else {
        assert Ids(okIds) == {};
        ResolveNone(events, Published);
        assert backoff - {} == backoff;
      }
      if |backoff| > MAP_PRUNE_THRESHOLD {
        PruneResolved(end);
      }
    }

    /**
     * `rows` is what the claim query answers, `locked` what other transactions have locked; there is one trial a
     * row.
     */
    method ProcessOnce(now: real, rows: seq<EventId>, locked: set<EventId>, trials: seq<Trial>, end: real)
      requires IsClaim(events, Excluded(backoff, now), locked, cfg.batchSize, rows) && |trials| == |rows|
      modifies this, projector`projected, projector`balances
      ensures State() == Poll(cfg, ServiceOver(projector.entries), old(State()), rows, trials, end)
      ensures pollCount == old(pollCount) + 1
    {
      pollCount := pollCount + 1;
      ClaimedRowsExist(events, Excluded(backoff, now), locked, cfg.batchSize, rows);
      if |rows| == 0 {
        return;
      }
      var okIds := DispatchAll(rows, trials);
      Settle(okIds, end);
    }
  }

  lemma ResolveNone(events: map<EventId, Event>, status: Status)
    ensures Resolve(events, {}, status) == events
  {
  }

  lemma ClaimedRowsExist(events: map<EventId, Event>, excluded: set<EventId>, locked: set<EventId>, limit: nat,
          rows: seq<EventId>)
    requires IsClaim(events, excluded, locked, limit, rows)
    ensures AllIn(rows, events)
  {
    forall i | 0 <= i < |rows|
      ensures rows[i] in events
    {
      assert Claimable(events, excluded, locked, rows[i]);
    }
  }
}
