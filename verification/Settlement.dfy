/** Where a poll leaves each row that it claims. */
module Settlement {
  import opened Schema
  import opened ProjectionService
  import opened RelayService
  import opened BoundedWaiting
  import Backoff

  /** The row is published and projected. */
  predicate Goes(project: Projection, b: BatchState, id: EventId, trial: Trial)
    requires id in b.desk.events
  {
    trial.published && project(b.desk.tables, EnvelopeFor(b.desk.events[id])).0 != Throws
  }

  lemma RowExact(cfg: Config, project: Projection, d: Desk, rows: seq<EventId>, i: nat, trials: seq<Trial>)
    requires i < |rows| == |trials| && AllIn(rows, d.events)
    ensures var b, b' := Batch(cfg, project, d, rows, i, trials), Batch(cfg, project, d, rows, i + 1, trials);
            if Goes(project, b, rows[i], trials[i])
            then b'.ok == b.ok + [rows[i]] && b'.desk == b.desk.(tables := b'.desk.tables)
            else b'.ok == b.ok && b'.desk == AfterFailure(cfg, b.desk, rows[i], trials[i])
  {
  }

  lemma RowLeaves(cfg: Config, b: BatchState, id: EventId, trial: Trial, b': BatchState, y: EventId)
    requires RowDone(cfg, b, id, trial, b') && y != id
    ensures Same(b.desk, b'.desk, y) && (y in b'.ok <==> y in b.ok)
  {
  }

  lemma SameTransitive(a: Desk, b: Desk, c: Desk, id: EventId)
    requires Same(a, b, id) && Same(b, c, id)
    ensures Same(a, c, id)
  {
  }

  /** Rows `m` up to `n` of a batch do not touch an event that is none of them. */
  lemma {:induction false} OthersLeave(cfg: Config, d: Desk, rows: seq<EventId>, trials: seq<Trial>,
          bs: seq<BatchState>, m: nat, n: nat, y: EventId)
    requires Batched(cfg, d, rows, trials, bs) && m <= n <= |rows|
    requires forall j :: m <= j < n ==> rows[j] != y
    ensures Same(bs[m].desk, bs[n].desk, y) && (y in bs[n].ok <==> y in bs[m].ok)
    decreases n
  {
    if m < n {
      OthersLeave(cfg, d, rows, trials, bs, m, n - 1, y);
      assert RowDone(cfg, bs[n - 1], rows[n - 1], trials[n - 1], bs[n]);
      RowLeaves(cfg, bs[n - 1], rows[n - 1], trials[n - 1], bs[n], y);
      SameTransitive(bs[m].desk, bs[n - 1].desk, bs[n].desk, y);
    }
  }

  /** The three ways a claimed row ends, from what it was when the poll started. */
  predicate EndsAs(cfg: Config, d: Desk, id: EventId, goes: bool, trial: Trial, d': Desk)
  {
    var k := 1 + if id in d.backoff then d.backoff[id].attempts else 0;
    && id in d.events && id in d'.events
    && if goes then d'.events[id] == d.events[id].(status := Published) && id !in d'.backoff
       else if k > cfg.maxAttempts then
         d'.events[id] == d.events[id].(status := DeadLetter) && id !in d'.backoff
       else
         && d'.events[id] == d.events[id]
         && id in d'.backoff
         && d'.backoff[id] == Attempt(k, trial.at + Backoff.Delay(cfg.base, cfg.maxDelay, k) as real + trial.jitter)
  }

  lemma OwnRow(cfg: Config, d: Desk, b: BatchState, id: EventId, goes: bool, trial: Trial, b': BatchState,
          last: BatchState, d': Desk)
    requires id in d.events && d.events[id].status == Pending && Same(d, b.desk, id) && id !in b.ok
    requires if goes then b'.ok == b.ok + [id] && b'.desk == b.desk.(tables := b'.desk.tables)
             else b'.ok == b.ok && b'.desk == AfterFailure(cfg, b.desk, id, trial)
    requires Same(b'.desk, last.desk, id) && (id in last.ok <==> id in b'.ok)
    requires d'.events == Resolve(last.desk.events, Ids(last.ok), Published)
        && d'.backoff == last.desk.backoff - Ids(last.ok)
    ensures EndsAs(cfg, d, id, goes, trial, d')
  {
    assert id in Ids(last.ok) <==> goes;
  }

  lemma TracedRow(cfg: Config, d: Desk, rows: seq<EventId>, trials: seq<Trial>, bs: seq<BatchState>, i: nat,
          goes: bool, d': Desk)
    requires Batched(cfg, d, rows, trials, bs) && PendingRows(d, rows) && i < |rows|
    requires if goes then bs[i + 1].ok == bs[i].ok + [rows[i]]
        && bs[i + 1].desk == bs[i].desk.(tables := bs[i + 1].desk.tables)
             else bs[i + 1].ok == bs[i].ok && bs[i + 1].desk == AfterFailure(cfg, bs[i].desk, rows[i], trials[i])
    requires var last := bs[|rows|];
             d'.events == Resolve(last.desk.events, Ids(last.ok), Published)
                 && d'.backoff == last.desk.backoff - Ids(last.ok)
    ensures EndsAs(cfg, d, rows[i], goes, trials[i], d')
  {
    OthersLeave(cfg, d, rows, trials, bs, 0, i, rows[i]);
    OthersLeave(cfg, d, rows, trials, bs, i + 1, |rows|, rows[i]);
    OwnRow(cfg, d, bs[i], rows[i], goes, trials[i], bs[i + 1], bs[|rows|], d');
  }

  /**
   * Every claimed row ends published, dead-lettered or waiting, as its own publish and projection went and
   * by the attempts counted when the poll started, whatever the other rows of the batch did.
   */
  lemma RowSettled(cfg: Config, d: Desk, t: Turn, i: nat)
    requires TurnOk(cfg, d, t) && BackoffOk(cfg, d) && Unpruned(cfg, d, t) && i < |t.rows|
    ensures EndsAs(cfg, d, t.rows[i],
        Goes(t.project, Batch(cfg, t.project, d, t.rows, i, t.trials), t.rows[i], t.trials[i]), t.trials[i],
                   After(cfg, d, t))
  {
    ClaimIsPending(cfg, d, t);
    var bs := BatchTrace(cfg, t.project, d, t.rows, t.trials);
    BatchEffect(cfg, d, t.rows, t.trials, bs, |t.rows|, t.rows[i]);
    RowExact(cfg, t.project, d, t.rows, i, t.trials);
    TracedRow(cfg, d, t.rows, t.trials, bs, i, Goes(t.project, bs[i], t.rows[i], t.trials[i]), After(cfg, d, t));
  }
}
