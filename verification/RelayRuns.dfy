/** A poll without interference is a run of the pipeline: the service and the state machine do the same. */
module RelayRuns {
  import opened Schema
  import opened Pipeline
  import opened Scripts
  import opened ProjectionService
  import opened RelayService

  function DeskOf(s: State, w: WorkerId): Desk
    requires w in s.workers
  {
    Desk(s.events, s.workers[w].backoff, Tables(s.projected, s.balances))
  }

  /** `s` has the process `w` in front of `rows`, with `b` done so far. */
  ghost predicate Stands(s: State, w: WorkerId, entries: map<EntryId, Entry>, b: BatchState, rows: seq<EventId>,
          now: real)
  {
    && w in s.workers && Uncontended(s, w) && s.entries == entries && s.now == now
    && DeskOf(s, w) == b.desk && s.workers[w].phase == Dispatching(rows, Ids(b.ok), ToPublish)
  }

  predicate JitterOk(cfg: Config, trial: Trial)
  {
    0.0 <= trial.jitter <= cfg.jitterRatio * cfg.base as real
  }

  predicate AllJitterOk(cfg: Config, trials: seq<Trial>)
  {
    forall i :: 0 <= i < |trials| ==> JitterOk(cfg, trials[i])
  }

  /** After a failure: the wait, or the dead-letter mark. */
  lemma {:induction false} FailurePlays(cfg: Config, s: State, w: WorkerId, trial: Trial)
    returns (steps: seq<Step>, s': State)
    requires w in s.workers && Busy(s.workers[w]) && s.workers[w].phase.stage == Failing
    requires s.now == trial.at && JitterOk(cfg, trial)
    ensures Plays(cfg, s, steps, s')
    ensures s' == s.(events := s'.events, workers := s'.workers) && s'.workers.Keys == s.workers.Keys
    ensures forall v :: v in s.workers && v != w ==> s'.workers[v] == s.workers[v]
    ensures DeskOf(s', w) == AfterFailure(cfg, DeskOf(s, w), Head(s.workers[w]), trial)
    ensures s'.workers[w].phase == NextRow(s.workers[w], false).phase && s'.workers[w].sent == s.workers[w].sent
  {
    PlaysNone(cfg, s);
    steps, s' := WorkPlays(cfg, s, [], s, w, WorkerAction.HandleFailure(trial.jitter, true));
  }

  lemma {:induction false} PublishPlays(cfg: Config, s: State, w: WorkerId, published: bool)
    returns (steps: seq<Step>, s': State)
    requires w in s.workers && Busy(s.workers[w]) && s.workers[w].phase.stage == ToPublish
    ensures Plays(cfg, s, steps, s')
    ensures s' == s.(workers := s'.workers, delivered := s'.delivered) && s'.workers.Keys == s.workers.Keys
    ensures forall v :: v in s.workers && v != w ==> s'.workers[v] == s.workers[v]
    ensures s'.workers[w] == At(s.workers[w], if published then Delivered else Failing)
                               .(sent := s.workers[w].sent[Head(s.workers[w]) := Sent(s.workers[w],
                                   Head(s.workers[w])) + 1])
  {
    PlaysNone(cfg, s);
    steps, s' := WorkPlays(cfg, s, [], s, w, Publish(published));
  }

  lemma {:induction false} TickPlays(cfg: Config, s: State, now: real) returns (steps: seq<Step>, s': State)
    requires s.now <= now
    ensures Plays(cfg, s, steps, s') && s' == s.(now := now)
  {
    PlaysNone(cfg, s);
    PlaysAppend(cfg, s, [], s, Tick(now - s.now));
    steps, s' := [Tick(now - s.now)], Apply(cfg, s, Tick(now - s.now));
  }

  /** The row of `w` has been tried: published, and projected if that succeeded. */
  ghost predicate Tried(s: State, w: WorkerId, published: bool, s': State)
    requires w in s.workers && Busy(s.workers[w]) && Head(s.workers[w]) in s.events
  {
    var (r, t) := ProjectCall(s.entries, Tables(s.projected, s.balances), EnvelopeFor(s.events[Head(s.workers[w])]));
    var goes := published && r != Throws;
    && w in s'.workers && Uncontended(s', w) && s'.entries == s.entries && s'.now == s.now && s'.events == s.events
    && s'.workers[w].backoff == s.workers[w].backoff
    && s'.workers[w].sent == s.workers[w].sent[Head(s.workers[w]) := Sent(s.workers[w], Head(s.workers[w])) + 1]
    && Tables(s'.projected, s'.balances) == (if goes then t else Tables(s.projected, s.balances))
    && s'.workers[w].phase == (if goes then NextRow(s.workers[w], true) else At(s.workers[w], Failing)).phase
  }

  /** Publish and project, up to the point where the row has succeeded or failed. */
  lemma {:induction false} TryPlays(cfg: Config, s: State, w: WorkerId, published: bool)
    returns (steps: seq<Step>, s': State)
    requires w in s.workers && Busy(s.workers[w]) && s.workers[w].phase.stage == ToPublish
    requires Head(s.workers[w]) in s.events && Uncontended(s, w)
    ensures Plays(cfg, s, steps, s') && Tried(s, w, published, s')
  {
    steps, s' := PublishPlays(cfg, s, w, published);
    if published {
      var more, s2 := ProjectIsARun(cfg, s', w);
      PlaysConcat(cfg, s, steps, s', more, s2);
      steps, s' := steps + more, s2;
    }
  }

  lemma TriedGoes(cfg: Config, s: State, w: WorkerId, entries: map<EntryId, Entry>, b: BatchState,
          rows: seq<EventId>, trial: Trial, s': State)
    requires rows != [] && Stands(s, w, entries, b, rows, trial.at) && rows[0] in b.desk.events
    requires Tried(s, w, trial.published, s') && s'.workers[w].phase != At(s.workers[w], Failing).phase
    ensures Stands(s', w, entries, Dispatch(cfg, ServiceOver(entries), b, rows[0], trial), rows[1..], trial.at)
  {
    assert Ids(b.ok + [rows[0]]) == Ids(b.ok) + {rows[0]};
  }

  lemma TriedFails(cfg: Config, s: State, w: WorkerId, entries: map<EntryId, Entry>, b: BatchState,
          rows: seq<EventId>, trial: Trial, s': State)
    requires rows != [] && Stands(s, w, entries, b, rows, trial.at) && rows[0] in b.desk.events
    requires Tried(s, w, trial.published, s') && s'.workers[w].phase == At(s.workers[w], Failing).phase
    ensures Dispatch(cfg, ServiceOver(entries), b, rows[0], trial)
        == b.(desk := AfterFailure(cfg, b.desk, rows[0], trial))
    ensures DeskOf(s', w) == b.desk && Head(s'.workers[w]) == rows[0]
  {
  }

  /** One row of the batch, at the time of its trial. */
  lemma {:induction false} RowPlays(cfg: Config, s: State, w: WorkerId, entries: map<EntryId, Entry>, b: BatchState,
          rows: seq<EventId>, trial: Trial)
    returns (steps: seq<Step>, s': State)
    requires rows != [] && Stands(s, w, entries, b, rows, trial.at) && rows[0] in b.desk.events && JitterOk(cfg, trial)
    ensures Plays(cfg, s, steps, s')
    ensures Stands(s', w, entries, Dispatch(cfg, ServiceOver(entries), b, rows[0], trial), rows[1..], trial.at)
    ensures s'.workers[w].sent == s.workers[w].sent[rows[0] := Sent(s.workers[w], rows[0]) + 1]
  {
    steps, s' := TryPlays(cfg, s, w, trial.published);
    if s'.workers[w].phase == At(s.workers[w], Failing).phase {
      TriedFails(cfg, s, w, entries, b, rows, trial, s');
      var more, s2 := FailurePlays(cfg, s', w, trial);
      PlaysConcat(cfg, s, steps, s', more, s2);
      steps, s' := steps + more, s2;
    } else {
      TriedGoes(cfg, s, w, entries, b, rows, trial, s');
    }
  }

  /** The clock moves to the time of the trial first. */
  lemma {:induction false} TimedRowPlays(cfg: Config, s: State, w: WorkerId, entries: map<EntryId, Entry>,
          b: BatchState, rows: seq<EventId>, now: real, trial: Trial)
    returns (steps: seq<Step>, s': State)
    requires rows != [] && Stands(s, w, entries, b, rows, now) && now <= trial.at
    requires rows[0] in b.desk.events && JitterOk(cfg, trial)
    ensures Plays(cfg, s, steps, s')
    ensures Stands(s', w, entries, Dispatch(cfg, ServiceOver(entries), b, rows[0], trial), rows[1..], trial.at)
    ensures s'.workers[w].sent == s.workers[w].sent[rows[0] := Sent(s.workers[w], rows[0]) + 1]
  {
    steps, s' := TickPlays(cfg, s, trial.at);
    var more, s2 := RowPlays(cfg, s', w, entries, b, rows, trial);
    PlaysConcat(cfg, s, steps, s', more, s2);
    steps, s' := steps + more, s2;
  }

  predicate Timed(now: real, trials: seq<Trial>, end: real)
  {
    && now <= end
    && (forall i :: 0 <= i < |trials| ==> now <= trials[i].at <= end)
    && (forall i, j :: 0 <= i <= j < |trials| ==> trials[i].at <= trials[j].at)
  }

  function ClockAfter(now: real, trials: seq<Trial>, n: nat): real
    requires n <= |trials|
  {
    if n == 0 then now else trials[n - 1].at
  }

  /** From `s` to `s'` the process has published once for each time an event stands in `rows`. */
  ghost predicate SentOver(s: State, s': State, w: WorkerId, rows: seq<EventId>)
  {
    && w in s.workers && w in s'.workers
    && forall id :: Sent(s'.workers[w], id) == Sent(s.workers[w], id) + multiset(rows)[id]
  }

  lemma SentOnce(s: State, s': State, s'': State, w: WorkerId, rows: seq<EventId>, row: EventId)
    requires SentOver(s, s', w, rows) && w in s''.workers
    requires s''.workers[w].sent == s'.workers[w].sent[row := Sent(s'.workers[w], row) + 1]
    ensures SentOver(s, s'', w, rows + [row])
  {
  }

  /** `bs` are the states of a batch before and after each of its rows. */
  ghost predicate TraceAt(cfg: Config, entries: map<EntryId, Entry>, rows: seq<EventId>, trials: seq<Trial>,
          bs: seq<BatchState>, i: nat)
    requires i < |rows| == |trials| && |bs| == |rows| + 1
  {
    rows[i] in bs[i].desk.events && bs[i + 1] == Dispatch(cfg, ServiceOver(entries), bs[i], rows[i], trials[i])
  }

  ghost predicate Traces(cfg: Config, entries: map<EntryId, Entry>, rows: seq<EventId>, trials: seq<Trial>,
          bs: seq<BatchState>)
  {
    |rows| == |trials| && |bs| == |rows| + 1 && forall i :: 0 <= i < |rows| ==>
        TraceAt(cfg, entries, rows, trials, bs, i)
  }

  lemma {:induction false} TraceOf(cfg: Config, entries: map<EntryId, Entry>, d: Desk, rows: seq<EventId>,
          trials: seq<Trial>)
    returns (bs: seq<BatchState>)
    requires |rows| == |trials| && AllIn(rows, d.events)
    ensures Traces(cfg, entries, rows, trials, bs)
    ensures bs[0] == BatchState([], d) && bs[|rows|] == Batch(cfg, ServiceOver(entries), d, rows, |rows|, trials)
  {
    bs := seq(|rows| + 1, i requires 0 <= i <= |rows| => Batch(cfg, ServiceOver(entries), d, rows, i, trials));
    forall i | 0 <= i < |rows|
      ensures TraceAt(cfg, entries, rows, trials, bs, i)
    {
      assert bs[i + 1] == Batch(cfg, ServiceOver(entries), d, rows, i + 1, trials);
    }
  }

  lemma {:induction false} NextRowPlays(cfg: Config, s: State, w: WorkerId, entries: map<EntryId, Entry>,
          rows: seq<EventId>, trials: seq<Trial>, bs: seq<BatchState>, n: nat, start: real, end: real)
    returns (steps: seq<Step>, s': State)
    requires Traces(cfg, entries, rows, trials, bs) && n < |rows| && Timed(start, trials, end)
        && AllJitterOk(cfg, trials)
    requires Stands(s, w, entries, bs[n], rows[n..], ClockAfter(start, trials, n))
    ensures Plays(cfg, s, steps, s')
        && Stands(s', w, entries, bs[n + 1], rows[n + 1..], ClockAfter(start, trials, n + 1))
    ensures s'.workers[w].sent == s.workers[w].sent[rows[n] := Sent(s.workers[w], rows[n]) + 1]
  {
    assert TraceAt(cfg, entries, rows, trials, bs, n);
    steps, s' := TimedRowPlays(cfg, s, w, entries, bs[n], rows[n..], ClockAfter(start, trials, n), trials[n]);
    assert rows[n..][1..] == rows[n + 1..];
  }

  /** After the first `n` rows one more. */
  lemma {:induction false} BatchGoesOn(cfg: Config, s: State, w: WorkerId, entries: map<EntryId, Entry>,
          rows: seq<EventId>, trials: seq<Trial>, bs: seq<BatchState>, n: nat, end: real, before: seq<Step>,
          s': State)
    returns (steps: seq<Step>, s'': State)
    requires Traces(cfg, entries, rows, trials, bs) && n < |rows| && Timed(s.now, trials, end)
        && AllJitterOk(cfg, trials)
    requires Plays(cfg, s, before, s') && Stands(s', w, entries, bs[n], rows[n..], ClockAfter(s.now, trials, n))
    requires SentOver(s, s', w, rows[..n])
    ensures Plays(cfg, s, steps, s'')
        && Stands(s'', w, entries, bs[n + 1], rows[n + 1..], ClockAfter(s.now, trials, n + 1))
    ensures SentOver(s, s'', w, rows[..n + 1])
  {
    var more;
    more, s'' := NextRowPlays(cfg, s', w, entries, rows, trials, bs, n, s.now, end);
    PlaysConcat(cfg, s, before, s', more, s'');
    steps := before + more;
    SentOnce(s, s', s'', w, rows[..n], rows[n]);
    assert rows[..n + 1] == rows[..n] + [rows[n]];
  }

  lemma {:induction false} BatchPlays(cfg: Config, s: State, w: WorkerId, entries: map<EntryId, Entry>,
          rows: seq<EventId>, trials: seq<Trial>, bs: seq<BatchState>, n: nat, end: real)
    returns (steps: seq<Step>, s': State)
    requires Traces(cfg, entries, rows, trials, bs) && n <= |rows| && Timed(s.now, trials, end)
    requires AllJitterOk(cfg, trials)
    requires Stands(s, w, entries, bs[0], rows, s.now)
    ensures Plays(cfg, s, steps, s') && Stands(s', w, entries, bs[n], rows[n..], ClockAfter(s.now, trials, n))
    ensures SentOver(s, s', w, rows[..n])
  {
    if n == 0 {
      PlaysNone(cfg, s);
      steps, s' := [], s;
      assert rows[0..] == rows;
    } else {
      steps, s' := BatchPlays(cfg, s, w, entries, rows, trials, bs, n - 1, end);
      steps, s' := BatchGoesOn(cfg, s, w, entries, rows, trials, bs, n - 1, end, steps, s');
    }
  }

  /** The claim and everything up to the first row. */
  lemma {:induction false} ClaimPlays(cfg: Config, s: State, w: WorkerId, rows: seq<EventId>, locked: set<EventId>)
    returns (steps: seq<Step>, s': State)
    requires w in s.workers && s.workers[w].phase.Idle? && Uncontended(s, w)
    requires IsClaim(s.events, Excluded(s.workers[w].backoff, s.now), locked, cfg.batchSize, rows)
    ensures Plays(cfg, s, steps, s')
    ensures w in s'.workers && DeskOf(s', w) == DeskOf(s, w) && s'.entries == s.entries && s'.now == s.now
        && Uncontended(s', w)
    ensures s'.workers[w].phase == if rows == [] then Idle else Dispatching(rows, {}, ToPublish)
    ensures s'.workers[w].sent == s.workers[w].sent
  {
    PlaysNone(cfg, s);
    steps, s' := WorkPlays(cfg, s, [], s, w, StartPoll);
    steps, s' := WorkPlays(cfg, s, steps, s', w, Claim(rows, locked));
  }

  lemma {:induction false} FinishPlays(cfg: Config, s: State, w: WorkerId, entries: map<EntryId, Entry>,
          b: BatchState, now: real, end: real)
    returns (steps: seq<Step>, s': State)
    requires Stands(s, w, entries, b, [], now) && now <= end
    ensures Plays(cfg, s, steps, s')
    ensures w in s'.workers && s'.workers[w].phase == Idle && s'.workers[w].sent == s.workers[w].sent
    ensures s'.now == end && s'.entries == s.entries && Uncontended(s', w)
    ensures DeskOf(s', w) == Desk(Resolve(b.desk.events, Ids(b.ok), Published),
        Cleaned(b.desk.backoff, Ids(b.ok), end), b.desk.tables)
  {
    steps, s' := TickPlays(cfg, s, end);
    steps, s' := WorkPlays(cfg, s, steps, s', w, Finish(true));
  }

  /** From the claimed rows to the end of the poll. */
  lemma {:induction false} SettlePlays(cfg: Config, s: State, w: WorkerId, d: Desk, rows: seq<EventId>,
          trials: seq<Trial>, end: real)
    returns (steps: seq<Step>, s': State)
    requires rows != [] && |rows| == |trials| && AllIn(rows, d.events) && Timed(s.now, trials, end)
    requires AllJitterOk(cfg, trials)
    requires w in s.workers && Uncontended(s, w) && DeskOf(s, w) == d
        && s.workers[w].phase == Dispatching(rows, {}, ToPublish)
    ensures Plays(cfg, s, steps, s')
    ensures w in s'.workers && s'.workers[w].phase == Idle && Uncontended(s', w)
    ensures s'.entries == s.entries && s'.now == end && SentOver(s, s', w, rows)
    ensures DeskOf(s', w) == Poll(cfg, ServiceOver(s.entries), d, rows, trials, end)
  {
    assert Ids([]) == {};
    var bs := TraceOf(cfg, s.entries, d, rows, trials);
    steps, s' := BatchPlays(cfg, s, w, s.entries, rows, trials, bs, |rows|, end);
    assert rows[|rows|..] == [] && rows[..|rows|] == rows;
    var more, s2 := FinishPlays(cfg, s', w, s.entries, bs[|rows|], ClockAfter(s.now, trials, |rows|), end);
    PlaysConcat(cfg, s, steps, s', more, s2);
    steps, s' := steps + more, s2;
  }

  /**
   * processOnce of one process, not interfered with, is a run of the machine that leaves the same tables and the
   * same backoff map.
   */
  lemma {:induction false} PollIsARun(cfg: Config, s: State, w: WorkerId, rows: seq<EventId>, locked: set<EventId>,
          trials: seq<Trial>, end: real)
    returns (steps: seq<Step>, s': State)
    requires w in s.workers && s.workers[w].phase.Idle? && Uncontended(s, w)
    requires IsClaim(s.events, Excluded(s.workers[w].backoff, s.now), locked, cfg.batchSize, rows)
    requires |trials| == |rows| && Timed(s.now, trials, end)
    requires AllJitterOk(cfg, trials)
    ensures AllIn(rows, s.events)
    ensures Plays(cfg, s, steps, s')
    ensures w in s'.workers && s'.workers[w].phase == Idle && Uncontended(s', w)
    ensures s'.entries == s.entries && s'.now == (if rows == [] then s.now else end) && SentOver(s, s', w, rows)
    ensures DeskOf(s', w) == Poll(cfg, ServiceOver(s.entries), DeskOf(s, w), rows, trials, end)
  {
    ClaimedRowsExist(s.events, Excluded(s.workers[w].backoff, s.now), locked, cfg.batchSize, rows);
    steps, s' := ClaimPlays(cfg, s, w, rows, locked);
    if rows != [] {
      var more, s2 := SettlePlays(cfg, s', w, DeskOf(s, w), rows, trials, end);
      PlaysConcat(cfg, s, steps, s', more, s2);
      steps, s' := steps + more, s2;
    }
  }
}
