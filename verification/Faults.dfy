/**
 * What goes wrong in runs of the pipeline: where requests abort, processes crash and statements fail, and runs in
 * which two requests race for a key and in which an event is delivered twice.
 */
module Faults {
  import opened Wrappers
  import opened Types
  import opened Legs
  import opened Schema
  import opened Pipeline
  import opened Scripts
  import opened ExactlyOnce
  import opened LedgerService
  import opened ProjectionService
  import opened RelayService
  import opened RelayRuns
  import opened Witnesses

  /* ----- Faults that every state allows ----- */

  /** A process can crash at any moment: its map and its batch are lost, nothing else changes. */
  lemma CrashAnytime(cfg: Config, s: State, w: WorkerId)
    requires w in s.workers
    ensures Enabled(cfg, s, Work(w, Crash))
    ensures Apply(cfg, s, Work(w, Crash)) == s.(workers := s.workers[w := Worker(map[], Idle, map[])])
  {
  }

  /** A request can abort at any statement, and leaves nothing. */
  lemma AbortAnytime(cfg: Config, s: State, p: PostId)
    requires p in s.posts && !s.posts[p].Done?
    ensures Enabled(cfg, s, Step.Post(p, Abort))
    ensures Apply(cfg, s, Step.Post(p, Abort)) == s.(posts := s.posts[p := Done(s.posts[p].dto, Failed)])
  {
  }

  /** A commit can pass without the caller learning of it: the rows are there, the reply says that it failed. */
  lemma UnacknowledgedPost(cfg: Config, s: State, p: PostId)
    requires p in s.posts && s.posts[p].Enqueued? && LinesBalanced(s.posts[p].lines)
    ensures Enabled(cfg, s, Step.Post(p, Commit(false))) && Enabled(cfg, s, Step.Post(p, Commit(true)))
    ensures var lost, told := Apply(cfg, s, Step.Post(p, Commit(false))), Apply(cfg, s, Step.Post(p, Commit(true)));
            && lost == told.(posts := lost.posts) && s.posts[p].entry in lost.entries
            && lost.posts[p].reply == Failed && told.posts[p].reply == Posted(s.posts[p].entry)
  {
  }

  /** A claim releases its locks: any process between two polls can claim rows that others are still working on. */
  lemma ClaimSharesRows(cfg: Config, s: State, w: WorkerId, rows: seq<EventId>, locked: set<EventId>)
    requires w in s.workers && s.workers[w].phase.Idle?
    requires IsClaim(s.events, Excluded(s.workers[w].backoff, s.now), locked, cfg.batchSize, rows) && rows != []
    ensures Enabled(cfg, s, Work(w, StartPoll))
    ensures var polling := Apply(cfg, s, Work(w, StartPoll));
            && Enabled(cfg, polling, Work(w, Claim(rows, locked)))
            && Apply(cfg, polling, Work(w, Claim(rows, locked)))
                == s.(workers := s.workers[w := s.workers[w].(phase := Dispatching(rows, {}, ToPublish))])
  {
  }

  /** A publish can fail or go through; neither touches a table. */
  lemma PublishEitherWay(cfg: Config, s: State, w: WorkerId, success: bool)
    requires w in s.workers && Busy(s.workers[w]) && s.workers[w].phase.stage.ToPublish?
    ensures Enabled(cfg, s, Work(w, Publish(success)))
    ensures var s' := Apply(cfg, s, Work(w, Publish(success)));
            && s' == s.(workers := s'.workers, delivered := s'.delivered) && w in s'.workers
            && s'.workers[w].phase == s.workers[w].phase.(stage := if success then Delivered else Failing)
  {
  }

  /** A projection can fail at each of its statements: what it wrote is gone and the row has failed. */
  lemma ProjectionFailsAnywhere(cfg: Config, s: State, w: WorkerId)
    requires w in s.workers && Busy(s.workers[w])
    requires !s.workers[w].phase.stage.ToPublish? && !s.workers[w].phase.stage.Failing?
    ensures Enabled(cfg, s, Work(w, ProjectionError))
    ensures Apply(cfg, s, Work(w, ProjectionError)) == s.(workers := s.workers[w := s.workers[w].(phase :=
        s.workers[w].phase.(stage := Failing))])
  {
  }

  /** A projection can commit without the process learning of it: the rows are there, the row has failed. */
  lemma UnacknowledgedProjection(cfg: Config, s: State, w: WorkerId)
    requires Enabled(cfg, s, Work(w, CommitProjection(true)))
    ensures Enabled(cfg, s, Work(w, CommitProjection(false)))
    ensures var lost, told := Apply(cfg, s, Work(w, CommitProjection(false))),
                Apply(cfg, s, Work(w, CommitProjection(true)));
            && lost == told.(workers := lost.workers) && w in lost.workers
            && lost.workers[w].phase == s.workers[w].phase.(stage := Failing)
  {
  }

  /** A claim, a dead-letter update or a mark can fail: the batch is over and the tables stay. */
  lemma StatementFails(cfg: Config, s: State, w: WorkerId)
    requires w in s.workers
    requires var wk := s.workers[w];
             || wk.phase.Polling?
             || (Busy(wk) && wk.phase.stage.Failing? && AttemptsOf(wk.backoff, Head(wk)) + 1 > cfg.maxAttempts)
             || (wk.phase.Dispatching? && wk.phase.rows == [] && wk.phase.ok != {})
    ensures Enabled(cfg, s, Work(w, BatchError))
    ensures Apply(cfg, s, Work(w, BatchError)) == s.(workers := s.workers[w := s.workers[w].(phase := Idle)])
  {
  }

  /** A mark can pass without the process learning of it: the events are published and the map stays as it is. */
  lemma UnacknowledgedMark(cfg: Config, s: State, w: WorkerId)
    requires w in s.workers && s.workers[w].phase.Dispatching? && s.workers[w].phase.rows == []
    requires s.workers[w].phase.ok != {}
    ensures Enabled(cfg, s, Work(w, Finish(false)))
    ensures var s' := Apply(cfg, s, Work(w, Finish(false)));
            && s' == s.(workers := s.workers[w := s.workers[w].(phase := Idle)], events := s'.events)
            && s'.events == map id | id in s.events ::
                 if id in s.workers[w].phase.ok && s.events[id].status == Pending
                 then s.events[id].(status := Published) else s.events[id]
  {
  }

  /* ----- Two requests race for a key ----- */

  /** The request has passed the key check and has no row yet. */
  predicate PastCheck(s: State, q: PostId, dto: PostDto)
  {
    q in s.posts && s.posts[q] == Checked(dto)
  }

  /** A request that passes the key check before another one takes the key is told that there is a conflict. */
  lemma {:induction false} LoserPlays(cfg: Config, s: State, q: PostId, dto: PostDto, entry: EntryId)
    returns (steps: seq<Step>, s': State)
    requires PastCheck(s, q, dto) && Insertable(cfg.chart, dto) && KeyOf(dto) in s.keys
    requires entry !in s.usedEntries && KeyFree(s, KeyOf(dto))
    ensures Plays(cfg, s, steps, s') && TablesOf(s') == TablesOf(s)
    ensures forall p :: p in s.posts && p != q ==> p in s'.posts && s'.posts[p] == s.posts[p]
    ensures q in s'.posts && s'.posts[q] == Done(dto, Conflict)
  {
    PlaysNone(cfg, s);
    steps, s' := StepPlays(cfg, s, [], s, InsertHeader(entry), q);
    var more, s2 := LinesPlay(cfg, s', q, |dto.lines|);
    PlaysConcat(cfg, s, steps, s', more, s2);
    InsertedExact(cfg.chart, dto, |dto.lines|);
    steps, s' := StepPlays(cfg, s, steps + more, s2, InsertKey, q);
  }

  /** Both requests are good, ask for one key, and nothing has used the key or the ids. */
  ghost predicate Racing(cfg: Config, s: State, p: PostId, dto: PostDto, q: PostId, dto': PostDto, entry: EntryId,
          entry': EntryId, event: EventId)
  {
    && p != q && p !in s.posts && q !in s.posts
    && dto'.tenant == dto.tenant && dto'.key == dto.key
    && BalancedRequest(dto) && Insertable(cfg.chart, dto) && BalancedRequest(dto') && Insertable(cfg.chart, dto')
    && KeyOf(dto) !in s.keys && KeyFree(s, KeyOf(dto))
    && entry != entry' && entry !in s.usedEntries && entry' !in s.usedEntries && event !in s.usedEvents
  }

  /** The first two statements of the request that will lose. */
  lemma {:induction false} EarlyPlays(cfg: Config, s: State, q: PostId, dto: PostDto)
    returns (steps: seq<Step>, s': State)
    requires q !in s.posts && BalancedRequest(dto) && KeyOf(dto) !in s.keys
    ensures Plays(cfg, s, steps, s') && s' == s.(posts := s.posts[q := Checked(dto)])
  {
    RequestedSides(cfg.chart, dto, [], |dto.lines|, Debit);
    RequestedSides(cfg.chart, dto, [], |dto.lines|, Credit);
    steps, s' := CheckPlays(cfg, s, q, dto);
  }

  /** After the winner has committed, the loser finds the key taken. */
  lemma WinnerLeaves(cfg: Config, s: State, p: PostId, dto: PostDto, q: PostId, dto': PostDto, entry: EntryId,
          entry': EntryId, event: EventId, created: nat, s': State)
    requires PastCheck(s, q, dto') && p != q && dto'.tenant == dto.tenant && dto'.key == dto.key
    requires BalancedRequest(dto) && Insertable(cfg.chart, dto) && KeyOf(dto) !in s.keys && KeyFree(s, KeyOf(dto))
    requires entry != entry' && entry' !in s.usedEntries
    requires OthersUntouched(s, s', p, entry) && s'.posts[p].Done?
    requires (s'.posts[p].reply, TablesOf(s')) == Posting(cfg.chart, TablesOf(s), dto, entry, event, created)
    ensures PastCheck(s', q, dto') && KeyOf(dto') in s'.keys && entry' !in s'.usedEntries && KeyFree(s', KeyOf(dto'))
    ensures s'.posts[p].reply == Posted(entry) && s'.entries.Keys == s.entries.Keys + {entry}
  {
    PostingExact(cfg.chart, TablesOf(s), dto, entry, event, created);
  }

  /**
   * The race is real: from any state, two good requests for an unused key have a run in which both pass the key
   * check, one is posted and the other is told that there is a conflict, and the ledger gains one entry.
   */
  lemma {:induction false} RaceRun(cfg: Config, s: State, p: PostId, dto: PostDto, q: PostId, dto': PostDto,
          entry: EntryId, entry': EntryId, event: EventId, created: nat)
    returns (steps: seq<Step>, s': State)
    requires Racing(cfg, s, p, dto, q, dto', entry, entry', event)
    ensures Plays(cfg, s, steps, s')
    ensures p in s'.posts && s'.posts[p].Done? && s'.posts[p].reply == Posted(entry)
    ensures q in s'.posts && s'.posts[q] == Done(dto', Conflict)
    ensures s'.entries.Keys == s.entries.Keys + {entry}
  {
    steps, s' := EarlyPlays(cfg, s, q, dto');
    var more, s2 := PostEntryIsARun(cfg, s', p, dto, entry, event, created);
    PlaysConcat(cfg, s, steps, s', more, s2);
    WinnerLeaves(cfg, s', p, dto, q, dto', entry, entry', event, created, s2);
    var rest, s3 := LoserPlays(cfg, s2, q, dto', entry');
    PlaysConcat(cfg, s, steps + more, s2, rest, s3);
    steps, s' := steps + more + rest, s3;
  }

  /* ----- An event is delivered twice ----- */

  /** A run goes on after a crash. */
  lemma {:induction false} CrashGoesOn(cfg: Config, states: seq<State>, steps: seq<Step>, w: WorkerId, more: seq<Step>,
          last: State)
    returns (states': seq<State>, steps': seq<Step>)
    requires Run(cfg, states, steps) && w in states[|steps|].workers
    requires Plays(cfg, Apply(cfg, states[|steps|], Work(w, Crash)), more, last)
    ensures Run(cfg, states', steps') && states <= states' && steps' == steps + [Work(w, Crash)] + more
    ensures states'[|steps'|] == last && states'[|steps| + 1] == Apply(cfg, states[|steps|], Work(w, Crash))
  {
    var crashed := Apply(cfg, states[|steps|], Work(w, Crash));
    var tail :| Chain(cfg, tail, more) && tail[0] == crashed && tail[|more|] == last;
    states', steps' := states + tail, steps + [Work(w, Crash)] + more;
    forall i | 0 <= i < |steps'|
      ensures Next(cfg, states'[i], steps'[i], states'[i + 1])
    {
      if i < |steps| {
        assert states'[i] == states[i] && states'[i + 1] == states[i + 1] && steps'[i] == steps[i];
      } else if i > |steps| {
        var k := i - |steps| - 1;
        assert Moves(cfg, tail, more, k);
        assert states'[i] == tail[k] && states'[i + 1] == tail[k + 1] && steps'[i] == more[k];
      }
    }
  }

  /** The process has published the event of a pending row once and projected its entry, and marked nothing. */
  ghost predicate HalfDone(cfg: Config, s: State, w: WorkerId, dto: PostDto, entry: EntryId, event: EventId)
    requires Admissible(cfg, dto)
  {
    var lines := InsertedLines(cfg.chart, dto, |dto.lines|).value;
    && w in s.workers && s.now == 0.0 && Uncontended(s, w)
    && s.entries == map[entry := Entry(dto.tenant, lines)]
    && s.events == map[event := Event(dto.tenant, 0, JournalPosted, Some(entry), Pending)]
    && Tables(s.projected, s.balances)
        == Tables(map[entry := ProjectedRow(dto.tenant, lines)], Upserts(map[], lines, |lines|).value)
  }

  /** Up to the moment after the projection of the first delivery. */
  lemma {:induction false} DeliverOnce(cfg: Config, w: WorkerId, dto: PostDto, entry: EntryId, event: EventId)
    returns (steps: seq<Step>, s: State)
    requires ConfigOk(cfg) && Admissible(cfg, dto)
    ensures Plays(cfg, Fresh(w), steps, s) && HalfDone(cfg, s, w, dto, entry, event)
    ensures Sent(s.workers[w], event) == 1
  {
    steps, s := PostPlays(cfg, w, dto, entry, event);
    var row := Event(dto.tenant, 0, JournalPosted, Some(entry), Pending);
    FreshDesk(s, w);
    OneClaim(event, row, 0.0, cfg.batchSize);
    var more, s1 := ClaimPlays(cfg, s, w, [event], {});
    PlaysConcat(cfg, Fresh(w), steps, s, more, s1);
    var rest, s2 := TryPlays(cfg, s1, w, true);
    PlaysConcat(cfg, Fresh(w), steps + more, s1, rest, s2);
    ProjectsAccepted(cfg, dto, entry);
    steps, s := steps + more + rest, s2;
  }

  /** The poll of the restarted process publishes the event again and finds the entry projected. */
  lemma {:induction false} DeliverAgain(cfg: Config, s: State, w: WorkerId, dto: PostDto, entry: EntryId,
          event: EventId)
    returns (steps: seq<Step>, s': State)
    requires ConfigOk(cfg) && Admissible(cfg, dto) && HalfDone(cfg, s, w, dto, entry, event)
    requires s.workers[w] == FRESH_WORKER
    ensures Plays(cfg, s, steps, s') && w in s'.workers && Sent(s'.workers[w], event) == 1
    ensures s'.entries == s.entries && s'.projected == s.projected && s'.balances == s.balances
    ensures s'.events == map[event := s.events[event].(status := Published)]
  {
    var row := s.events[event];
    OneClaim(event, row, 0.0, cfg.batchSize);
    ProjectsAccepted(cfg, dto, entry);
    RedeliveryIsIdempotent(s.entries, Tables(map[], map[]), EnvelopeFor(row));
    OnePoll(cfg, s.entries, Tables(s.projected, s.balances), event, row, 0.0);
    OneTrialOk(cfg);
    steps, s' := PollIsARun(cfg, s, w, [event], {}, [Trial(true, 0.0, 0.0)], 0.0);
  }

  /**
   * At-least-once delivery is real: every request that an empty ledger accepts has a run in which its event is
   * published, its entry projected, the process crashes, and the event is published again; the second delivery
   * leaves journal, projection and balances as they are.
   */
  lemma {:induction false} RedeliveredRun(cfg: Config, w: WorkerId, dto: PostDto, entry: EntryId, event: EventId)
    returns (states: seq<State>, steps: seq<Step>, k: nat)
    requires ConfigOk(cfg) && Admissible(cfg, dto)
    ensures Run(cfg, states, steps) && k < |steps| && steps[k] == Work(w, Crash)
    ensures HalfDone(cfg, states[k], w, dto, entry, event) && Sent(states[k].workers[w], event) == 1
    ensures var last := states[|steps|];
            && w in last.workers && Sent(last.workers[w], event) == 1
            && last.entries == states[k].entries && last.projected == states[k].projected
            && last.balances == states[k].balances
            && last.events == map[event := states[k].events[event].(status := Published)]
  {
    var s;
    steps, s := DeliverOnce(cfg, w, dto, entry, event);
    states := PlaysIsARun(cfg, Fresh(w), steps, s);
    k := |steps|;
    CrashAnytime(cfg, s, w);
    var more, last := DeliverAgain(cfg, Apply(cfg, s, Work(w, Crash)), w, dto, entry, event);
    states, steps := CrashGoesOn(cfg, states, steps, w, more, last);
  }
}
