/** The poll loop of one relay process: polls one after the other, with the clock moving on between them. */
module RelayLoop {
  import opened Schema
  import opened Pipeline
  import opened Scripts
  import opened ProjectionService
  import opened RelayService
  import opened BoundedWaiting
  import opened RelayRuns

  /** A turn that the process can take on desk `d` leaves `d'`. */
  ghost predicate Turned(cfg: Config, entries: map<EntryId, Entry>, d: Desk, t: Turn, d': Desk)
  {
    && t.project == ServiceOver(entries) && TurnOk(cfg, d, t)
    && Timed(t.now, t.trials, t.end) && AllJitterOk(cfg, t.trials) && d' == After(cfg, d, t)
  }

  /** Turn `i` starts no earlier than the one before it ended, polls `desks[i]` and leaves `desks[i + 1]`. */
  ghost predicate LoopsAt(cfg: Config, entries: map<EntryId, Entry>, desks: seq<Desk>, turns: seq<Turn>, i: nat)
    requires i < |turns| && |desks| == |turns| + 1
  {
    Turned(cfg, entries, desks[i], turns[i], desks[i + 1]) && (i > 0 ==> turns[i - 1].end <= turns[i].now)
  }

  ghost predicate Loops(cfg: Config, entries: map<EntryId, Entry>, desks: seq<Desk>, turns: seq<Turn>)
  {
    |desks| == |turns| + 1 && forall i :: 0 <= i < |turns| ==> LoopsAt(cfg, entries, desks, turns, i)
  }

  /** How often the first `n` polls claim an event. */
  function ClaimsOf(turns: seq<Turn>, n: nat, id: EventId): nat
    requires n <= |turns|
  {
    if n == 0 then 0 else ClaimsOf(turns, n - 1, id) + multiset(turns[n - 1].rows)[id]
  }

  /** The process is between polls: idle, nothing else in its way, with `d` on its desk. */
  ghost predicate AtRest(s: State, w: WorkerId, entries: map<EntryId, Entry>, d: Desk)
  {
    w in s.workers && s.workers[w].phase == Idle && Uncontended(s, w) && s.entries == entries && DeskOf(s, w) == d
  }

  /** From `s` to `s'` the process has published once for every claim of the first `n` polls. */
  ghost predicate SentFor(s: State, s': State, w: WorkerId, turns: seq<Turn>, n: nat)
    requires n <= |turns|
  {
    && w in s.workers && w in s'.workers
    && forall id :: Sent(s'.workers[w], id) == Sent(s.workers[w], id) + ClaimsOf(turns, n, id)
  }

  /** One turn: wait until it is due, poll, and finish by its end. */
  lemma {:induction false} TurnPlays(cfg: Config, s: State, w: WorkerId, entries: map<EntryId, Entry>, d: Desk,
          t: Turn, d': Desk)
    returns (steps: seq<Step>, s': State)
    requires AtRest(s, w, entries, d) && s.now <= t.now && Turned(cfg, entries, d, t, d')
    ensures Plays(cfg, s, steps, s') && AtRest(s', w, entries, d') && s'.now == t.end
    ensures SentOver(s, s', w, t.rows)
  {
    steps, s' := TickPlays(cfg, s, t.now);
    var more, s2 := PollIsARun(cfg, s', w, t.rows, {}, t.trials, t.end);
    PlaysConcat(cfg, s, steps, s', more, s2);
    var rest, s3 := TickPlays(cfg, s2, t.end);
    PlaysConcat(cfg, s, steps + more, s2, rest, s3);
    steps, s' := steps + more + rest, s3;
  }

  lemma SentNext(s: State, s': State, s'': State, w: WorkerId, turns: seq<Turn>, n: nat)
    requires n < |turns| && SentFor(s, s', w, turns, n) && SentOver(s', s'', w, turns[n].rows)
    ensures SentFor(s, s'', w, turns, n + 1)
  {
  }

  lemma {:induction false} NextTurnPlays(cfg: Config, s: State, w: WorkerId, entries: map<EntryId, Entry>,
          desks: seq<Desk>, turns: seq<Turn>, n: nat)
    returns (steps: seq<Step>, s': State)
    requires Loops(cfg, entries, desks, turns) && n < |turns| && AtRest(s, w, entries, desks[n])
        && s.now <= turns[n].now
    ensures Plays(cfg, s, steps, s') && AtRest(s', w, entries, desks[n + 1]) && s'.now == turns[n].end
    ensures SentOver(s, s', w, turns[n].rows)
  {
    assert LoopsAt(cfg, entries, desks, turns, n);
    steps, s' := TurnPlays(cfg, s, w, entries, desks[n], turns[n], desks[n + 1]);
  }

  lemma Waits(cfg: Config, entries: map<EntryId, Entry>, desks: seq<Desk>, turns: seq<Turn>, n: nat)
    requires Loops(cfg, entries, desks, turns) && 0 < n < |turns|
    ensures turns[n - 1].end <= turns[n].now
  {
    assert LoopsAt(cfg, entries, desks, turns, n);
  }

  /**
   * The loop of one process that nothing else interferes with is played by calm steps of the pipeline: the
   * desks of its polls are the desks of the machine, and every claim is one publish.
   */
  lemma {:induction false} LoopIsARun(cfg: Config, s: State, w: WorkerId, entries: map<EntryId, Entry>,
          desks: seq<Desk>, turns: seq<Turn>, n: nat)
    returns (steps: seq<Step>, s': State)
    requires Loops(cfg, entries, desks, turns) && n <= |turns| && AtRest(s, w, entries, desks[0])
    requires turns != [] ==> s.now <= turns[0].now
    ensures Plays(cfg, s, steps, s') && AtRest(s', w, entries, desks[n])
    ensures s'.now == (if n == 0 then s.now else turns[n - 1].end) && SentFor(s, s', w, turns, n)
  {
    if n == 0 {
      PlaysNone(cfg, s);
      steps, s' := [], s;
    } else {
      steps, s' := LoopIsARun(cfg, s, w, entries, desks, turns, n - 1);
      if n > 1 { Waits(cfg, entries, desks, turns, n - 1); }
      var more, s2 := NextTurnPlays(cfg, s', w, entries, desks, turns, n - 1);
      PlaysConcat(cfg, s, steps, s', more, s2);
      SentNext(s, s', s2, w, turns, n - 1);
      steps, s' := steps + more, s2;
    }
  }
}
