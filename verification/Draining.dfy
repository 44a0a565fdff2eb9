/** With nothing arriving and nothing pruned, the polls of one relay process empty the outbox. */
module Draining {
  import opened Sums
  import opened Schema
  import opened RelayService
  import opened BoundedWaiting
  import opened Claims

  /** The attempts that all events together have left. */
  ghost function Total(cfg: Config, d: Desk): int
  {
    SetSum(d.events.Keys, (id: EventId) => Left(cfg, d, id))
  }

  lemma TotalBounds(cfg: Config, d: Desk)
    ensures 0 <= Total(cfg, d) <= |d.events.Keys| * (cfg.maxAttempts + 1)
  {
    SetSumNonNegative(d.events.Keys, (id: EventId) => Left(cfg, d, id));
    SetSumAtMost(d.events.Keys, (id: EventId) => Left(cfg, d, id), cfg.maxAttempts + 1);
  }

  /** A poll takes at least one attempt from the total for every row it claims. */
  lemma PollTakes(cfg: Config, d: Desk, t: Turn)
    requires TurnOk(cfg, d, t) && BackoffOk(cfg, d) && Unpruned(cfg, d, t)
    ensures Total(cfg, After(cfg, d, t)) + |t.rows| <= Total(cfg, d)
    ensures BackoffOk(cfg, After(cfg, d, t))
  {
    var d' := After(cfg, d, t);
    PollEffect(cfg, d, t, 0);
    forall id
      ensures Aligned(d, d', id)
      ensures id in t.rows ==> Left(cfg, d', id) + 1 <= Left(cfg, d, id)
      ensures Left(cfg, d', id) <= Left(cfg, d, id)
    {
      PollEffect(cfg, d, t, id);
    }
    SameKeys(d, d');
    ClaimIsPending(cfg, d, t);
    IdsSize(t.rows);
    SumDrops(d.events.Keys, Ids(t.rows), (id: EventId) => Left(cfg, d, id), (id: EventId) => Left(cfg, d', id));
  }

  lemma SameKeys(d: Desk, d': Desk)
    requires forall id :: Aligned(d, d', id)
    ensures d'.events.Keys == d.events.Keys
  {
    forall id
      ensures id in d'.events.Keys <==> id in d.events.Keys
    {
      assert Aligned(d, d', id);
    }
  }

  /** Poll `i` does not prune, and the next one finds the events and the backoff map it left. */
  ghost predicate FollowsAt(cfg: Config, desks: seq<Desk>, turns: seq<Turn>, i: nat)
    requires i < |turns| && |desks| == |turns| + 1
  {
    && TurnOk(cfg, desks[i], turns[i]) && Unpruned(cfg, desks[i], turns[i])
    && desks[i + 1] == After(cfg, desks[i], turns[i]).(tables := desks[i + 1].tables)
  }

  ghost predicate Follows(cfg: Config, desks: seq<Desk>, turns: seq<Turn>)
  {
    |desks| == |turns| + 1 && forall i :: 0 <= i < |turns| ==> FollowsAt(cfg, desks, turns, i)
  }

  /** How many of the first `n` polls claim something. */
  function NonEmpty(turns: seq<Turn>, n: nat): nat
    requires n <= |turns|
  {
    if n == 0 then 0 else NonEmpty(turns, n - 1) + if turns[n - 1].rows != [] then 1 else 0
  }

  lemma FollowedOn(cfg: Config, desks: seq<Desk>, turns: seq<Turn>, i: nat)
    requires Follows(cfg, desks, turns) && i < |turns| && BackoffOk(cfg, desks[i])
    ensures BackoffOk(cfg, desks[i + 1])
    ensures Total(cfg, desks[i + 1]) + (if turns[i].rows != [] then 1 else 0) <= Total(cfg, desks[i])
  {
    assert FollowsAt(cfg, desks, turns, i);
    PollTakes(cfg, desks[i], turns[i]);
    TablesAside(cfg, After(cfg, desks[i], turns[i]), desks[i + 1]);
  }

  lemma TablesAside(cfg: Config, d: Desk, d': Desk)
    requires d' == d.(tables := d'.tables)
    ensures Total(cfg, d') == Total(cfg, d) && (BackoffOk(cfg, d) ==> BackoffOk(cfg, d'))
  {
    SetSumEqual(d.events.Keys, (id: EventId) => Left(cfg, d, id), (id: EventId) => Left(cfg, d', id));
  }

  lemma {:induction false} PollsTake(cfg: Config, desks: seq<Desk>, turns: seq<Turn>, n: nat)
    requires Follows(cfg, desks, turns) && BackoffOk(cfg, desks[0]) && n <= |turns|
    ensures BackoffOk(cfg, desks[n]) && NonEmpty(turns, n) + Total(cfg, desks[n]) <= Total(cfg, desks[0])
  {
    if n > 0 {
      PollsTake(cfg, desks, turns, n - 1);
      FollowedOn(cfg, desks, turns, n - 1);
    }
  }

  /** An event that is pending and not waiting is enough for the next poll to claim something. */
  lemma DueMeansWork(cfg: Config, d: Desk, t: Turn, id: EventId)
    requires TurnOk(cfg, d, t) && cfg.batchSize >= 1 && Eligible(d, t.now, id)
    ensures t.rows != []
  {
    assert Claimable(d.events, Excluded(d.backoff, t.now), {}, id);
  }

  /**
   * Draining: no sequence of polls has more than N * (maxAttempts + 1) that claim something, N being the
   * number of events, and once as many as the total of remaining attempts have, every event is published
   * or dead-lettered.
   */
  lemma Drains(cfg: Config, desks: seq<Desk>, turns: seq<Turn>)
    requires Follows(cfg, desks, turns) && BackoffOk(cfg, desks[0])
    ensures NonEmpty(turns, |turns|) <= Total(cfg, desks[0]) <= |desks[0].events.Keys| * (cfg.maxAttempts + 1)
    ensures NonEmpty(turns, |turns|) == Total(cfg, desks[0]) ==>
              forall id :: id in desks[|turns|].events ==> desks[|turns|].events[id].status != Pending
  {
    PollsTake(cfg, desks, turns, |turns|);
    TotalBounds(cfg, desks[0]);
    TotalBounds(cfg, desks[|turns|]);
    if Total(cfg, desks[|turns|]) == 0 {
      forall id | id in desks[|turns|].events
        ensures desks[|turns|].events[id].status != Pending
      {
        NoneLeft(cfg, desks[|turns|], id);
      }
    }
  }

  /** A pending event keeps the total above zero. */
  lemma NoneLeft(cfg: Config, d: Desk, id: EventId)
    requires BackoffOk(cfg, d) && id in d.events && Total(cfg, d) == 0
    ensures d.events[id].status != Pending
  {
    var left := (y: EventId) => Left(cfg, d, y);
    SetSumRemove(d.events.Keys, id, left);
    SetSumNonNegative(d.events.Keys - {id}, left);
  }

  ghost predicate PendingAt(d: Desk, id: EventId)
  {
    id in d.events && d.events[id].status == Pending
  }

  /** What is pending after a poll was pending before it. */
  lemma PendingBefore(cfg: Config, desks: seq<Desk>, turns: seq<Turn>, i: nat, id: EventId)
    requires Follows(cfg, desks, turns) && i < |turns| && BackoffOk(cfg, desks[i]) && PendingAt(desks[i + 1], id)
    ensures PendingAt(desks[i], id)
  {
    assert FollowsAt(cfg, desks, turns, i);
    PollEffect(cfg, desks[i], turns[i], id);
    ClaimIsPending(cfg, desks[i], turns[i]);
  }

  /** Every wait has run out when poll `i` starts. */
  ghost predicate AllDue(desks: seq<Desk>, turns: seq<Turn>, i: nat)
    requires i < |turns| && |desks| == |turns| + 1
  {
    forall id :: id in desks[i].backoff ==> desks[i].backoff[id].nextAt <= turns[i].now
  }

  /** While an event stays pending, polls that start after every wait all claim something. */
  lemma {:induction false} BusyWhilePending(cfg: Config, desks: seq<Desk>, turns: seq<Turn>, n: nat, id: EventId)
    requires Follows(cfg, desks, turns) && BackoffOk(cfg, desks[0]) && cfg.batchSize >= 1 && n <= |turns|
    requires forall i :: 0 <= i < |turns| ==> AllDue(desks, turns, i)
    requires PendingAt(desks[n], id)
    ensures NonEmpty(turns, n) == n
  {
    if n > 0 {
      PollsTake(cfg, desks, turns, n - 1);
      PendingBefore(cfg, desks, turns, n - 1, id);
      BusyWhilePending(cfg, desks, turns, n - 1, id);
      assert FollowsAt(cfg, desks, turns, n - 1) && AllDue(desks, turns, n - 1);
      DueMeansWork(cfg, desks[n - 1], turns[n - 1], id);
    }
  }

  /** So as many polls as attempts remain, each started after every wait, leave nothing pending. */
  lemma DrainsWhenDue(cfg: Config, desks: seq<Desk>, turns: seq<Turn>, id: EventId)
    requires Follows(cfg, desks, turns) && BackoffOk(cfg, desks[0]) && cfg.batchSize >= 1
    requires forall i :: 0 <= i < |turns| ==> AllDue(desks, turns, i)
    requires |turns| >= Total(cfg, desks[0])
    ensures !PendingAt(desks[|turns|], id)
  {
    if PendingAt(desks[|turns|], id) {
      BusyWhilePending(cfg, desks, turns, |turns|, id);
      Drains(cfg, desks, turns);
    }
  }
}
