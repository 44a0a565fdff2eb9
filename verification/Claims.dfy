/** The claim query of the relay has exactly one answer. */
module Claims {
  import opened Sums
  import opened Schema
  import opened RelayService

  /* ----- What the query asks for, on the columns ----- */

  /** Event `x` stands before event `y`: it was created earlier, or at the same time with the smaller id. */
  predicate Older(events: map<EventId, Event>, x: EventId, y: EventId)
    requires x in events && y in events
  {
    events[x].created < events[y].created || (events[x].created == events[y].created && x < y)
  }

  /** The event is pending, not held back by this process and not locked by another. */
  predicate Available(events: map<EventId, Event>, excluded: set<EventId>, locked: set<EventId>, id: EventId)
  {
    id in events && events[id].status == Pending && id !in excluded && id !in locked
  }

  /** The available events that stand before `x`. */
  function Queue(events: map<EventId, Event>, excluded: set<EventId>, locked: set<EventId>, x: EventId): set<EventId>
    requires x in events
  {
    set id | id in events && Available(events, excluded, locked, id) && Older(events, id, x)
  }

  /**
   * Oldest first: the rows of a claim are distinct available events in ascending order of creation, ids breaking
   * ties, and an available event is left out only of a full batch of events that all stand before it.
   */
  lemma ClaimOldestFirst(events: map<EventId, Event>, excluded: set<EventId>, locked: set<EventId>, limit: nat,
          rows: seq<EventId>)
    ensures IsClaim(events, excluded, locked, limit, rows) <==>
              && |rows| <= limit
              && (forall i :: 0 <= i < |rows| ==> Available(events, excluded, locked, rows[i]))
              && (forall i, j :: 0 <= i < j < |rows| ==>
                   || events[rows[i]].created < events[rows[j]].created
                   || (events[rows[i]].created == events[rows[j]].created && rows[i] < rows[j]))
              && (forall id :: Available(events, excluded, locked, id) && id !in rows ==>
                   && |rows| == limit
                   && forall i :: 0 <= i < |rows| ==>
                        || events[rows[i]].created < events[id].created
                        || (events[rows[i]].created == events[id].created && rows[i] < id))
  {
    assert forall id :: Available(events, excluded, locked, id) <==> Claimable(events, excluded, locked, id);
  }

  lemma {:induction false} IdsSize(rows: seq<EventId>)
    requires forall i, j :: 0 <= i < j < |rows| ==> rows[i] != rows[j]
    ensures |Ids(rows)| == |rows|
  {
    if rows != [] {
      var last := rows[|rows| - 1];
      IdsSize(rows[..|rows| - 1]);
      assert rows == rows[..|rows| - 1] + [last];
      assert Ids(rows) == Ids(rows[..|rows| - 1]) + {last};
    }
  }

  lemma QueueOfRow(events: map<EventId, Event>, excluded: set<EventId>, locked: set<EventId>, limit: nat,
          rows: seq<EventId>, n: nat)
    requires IsClaim(events, excluded, locked, limit, rows) && n < |rows|
    ensures rows[n] in events && Queue(events, excluded, locked, rows[n]) == Ids(rows[..n])
  {
    ClaimOldestFirst(events, excluded, locked, limit, rows);
    assert Available(events, excluded, locked, rows[n]);
    forall id
      ensures id in Queue(events, excluded, locked, rows[n]) <==> id in rows[..n]
    {
      if id in Queue(events, excluded, locked, rows[n]) {
        assert id in rows;
        var k :| 0 <= k < |rows| && rows[k] == id;
        assert k < n;
        assert rows[..n][k] == id;
      }
    }
  }

  /**
   * The claim by rank: an available event is claimed exactly when fewer than `limit` available events stand
   * before it, and its place in the batch is the number of those.
   */
  lemma ClaimRank(events: map<EventId, Event>, excluded: set<EventId>, locked: set<EventId>, limit: nat,
          rows: seq<EventId>, x: EventId)
    requires IsClaim(events, excluded, locked, limit, rows) && Available(events, excluded, locked, x)
    ensures x in rows <==> |Queue(events, excluded, locked, x)| < limit
    ensures x in rows ==>
              var place := |Queue(events, excluded, locked, x)|;
              place < |rows| && rows[place] == x
  {
    ClaimOldestFirst(events, excluded, locked, limit, rows);
    assert forall i, j :: 0 <= i < j < |rows| ==> rows[i] != rows[j];
    if x in rows {
      var n :| 0 <= n < |rows| && rows[n] == x;
      QueueOfRow(events, excluded, locked, limit, rows, n);
      IdsSize(rows[..n]);
    } else {
      IdsSize(rows);
      forall id | id in rows
        ensures id in Queue(events, excluded, locked, x)
      {
        var i :| 0 <= i < |rows| && rows[i] == id;
        assert Available(events, excluded, locked, rows[i]);
      }
      SubsetSize(Ids(rows), Queue(events, excluded, locked, x));
    }
  }

  /* ----- Exactly one answer ----- */

  /** Rows of a claim are distinct. */
  lemma NotEarlier(events: map<EventId, Event>, excluded: set<EventId>, locked: set<EventId>, limit: nat,
          a: seq<EventId>, n: nat)
    requires IsClaim(events, excluded, locked, limit, a) && n < |a|
    ensures a[n] !in a[..n]
  {
    forall j | 0 <= j < n
      ensures a[j] != a[n]
    {
      assert Claimable(events, excluded, locked, a[j]) && Claimable(events, excluded, locked, a[n]);
      assert Before(events, a[j], a[n]);
    }
  }

  /** Row `n` of a claim is the earliest claimable row that is not among the first `n`. */
  lemma EarliestLeft(events: map<EventId, Event>, excluded: set<EventId>, locked: set<EventId>, limit: nat,
          a: seq<EventId>, n: nat, x: EventId)
    requires IsClaim(events, excluded, locked, limit, a) && n < |a|
    requires Claimable(events, excluded, locked, x) && x !in a[..n]
    ensures a[n] in events && (x == a[n] || Before(events, a[n], x))
  {
    assert Claimable(events, excluded, locked, a[n]);
    forall j | 0 <= j < n
      ensures a[j] != x
    {
      assert a[j] == a[..n][j];
    }
  }

  /** A claim does not stop short of another one. */
  lemma NotShorter(events: map<EventId, Event>, excluded: set<EventId>, locked: set<EventId>, limit: nat,
          a: seq<EventId>, b: seq<EventId>)
    requires IsClaim(events, excluded, locked, limit, a) && IsClaim(events, excluded, locked, limit, b)
    requires b <= a
    ensures b == a
  {
    if |b| < |a| {
      NotEarlier(events, excluded, locked, limit, a, |b|);
    }
  }

  lemma {:induction false} ClaimedAgreeUpTo(events: map<EventId, Event>, excluded: set<EventId>,
          locked: set<EventId>, limit: nat, a: seq<EventId>, b: seq<EventId>, n: nat)
    requires IsClaim(events, excluded, locked, limit, a) && IsClaim(events, excluded, locked, limit, b)
    requires n <= |a| && n <= |b|
    ensures a[..n] == b[..n]
  {
    if n > 0 {
      ClaimedAgreeUpTo(events, excluded, locked, limit, a, b, n - 1);
      var x, y := a[n - 1], b[n - 1];
      assert Claimable(events, excluded, locked, x) && Claimable(events, excluded, locked, y);
      NotEarlier(events, excluded, locked, limit, a, n - 1);
      NotEarlier(events, excluded, locked, limit, b, n - 1);
      EarliestLeft(events, excluded, locked, limit, a, n - 1, y);
      EarliestLeft(events, excluded, locked, limit, b, n - 1, x);
      assert a[..n] == a[..n - 1] + [x] && b[..n] == b[..n - 1] + [y];
    }
  }

  /** ORDER BY (created_at, id) LIMIT n leaves the database no choice. */
  lemma {:induction false} ClaimUnique(events: map<EventId, Event>, excluded: set<EventId>, locked: set<EventId>,
          limit: nat, a: seq<EventId>, b: seq<EventId>)
    requires IsClaim(events, excluded, locked, limit, a) && IsClaim(events, excluded, locked, limit, b)
    ensures a == b
  {
    if |a| <= |b| {
      ClaimedAgreeUpTo(events, excluded, locked, limit, a, b, |a|);
      NotShorter(events, excluded, locked, limit, b, a);
    } else {
      ClaimedAgreeUpTo(events, excluded, locked, limit, b, a, |b|);
      NotShorter(events, excluded, locked, limit, a, b);
    }
  }

  lemma {:induction false} Earliest(events: map<EventId, Event>, ids: set<EventId>) returns (x: EventId)
    requires ids != {} && ids <= events.Keys
    ensures x in ids && forall y :: y in ids && y != x ==> Before(events, x, y)
    decreases ids
  {
    var z :| z in ids;
    if ids == {z} {
      x := z;
    } else {
      var first := Earliest(events, ids - {z});
      x := if Before(events, z, first) then z else first;
      forall y | y in ids && y != x
        ensures Before(events, x, y)
      {
        if y != z && y != first { assert Before(events, first, y); }
      }
    }
  }

  lemma {:induction false} ClaimExists(events: map<EventId, Event>, excluded: set<EventId>, locked: set<EventId>,
          limit: nat)
    returns (rows: seq<EventId>)
    ensures IsClaim(events, excluded, locked, limit, rows)
  {
    if limit == 0 {
      rows := [];
    } else {
      var most := ClaimExists(events, excluded, locked, limit - 1);
      var left := set id | id in events && Claimable(events, excluded, locked, id) && id !in most;
      if left == {} {
        rows := most;
        forall id | Claimable(events, excluded, locked, id)
          ensures id in rows
        {
          assert id !in left;
        }
      } else {
        var x := Earliest(events, left);
        rows := most + [x];
        NextClaimed(events, excluded, locked, limit - 1, most, x);
      }
    }
  }

  /** A claim with one row more. */
  lemma NextClaimed(events: map<EventId, Event>, excluded: set<EventId>, locked: set<EventId>, limit: nat,
          rows: seq<EventId>, x: EventId)
    requires IsClaim(events, excluded, locked, limit, rows) && Claimable(events, excluded, locked, x) && x !in rows
    requires forall y :: Claimable(events, excluded, locked, y) && y !in rows && y != x ==> Before(events, x, y)
    ensures IsClaim(events, excluded, locked, limit + 1, rows + [x])
  {
    var all := rows + [x];
    forall id | Claimable(events, excluded, locked, id) && id !in all
      ensures |all| == limit + 1 && forall i :: 0 <= i < |all| ==> Before(events, all[i], id)
    {
      assert x in all && id !in rows;
    }
  }
}
